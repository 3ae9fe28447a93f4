/** Properties of the init migration's schema, seed rows and delete rules. */
module InitMigrationProperties {
  import opened Common
  import opened Validation
  import opened InitMigration
  import opened ValidationProperties

  // ================================================================= schema

  /** Only the three foreign keys of Consultations are NO ACTION; every other
      foreign key of the migration cascades. */
  lemma OnlyConsultationKeysAreNoAction(t: Table)
    ensures forall fk :: fk in ForeignKeysOf(t) ==> fk.dependent == t && (fk.onDelete == NoAction <==> t == Consultations)
  {
  }

  /** Up creates Consultations last, and Down drops AspNetUsers last, after
      Cliniques and Adresses. */
  lemma OrderEndpoints()
    ensures CreationOrder[|CreationOrder| - 1] == Consultations
    ensures DropOrder[|DropOrder| - 1] == AspNetUsers
    ensures CreationRank(Adresses) < CreationRank(Cliniques) && CreationRank(AspNetUsers) < CreationRank(Cliniques)
  {
  }

  // ================================================================ inserts

  /** IX_Patients_UserId: once the index exists, a second patient for a user is refused. */
  lemma SecondPatientOfUserRefused(r: Rows, indexes: set<Index>, k: int, j: int, p: Patient)
    requires IxPatientsUser in indexes
    requires k in r.patients && r.patients[k].userId == p.userId && p.userId.Some?
    requires j != k
    ensures !Admissible(r, indexes, PatientRows(map[j := p]))
  {
    var all := r.patients + map[j := p];
    assert k in all && j in all && all[k].userId == all[j].userId;
  }

  /** IX_Cliniques_AdresseID: once the index exists, a second clinic at an address is refused. */
  lemma SecondCliniqueAtAdresseRefused(r: Rows, indexes: set<Index>, k: int, j: int, c: Clinique)
    requires IxCliniquesAdresse in indexes
    requires k in r.cliniques && r.cliniques[k].adresseId == c.adresseId
    requires j != k
    ensures !Admissible(r, indexes, CliniqueRows(map[j := c]))
  {
    var all := r.cliniques + map[j := c];
    assert k in all && j in all && all[k].adresseId == all[j].adresseId;
  }

  /** No index on Consultations is unique: consultations that share a time slot,
      a patient or a waiting list are admitted as long as their keys are fresh
      and what they reference exists. */
  lemma SharedReferencesAdmitted(r: Rows, indexes: set<Index>, m: map<int, Consultation>)
    requires m.Keys !! r.consultations.Keys
    requires forall k :: k in m ==> ConsultationRefsExist(r, m[k])
    ensures Admissible(r, indexes, ConsultationRows(m))
    ensures forall ix :: ix in Indexes && ix.table == Consultations ==> !ix.unique
  {
    forall ix | ix in Indexes && ix.table == Consultations
      ensures !ix.unique
    {
      var i :| 0 <= i < |Indexes| && Indexes[i] == ix;
      assert i == 9 || i == 10 || i == 11;
    }
  }

  // ================================================================ deletes

  /** Deleting a consultation removes only that consultation and is never blocked. */
  lemma ConsultationDeleteNeverBlocked(r: Rows, k: int)
    ensures var c := CascadeClosure(r, Target(ConsultationRow(k)));
      && !Blocked(r, c)
      && c.consultations == {k}
      && c.adresses == {} && c.users == {} && c.cliniques == {} && c.patients == {}
      && c.listes == {} && c.dependants == {} && c.plages == {}
  {
    var c := CascadeClosure(r, Target(ConsultationRow(k)));
    assert forall l :: l !in c.cliniques;
    assert forall l :: l !in c.listes;
    assert forall l :: l !in c.patients;
  }

  /** NO ACTION: a patient that a consultation references cannot be deleted. */
  lemma ReferencedPatientDeleteBlocked(r: Rows, k: int, c: int)
    requires c in r.consultations && r.consultations[c].patientId == Some(k)
    ensures Blocked(r, CascadeClosure(r, Target(PatientRow(k))))
  {
    var gone := CascadeClosure(r, Target(PatientRow(k)));
    assert c !in gone.consultations && RefersToRemoved(r.consultations[c], gone);
  }

  /** The cascade reaches through two Cascade keys: deleting a clinic removes its
      waiting lists and their time slots. */
  lemma CliniqueDeleteReachesPlages(r: Rows, k: int, l: int, s: int)
    requires l in r.listes && r.listes[l].cliniqueId == k
    requires s in r.plages && r.plages[s].listeAttenteId == l
    ensures var c := CascadeClosure(r, Target(CliniqueRow(k)));
      l in c.listes && s in c.plages
  {
  }

  /** Deleting a user removes the user's patient and the patient's dependants. */
  lemma UserDeleteReachesDependants(r: Rows, u: UserId, k: int, d: int)
    requires k in r.patients && r.patients[k].userId == Some(u)
    requires d in r.dependants && r.dependants[d].patientId == k
    ensures var c := CascadeClosure(r, Target(UserRow(u)));
      k in c.patients && d in c.dependants
  {
  }

  /** A NO ACTION key also blocks a delete that only the cascade reaches: a time
      slot of a clinic's list that a consultation books blocks deleting the clinic. */
  lemma BookedSlotBlocksCliniqueDelete(r: Rows, k: int, l: int, s: int, c: int)
    requires l in r.listes && r.listes[l].cliniqueId == k
    requires s in r.plages && r.plages[s].listeAttenteId == l
    requires c in r.consultations && r.consultations[c].plageHoraireId == Some(s)
    ensures Blocked(r, CascadeClosure(r, Target(CliniqueRow(k))))
  {
    var gone := CascadeClosure(r, Target(CliniqueRow(k)));
    CliniqueDeleteReachesPlages(r, k, l, s);
    assert c !in gone.consultations && RefersToRemoved(r.consultations[c], gone);
  }

  // =============================================================== seed rows

  /** The seed rows keep every row rule, the two unique indexes included. */
  lemma SeedRowsKeepIntegrity()
    ensures ColumnsFit(SeedRows) && ForeignKeysHold(SeedRows)
    ensures OneCliniquePerAdresse(SeedRows.cliniques) && OnePatientPerUser(SeedRows.patients)
  {
    SeedAccountsKeepIntegrity();
    SeedListesAdmitted();
    InsertKeepsIntegrity(AfterPatients, {}, ListeRows(SeedListes));
    SeedPlagesAdmitted();
    InsertKeepsIntegrity(AfterListes, {}, PlageRows(SeedPlages));
    SeedConsultationsAdmitted();
    InsertKeepsIntegrity(AfterPlages, {}, ConsultationRows(SeedConsultations));
    SeedUnique();
  }

  /** The Adresses, AspNetUsers, Cliniques and Patients seed rows keep every row rule. */
  lemma SeedAccountsKeepIntegrity()
    ensures ColumnsFit(AfterPatients) && ForeignKeysHold(AfterPatients)
  {
    SeedAdressesAdmitted();
    InsertKeepsIntegrity(EmptyRows, {}, AdresseRows(SeedAdresses));
    SeedUsersAdmitted();
    InsertKeepsIntegrity(AfterAdresses, {}, UserRows(SeedUsers));
    SeedCliniquesAdmitted();
    InsertKeepsIntegrity(AfterUsers, {}, CliniqueRows(SeedCliniques));
    SeedPatientsAdmitted();
    InsertKeepsIntegrity(AfterCliniques, {}, PatientRows(SeedPatients));
  }

  /** A NAM of fourteen characters fits the nvarchar(14) column but fails the
      twelve-character StringLength rule. */
  lemma FourteenCharacterNamRejected(p: Patient, birthDateOk: bool)
    requires p.nam.Some? && |p.nam.value| == 14
    ensures StringLength in FieldErrors(p, NAM, birthDateOk)
    ensures !IsValid(p, birthDateOk)
  {
    assert NAM in Errors(p, birthDateOk);
  }

  /** The first seeded patient is accepted by the database but would be refused
      by the form: its NAM is written with spaces. */
  lemma SeedPatientFailsForm(birthDateOk: bool)
    ensures PatientColumnsFit(SeedPatients[1])
    ensures FieldErrors(SeedPatients[1], NAM, birthDateOk) == {StringLength, RegularExpression}
    ensures !IsValid(SeedPatients[1], birthDateOk)
  {
    var p := SeedPatients[1];
    NamExamples(p, birthDateOk);
    assert p.(nam := Some("EASC 2342 4332")) == p;
    FourteenCharacterNamRejected(p, birthDateOk);
  }

  /** The twelve seeded slots of waiting list 1 follow one another, each ending
      where the next begins, from 08:00 to 14:00 on 2024-01-30. */
  lemma SeedSlotsContiguous()
    ensures forall k :: 1 <= k < 12 ==> SeedPlages[k].heureFin == SeedPlages[k + 1].heureDebut
    ensures SeedPlages[1].heureDebut == DateTime(Date(2024, 1, 30), Time(8, 0))
    ensures SeedPlages[12].heureFin == DateTime(Date(2024, 1, 30), Time(14, 0))
  {
    forall k | 1 <= k < 12
      ensures SeedPlages[k].heureFin == SeedPlages[k + 1].heureDebut
    {
      assert k == 1 || k == 2 || k == 3 || k == 4 || k == 5 || k == 6 || k == 7 || k == 8 || k == 9 || k == 10 || k == 11;
    }
  }

  /** Every seeded slot lasts thirty minutes, the list's dureeConsultationMinutes,
      and belongs to waiting list 1. */
  lemma SeedSlotsLastThirtyMinutes()
    ensures forall k :: k in SeedPlages ==>
      && SeedPlages[k].listeAttenteId == 1
      && SeedPlages[k].heureDebut.date == SeedPlages[k].heureFin.date
      && MinuteOfDay(SeedPlages[k].heureFin.time) - MinuteOfDay(SeedPlages[k].heureDebut.time)
         == SeedListes[1].dureeConsultationMinutes.value
  {
  }

  /** The seed books two consultations on slot 1. */
  lemma SeedSlotOneBookedTwice()
    ensures 1 in SeedConsultations && 2 in SeedConsultations
    ensures SeedConsultations[1].plageHoraireId == Some(1) && SeedConsultations[2].plageHoraireId == Some(1)
  {
  }

  /** Deleting a clinic whose lists hold no time slot and that no patient or
      user depends on: when no consultation names a waiting list, nothing blocks it. */
  lemma UnbookedCliniqueDelete(r: Rows, k: int, ls: set<int>)
    requires forall l :: l in r.listes ==> (r.listes[l].cliniqueId == k <==> l in ls)
    requires forall s :: s in r.plages ==> r.plages[s].listeAttenteId !in ls
    requires forall c :: c in r.consultations ==> r.consultations[c].listeAttenteId.None?
    ensures var c := CascadeClosure(r, Target(CliniqueRow(k)));
      && c.cliniques == {k}
      && (forall l :: l in c.listes <==> l in r.listes && l in ls)
      && (forall s :: s !in c.plages)
      && !Blocked(r, c)
  {
    var c := CascadeClosure(r, Target(CliniqueRow(k)));
    assert forall l :: l !in c.patients;
  }

  /** Deleting clinic 2 from the seed removes exactly the clinic and its waiting
      lists 2 and 8, and nothing blocks it. */
  lemma SeedCliniqueTwoDelete()
    ensures var c := CascadeClosure(SeedRows, Target(CliniqueRow(2)));
      && c.cliniques == {2}
      && (forall l :: l in c.listes <==> l == 2 || l == 8)
      && (forall s :: s !in c.plages)
      && !Blocked(SeedRows, c)
  {
    SeedListesOfCliniqueTwo();
    SeedSlotsLastThirtyMinutes();
    SeedConsultationsNameNoList();
    UnbookedCliniqueDelete(SeedRows, 2, {2, 8});
  }

  /** Of the seeded waiting lists, 2 and 8 belong to clinic 2. */
  lemma SeedListesOfCliniqueTwo()
    ensures forall l :: l in SeedListes ==> (SeedListes[l].cliniqueId == 2 <==> l in {2, 8})
    ensures 2 in SeedListes && 8 in SeedListes
  {
  }

  /** No seeded consultation names a waiting list. */
  lemma SeedConsultationsNameNoList()
    ensures forall c :: c in SeedConsultations ==> SeedConsultations[c].listeAttenteId.None?
  {
  }

  /** Deleting clinic 1 from the seed is blocked: its list 1 holds slot 1, which
      consultation 1 books. */
  lemma SeedCliniqueOneDeleteBlocked()
    ensures Blocked(SeedRows, CascadeClosure(SeedRows, Target(CliniqueRow(1))))
  {
    BookedSlotBlocksCliniqueDelete(SeedRows, 1, 1, 1, 1);
  }

  /** Deleting seeded patient 1 is blocked by consultation 1. */
  lemma SeedPatientOneDeleteBlocked()
    ensures Blocked(SeedRows, CascadeClosure(SeedRows, Target(PatientRow(1))))
  {
    ReferencedPatientDeleteBlocked(SeedRows, 1, 1);
  }

  // ========================================================== up and down

  /** Down undoes Up: applying both to an empty database leaves it empty. */
  method UpThenDown(db: Database)
    requires db.Valid() && db.tables == {} && db.indexes == {}
    modifies db
    ensures db.Valid() && db.tables == old(db.tables) && db.indexes == old(db.indexes) && db.rows == old(db.rows)
  {
    db.Up();
    db.Down();
  }
}
