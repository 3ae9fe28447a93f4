/**
  The relational schema that the `init` migration
  (Clinique2000_DataAccess/Migrations/20240130021022_init.cs) creates, the rows
  it seeds, and the database operations the schema governs: creating and
  dropping tables and indexes, inserting rows and deleting rows with the
  declared ON DELETE rules.
*/
module InitMigration {
  import opened Common
  import opened Validation

  // =================================================================== schema

  datatype Table =
    | Adresses | AdressesQuebec | AspNetRoles | AspNetUsers | AspNetRoleClaims
    | AspNetUserClaims | AspNetUserLogins | AspNetUserRoles | AspNetUserTokens
    | Cliniques | Patients | ListeAttentes | PatientACharges | PlagesHoraires | Consultations

  const AllTables: set<Table> := {
    Adresses, AdressesQuebec, AspNetRoles, AspNetUsers, AspNetRoleClaims,
    AspNetUserClaims, AspNetUserLogins, AspNetUserRoles, AspNetUserTokens,
    Cliniques, Patients, ListeAttentes, PatientACharges, PlagesHoraires, Consultations}

  /** `onDelete`: Cascade where the migration declares it; otherwise EF's
      default, NO ACTION, which refuses to delete a referenced row. */
  datatype ReferentialAction = Cascade | NoAction

  datatype ForeignKey = ForeignKey(
    name: string, dependent: Table, column: string, principal: Table, onDelete: ReferentialAction)

  /** The foreign keys that the CreateTable call of table t declares. */
  function ForeignKeysOf(t: Table): seq<ForeignKey>
  {
    match t
    case AspNetRoleClaims => [
      ForeignKey("FK_AspNetRoleClaims_AspNetRoles_RoleId", t, "RoleId", AspNetRoles, Cascade)]
    case AspNetUserClaims => [
      ForeignKey("FK_AspNetUserClaims_AspNetUsers_UserId", t, "UserId", AspNetUsers, Cascade)]
    case AspNetUserLogins => [
      ForeignKey("FK_AspNetUserLogins_AspNetUsers_UserId", t, "UserId", AspNetUsers, Cascade)]
    case AspNetUserRoles => [
      ForeignKey("FK_AspNetUserRoles_AspNetRoles_RoleId", t, "RoleId", AspNetRoles, Cascade),
      ForeignKey("FK_AspNetUserRoles_AspNetUsers_UserId", t, "UserId", AspNetUsers, Cascade)]
    case AspNetUserTokens => [
      ForeignKey("FK_AspNetUserTokens_AspNetUsers_UserId", t, "UserId", AspNetUsers, Cascade)]
    case Cliniques => [
      ForeignKey("FK_Cliniques_Adresses_AdresseID", t, "AdresseID", Adresses, Cascade),
      ForeignKey("FK_Cliniques_AspNetUsers_CreateurID", t, "CreateurID", AspNetUsers, Cascade)]
    case Patients => [
      ForeignKey("FK_Patients_AspNetUsers_UserId", t, "UserId", AspNetUsers, Cascade)]
    case ListeAttentes => [
      ForeignKey("FK_ListeAttentes_Cliniques_CliniqueID", t, "CliniqueID", Cliniques, Cascade)]
    case PatientACharges => [
      ForeignKey("FK_PatientACharges_Patients_PatientId", t, "PatientId", Patients, Cascade)]
    case PlagesHoraires => [
      ForeignKey("FK_PlagesHoraires_ListeAttentes_ListeAttenteID", t, "ListeAttenteID", ListeAttentes, Cascade)]
    case Consultations => [
      ForeignKey("FK_Consultations_ListeAttentes_ListeAttenteID", t, "ListeAttenteID", ListeAttentes, NoAction),
      ForeignKey("FK_Consultations_Patients_PatientID", t, "PatientID", Patients, NoAction),
      ForeignKey("FK_Consultations_PlagesHoraires_PlageHoraireID", t, "PlageHoraireID", PlagesHoraires, NoAction)]
    case _ => []
  }

  /** The tables that t references (see PrincipalsAreForeignKeyTargets). */
  function Principals(t: Table): set<Table>
  {
    match t
    case AspNetRoleClaims => {AspNetRoles}
    case AspNetUserClaims | AspNetUserLogins | AspNetUserTokens | Patients => {AspNetUsers}
    case AspNetUserRoles => {AspNetRoles, AspNetUsers}
    case Cliniques => {Adresses, AspNetUsers}
    case ListeAttentes => {Cliniques}
    case PatientACharges => {Patients}
    case PlagesHoraires => {ListeAttentes}
    case Consultations => {ListeAttentes, Patients, PlagesHoraires}
    case _ => {}
  }

  datatype Index = Index(name: string, table: Table, column: string, unique: bool, filter: Option<string>)

  const IxCliniquesAdresse := Index("IX_Cliniques_AdresseID", Cliniques, "AdresseID", true, None)
  const IxPatientsUser := Index("IX_Patients_UserId", Patients, "UserId", true, None)

  /** The CreateIndex calls of Up, in order. */
  const Indexes: seq<Index> := [
    Index("IX_AspNetRoleClaims_RoleId", AspNetRoleClaims, "RoleId", false, None),
    Index("RoleNameIndex", AspNetRoles, "NormalizedName", true, Some("[NormalizedName] IS NOT NULL")),
    Index("IX_AspNetUserClaims_UserId", AspNetUserClaims, "UserId", false, None),
    Index("IX_AspNetUserLogins_UserId", AspNetUserLogins, "UserId", false, None),
    Index("IX_AspNetUserRoles_RoleId", AspNetUserRoles, "RoleId", false, None),
    Index("EmailIndex", AspNetUsers, "NormalizedEmail", false, None),
    Index("UserNameIndex", AspNetUsers, "NormalizedUserName", true, Some("[NormalizedUserName] IS NOT NULL")),
    IxCliniquesAdresse,
    Index("IX_Cliniques_CreateurID", Cliniques, "CreateurID", false, None),
    Index("IX_Consultations_ListeAttenteID", Consultations, "ListeAttenteID", false, None),
    Index("IX_Consultations_PatientID", Consultations, "PatientID", false, None),
    Index("IX_Consultations_PlageHoraireID", Consultations, "PlageHoraireID", false, None),
    Index("IX_ListeAttentes_CliniqueID", ListeAttentes, "CliniqueID", false, None),
    Index("IX_PatientACharges_PatientId", PatientACharges, "PatientId", false, None),
    IxPatientsUser,
    Index("IX_PlagesHoraires_ListeAttenteID", PlagesHoraires, "ListeAttenteID", false, None)]

  // ===================================================================== rows

  /** AspNetUsers.Id, nvarchar(450). */
  type UserId = string

  datatype Adresse = Adresse(numero: string, rue: string, ville: string, province: string, pays: string, codePostal: string)

  datatype Clinique = Clinique(
    nomClinique: string, courriel: string, heureOuverture: Time, heureFermeture: Time,
    tempsMoyenConsultation: int, numTelephone: Option<string>, estActive: bool,
    adresseId: int, createurId: UserId)

  datatype ListeAttente = ListeAttente(
    isOuverte: bool, dateEffectivite: Date, heureOuverture: Time, heureFermeture: Time,
    nbMedecinsDispo: int, dureeConsultationMinutes: Option<int>, cliniqueId: int)

  datatype PatientACharge = PatientACharge(
    nom: string, prenom: string, nam: string, dateDeNaissance: Date, age: int, patientId: int)

  datatype PlageHoraire = PlageHoraire(heureDebut: DateTime, heureFin: DateTime, listeAttenteId: int)

  datatype Consultation = Consultation(
    heureDateDebutPrevue: DateTime, heureDateFinPrevue: DateTime,
    heureDateDebutReele: Option<DateTime>, heureDateFinReele: Option<DateTime>,
    statutConsultation: int,
    plageHoraireId: Option<int>, patientId: Option<int>, listeAttenteId: Option<int>)

  /** The rows of the tables, each keyed by its primary key. Of the identity
      tables only the keys of AspNetUsers are kept. */
  datatype Rows = Rows(
    adresses: map<int, Adresse>,
    users: set<UserId>,
    cliniques: map<int, Clinique>,
    patients: map<int, Patient>,
    listes: map<int, ListeAttente>,
    dependants: map<int, PatientACharge>,
    plages: map<int, PlageHoraire>,
    consultations: map<int, Consultation>)

  const EmptyRows := Rows(map[], {}, map[], map[], map[], map[], map[], map[])

  /** Rows exist only in tables that exist. */
  predicate RowsInTables(r: Rows, tables: set<Table>)
  {
    && (Adresses !in tables ==> r.adresses == map[])
    && (AspNetUsers !in tables ==> r.users == {})
    && (Cliniques !in tables ==> r.cliniques == map[])
    && (Patients !in tables ==> r.patients == map[])
    && (ListeAttentes !in tables ==> r.listes == map[])
    && (PatientACharges !in tables ==> r.dependants == map[])
    && (PlagesHoraires !in tables ==> r.plages == map[])
    && (Consultations !in tables ==> r.consultations == map[])
  }

  // ---------------------------------------------- NOT NULL and column widths

  predicate Fits(s: string, width: nat)
  {
    |s| <= width
  }

  predicate AdresseFits(a: Adresse)
  {
    Fits(a.numero, 10) && Fits(a.rue, 25) && Fits(a.ville, 25) && Fits(a.province, 25)
    && Fits(a.pays, 25) && Fits(a.codePostal, 7)
  }

  predicate CliniqueFits(c: Clinique)
  {
    Fits(c.nomClinique, 50) && Fits(c.courriel, 50) && Fits(c.createurId, 450)
  }

  /** The Patients columns: every column but Genre is NOT NULL;
      Nom and Prenom are nvarchar(50), NAM nvarchar(14), CodePostal nvarchar(7). */
  predicate PatientColumnsFit(p: Patient)
  {
    && p.nom.Some? && Fits(p.nom.value, 50)
    && p.prenom.Some? && Fits(p.prenom.value, 50)
    && p.nam.Some? && Fits(p.nam.value, 14)
    && p.codePostal.Some? && Fits(p.codePostal.value, 7)
    && p.dateDeNaissance.Some? && p.age.Some?
    && p.userId.Some? && Fits(p.userId.value, 450)
  }

  predicate DependantFits(d: PatientACharge)
  {
    Fits(d.nom, 25) && Fits(d.prenom, 25) && Fits(d.nam, 12)
  }

  predicate AdressesFit(m: map<int, Adresse>)
  {
    forall k :: k in m ==> AdresseFits(m[k])
  }

  predicate UserIdsFit(s: set<UserId>)
  {
    forall u :: u in s ==> Fits(u, 450)
  }

  predicate CliniquesFit(m: map<int, Clinique>)
  {
    forall k :: k in m ==> CliniqueFits(m[k])
  }

  /** Besides the column rules, the row of key k carries PatientId k. */
  predicate PatientsFit(m: map<int, Patient>)
  {
    forall k :: k in m ==> PatientColumnsFit(m[k]) && m[k].patientId == k
  }

  predicate DependantsFit(m: map<int, PatientACharge>)
  {
    forall k :: k in m ==> DependantFits(m[k])
  }

  predicate ColumnsFit(r: Rows)
  {
    && AdressesFit(r.adresses)
    && UserIdsFit(r.users)
    && CliniquesFit(r.cliniques)
    && PatientsFit(r.patients)
    && DependantsFit(r.dependants)
  }

  // ------------------------------------------------------------ foreign keys

  /** The nullable foreign keys of a consultation, each null or naming an existing row. */
  predicate ConsultationRefsExist(r: Rows, c: Consultation)
  {
    && (c.listeAttenteId.Some? ==> c.listeAttenteId.value in r.listes)
    && (c.patientId.Some? ==> c.patientId.value in r.patients)
    && (c.plageHoraireId.Some? ==> c.plageHoraireId.value in r.plages)
  }

  predicate CliniqueRefsHold(cliniques: map<int, Clinique>, adresses: map<int, Adresse>, users: set<UserId>)
  {
    forall k :: k in cliniques ==> cliniques[k].adresseId in adresses && cliniques[k].createurId in users
  }

  predicate PatientRefsHold(patients: map<int, Patient>, users: set<UserId>)
  {
    forall k :: k in patients ==> patients[k].userId.Some? && patients[k].userId.value in users
  }

  predicate ListeRefsHold(listes: map<int, ListeAttente>, cliniques: map<int, Clinique>)
  {
    forall k :: k in listes ==> listes[k].cliniqueId in cliniques
  }

  predicate DependantRefsHold(dependants: map<int, PatientACharge>, patients: map<int, Patient>)
  {
    forall k :: k in dependants ==> dependants[k].patientId in patients
  }

  predicate PlageRefsHold(plages: map<int, PlageHoraire>, listes: map<int, ListeAttente>)
  {
    forall k :: k in plages ==> plages[k].listeAttenteId in listes
  }

  predicate ConsultationRefsHold(
    consultations: map<int, Consultation>, listes: map<int, ListeAttente>,
    patients: map<int, Patient>, plages: map<int, PlageHoraire>)
  {
    forall k :: k in consultations ==>
      && (consultations[k].listeAttenteId.Some? ==> consultations[k].listeAttenteId.value in listes)
      && (consultations[k].patientId.Some? ==> consultations[k].patientId.value in patients)
      && (consultations[k].plageHoraireId.Some? ==> consultations[k].plageHoraireId.value in plages)
  }

  /** Every foreign-key value names an existing row (nullable ones may be null). */
  predicate ForeignKeysHold(r: Rows)
  {
    && CliniqueRefsHold(r.cliniques, r.adresses, r.users)
    && PatientRefsHold(r.patients, r.users)
    && ListeRefsHold(r.listes, r.cliniques)
    && DependantRefsHold(r.dependants, r.patients)
    && PlageRefsHold(r.plages, r.listes)
    && ConsultationRefsHold(r.consultations, r.listes, r.patients, r.plages)
  }

  // --------------------------------------------------------- unique indexes

  /** IX_Cliniques_AdresseID: at most one clinic per address. */
  predicate OneCliniquePerAdresse(m: map<int, Clinique>)
  {
    forall k1, k2 :: k1 in m && k2 in m && m[k1].adresseId == m[k2].adresseId ==> k1 == k2
  }

  /** IX_Patients_UserId: at most one patient per user. */
  predicate OnePatientPerUser(m: map<int, Patient>)
  {
    forall k1, k2 :: k1 in m && k2 in m && m[k1].userId.Some? && m[k1].userId == m[k2].userId ==> k1 == k2
  }

  /** The unique indexes on modelled columns hold once they have been created.
      The other two unique indexes, RoleNameIndex and UserNameIndex, are on
      AspNetRoles.NormalizedName and AspNetUsers.NormalizedUserName, which the
      model does not hold. */
  predicate UniqueIndexesHold(r: Rows, indexes: set<Index>)
  {
    && (IxCliniquesAdresse in indexes ==> OneCliniquePerAdresse(r.cliniques))
    && (IxPatientsUser in indexes ==> OnePatientPerUser(r.patients))
  }

  // ================================================================== insert

  /** The rows of one InsertData call (or of one INSERT statement). */
  datatype Batch =
    | AdresseRows(newAdresses: map<int, Adresse>)
    | UserRows(newUsers: set<UserId>)
    | CliniqueRows(newCliniques: map<int, Clinique>)
    | PatientRows(newPatients: map<int, Patient>)
    | ListeRows(newListes: map<int, ListeAttente>)
    | DependantRows(newDependants: map<int, PatientACharge>)
    | PlageRows(newPlages: map<int, PlageHoraire>)
    | ConsultationRows(newConsultations: map<int, Consultation>)

  function BatchTable(b: Batch): Table
  {
    match b
    case AdresseRows(_) => Adresses
    case UserRows(_) => AspNetUsers
    case CliniqueRows(_) => Cliniques
    case PatientRows(_) => Patients
    case ListeRows(_) => ListeAttentes
    case DependantRows(_) => PatientACharges
    case PlageRows(_) => PlagesHoraires
    case ConsultationRows(_) => Consultations
  }

  /** Whether the database accepts batch b: fresh primary keys, NOT NULL columns
      filled and within their widths, every foreign key naming an existing row,
      and the unique indexes that exist still unique afterwards. */
  predicate Admissible(r: Rows, indexes: set<Index>, b: Batch)
  {
    match b
    case AdresseRows(m) =>
      m.Keys !! r.adresses.Keys && forall k :: k in m ==> AdresseFits(m[k])
    case UserRows(s) =>
      s !! r.users && forall u :: u in s ==> Fits(u, 450)
    case CliniqueRows(m) =>
      && m.Keys !! r.cliniques.Keys
      && (forall k :: k in m ==>
            CliniqueFits(m[k]) && m[k].adresseId in r.adresses && m[k].createurId in r.users)
      && (IxCliniquesAdresse in indexes ==> OneCliniquePerAdresse(r.cliniques + m))
    case PatientRows(m) =>
      && m.Keys !! r.patients.Keys
      && (forall k :: k in m ==>
            PatientColumnsFit(m[k]) && m[k].patientId == k && m[k].userId.value in r.users)
      && (IxPatientsUser in indexes ==> OnePatientPerUser(r.patients + m))
    case ListeRows(m) =>
      m.Keys !! r.listes.Keys && forall k :: k in m ==> m[k].cliniqueId in r.cliniques
    case DependantRows(m) =>
      m.Keys !! r.dependants.Keys
      && forall k :: k in m ==> DependantFits(m[k]) && m[k].patientId in r.patients
    case PlageRows(m) =>
      m.Keys !! r.plages.Keys && forall k :: k in m ==> m[k].listeAttenteId in r.listes
    case ConsultationRows(m) =>
      m.Keys !! r.consultations.Keys && forall k :: k in m ==> ConsultationRefsExist(r, m[k])
  }

  /** The rows after inserting batch b: its table gains the batch, every other table is unchanged. */
  function Extend(r: Rows, b: Batch): (r': Rows)
    ensures BatchTable(b) != Adresses ==> r'.adresses == r.adresses
    ensures BatchTable(b) != AspNetUsers ==> r'.users == r.users
    ensures BatchTable(b) != Cliniques ==> r'.cliniques == r.cliniques
    ensures BatchTable(b) != Patients ==> r'.patients == r.patients
    ensures BatchTable(b) != ListeAttentes ==> r'.listes == r.listes
    ensures BatchTable(b) != PatientACharges ==> r'.dependants == r.dependants
    ensures BatchTable(b) != PlagesHoraires ==> r'.plages == r.plages
    ensures BatchTable(b) != Consultations ==> r'.consultations == r.consultations
  {
    match b
    case AdresseRows(m) => r.(adresses := r.adresses + m)
    case UserRows(s) => r.(users := r.users + s)
    case CliniqueRows(m) => r.(cliniques := r.cliniques + m)
    case PatientRows(m) => r.(patients := r.patients + m)
    case ListeRows(m) => r.(listes := r.listes + m)
    case DependantRows(m) => r.(dependants := r.dependants + m)
    case PlageRows(m) => r.(plages := r.plages + m)
    case ConsultationRows(m) => r.(consultations := r.consultations + m)
  }

  // ================================================================== delete

  /** The row a DELETE statement names, by table and primary key. */
  datatype RowRef =
    | AdresseRow(adresseId: int)
    | UserRow(userId: UserId)
    | CliniqueRow(cliniqueId: int)
    | PatientRow(patientId: int)
    | ListeRow(listeAttenteId: int)
    | DependantRow(patientAChargeId: int)
    | PlageRow(plageHoraireId: int)
    | ConsultationRow(consultationId: int)

  function RowTable(x: RowRef): Table
  {
    match x
    case AdresseRow(_) => Adresses
    case UserRow(_) => AspNetUsers
    case CliniqueRow(_) => Cliniques
    case PatientRow(_) => Patients
    case ListeRow(_) => ListeAttentes
    case DependantRow(_) => PatientACharges
    case PlageRow(_) => PlagesHoraires
    case ConsultationRow(_) => Consultations
  }

  /** A set of primary keys per table: the rows one delete removes. */
  datatype Removal = Removal(
    adresses: set<int>, users: set<UserId>, cliniques: set<int>, patients: set<int>,
    listes: set<int>, dependants: set<int>, plages: set<int>, consultations: set<int>)

  function Target(x: RowRef): Removal
  {
    var none := Removal({}, {}, {}, {}, {}, {}, {}, {});
    match x
    case AdresseRow(k) => none.(adresses := {k})
    case UserRow(u) => none.(users := {u})
    case CliniqueRow(k) => none.(cliniques := {k})
    case PatientRow(k) => none.(patients := {k})
    case ListeRow(k) => none.(listes := {k})
    case DependantRow(k) => none.(dependants := {k})
    case PlageRow(k) => none.(plages := {k})
    case ConsultationRow(k) => none.(consultations := {k})
  }

  /** The rows that ON DELETE CASCADE removes along with root: exactly the rows
      of root and the rows that reference a removed row through a Cascade foreign
      key. The cascade edges form a chain Adresses/AspNetUsers -> Cliniques ->
      ListeAttentes -> PlagesHoraires and AspNetUsers -> Patients ->
      PatientACharges, so one pass in that order reaches them all. Nothing
      cascades into Consultations. */
  function CascadeClosure(r: Rows, root: Removal): (c: Removal)
    ensures c.adresses == root.adresses && c.users == root.users && c.consultations == root.consultations
    ensures forall k :: k in c.cliniques <==>
      (k in root.cliniques
       || (k in r.cliniques && (r.cliniques[k].adresseId in c.adresses || r.cliniques[k].createurId in c.users)))
    ensures forall k :: k in c.patients <==>
      (k in root.patients
       || (k in r.patients && r.patients[k].userId.Some? && r.patients[k].userId.value in c.users))
    ensures forall k :: k in c.listes <==>
      (k in root.listes || (k in r.listes && r.listes[k].cliniqueId in c.cliniques))
    ensures forall k :: k in c.dependants <==>
      (k in root.dependants || (k in r.dependants && r.dependants[k].patientId in c.patients))
    ensures forall k :: k in c.plages <==>
      (k in root.plages || (k in r.plages && r.plages[k].listeAttenteId in c.listes))
  {
    var cliniques := root.cliniques + set k | k in r.cliniques
      && (r.cliniques[k].adresseId in root.adresses || r.cliniques[k].createurId in root.users);
    var patients := root.patients + set k | k in r.patients
      && r.patients[k].userId.Some? && r.patients[k].userId.value in root.users;
    var listes := root.listes + set k | k in r.listes && r.listes[k].cliniqueId in cliniques;
    var dependants := root.dependants + set k | k in r.dependants && r.dependants[k].patientId in patients;
    var plages := root.plages + set k | k in r.plages && r.plages[k].listeAttenteId in listes;
    Removal(root.adresses, root.users, cliniques, patients, listes, dependants, plages, root.consultations)
  }

  /** Consultation c, which survives, references a row that c would remove. */
  predicate RefersToRemoved(c: Consultation, gone: Removal)
  {
    || (c.listeAttenteId.Some? && c.listeAttenteId.value in gone.listes)
    || (c.patientId.Some? && c.patientId.value in gone.patients)
    || (c.plageHoraireId.Some? && c.plageHoraireId.value in gone.plages)
  }

  /** A NO ACTION foreign key refuses the delete: a surviving consultation
      references a removed waiting list, patient or time slot. */
  predicate Blocked(r: Rows, gone: Removal)
  {
    exists k :: k in r.consultations && k !in gone.consultations && RefersToRemoved(r.consultations[k], gone)
  }

  function Remove(r: Rows, gone: Removal): Rows
  {
    Rows(r.adresses - gone.adresses, r.users - gone.users, r.cliniques - gone.cliniques,
         r.patients - gone.patients, r.listes - gone.listes, r.dependants - gone.dependants,
         r.plages - gone.plages, r.consultations - gone.consultations)
  }

  /** The rows left when table t is dropped. */
  function WithoutTable(r: Rows, t: Table): Rows
  {
    Rows(if t == Adresses then map[] else r.adresses,
         if t == AspNetUsers then {} else r.users,
         if t == Cliniques then map[] else r.cliniques,
         if t == Patients then map[] else r.patients,
         if t == ListeAttentes then map[] else r.listes,
         if t == PatientACharges then map[] else r.dependants,
         if t == PlagesHoraires then map[] else r.plages,
         if t == Consultations then map[] else r.consultations)
  }

  /** The indexes left when table t is dropped. */
  function IndexesWithout(indexes: set<Index>, t: Table): (left: set<Index>)
    ensures forall ix :: ix in left <==> ix in indexes && ix.table != t
  {
    set ix | ix in indexes && ix.table != t
  }

  // ================================================================ database

  class Database {
    var tables: set<Table>
    var indexes: set<Index>
    var rows: Rows

    /** Schema integrity (every table's referenced tables exist; indexes sit on
        existing tables) and row integrity (rows only in existing tables, column
        rules, foreign keys, created unique indexes). */
    ghost predicate Valid()
      reads this
    {
      && (forall t :: t in tables ==> Principals(t) <= tables)
      && (forall ix :: ix in indexes ==> ix.table in tables)
      && RowsInTables(rows, tables)
      && ColumnsFit(rows)
      && ForeignKeysHold(rows)
      && UniqueIndexesHold(rows, indexes)
    }

    /** A database to which no migration has been applied. */
    constructor ()
      ensures Valid() && tables == {} && indexes == {} && rows == EmptyRows
    {
      tables, indexes, rows := {}, {}, EmptyRows;
    }

    /** CreateTable: SQL Server refuses a foreign key to a table that does not exist yet. */
    method CreateTable(t: Table)
      requires Valid() && t !in tables && Principals(t) <= tables
      modifies this
      ensures Valid()
      ensures tables == old(tables) + {t} && indexes == old(indexes) && rows == old(rows)
    {
      tables := tables + {t};
    }

    /** DropTable: SQL Server refuses to drop a table that a foreign key of another table references. */
    method DropTable(t: Table)
      requires Valid() && t in tables
      requires forall d :: d in tables && d != t ==> t !in Principals(d)
      modifies this
      ensures Valid()
      ensures tables == old(tables) - {t}
      ensures indexes == IndexesWithout(old(indexes), t)
      ensures rows == WithoutTable(old(rows), t)
    {
      DropKeepsSchema(tables, t);
      UnreferencedTableHasNoReferencingRows(tables, rows, t);
      DropKeepsIntegrity(tables, indexes, rows, t);
      tables, indexes, rows := tables - {t}, IndexesWithout(indexes, t), WithoutTable(rows, t);
    }

    /** CreateIndex: creating a unique index fails when existing rows hold a duplicate key. */
    method CreateIndex(ix: Index)
      requires Valid() && ix.table in tables && ix !in indexes
      requires ix == IxCliniquesAdresse ==> OneCliniquePerAdresse(rows.cliniques)
      requires ix == IxPatientsUser ==> OnePatientPerUser(rows.patients)
      modifies this
      ensures Valid()
      ensures indexes == old(indexes) + {ix} && tables == old(tables) && rows == old(rows)
    {
      indexes := indexes + {ix};
    }

    /** InsertData / INSERT: all rows of the batch, or none when the database refuses it. */
    method Insert(b: Batch) returns (ok: bool)
      requires Valid()
      modifies this
      ensures Valid() && tables == old(tables) && indexes == old(indexes)
      ensures ok == (BatchTable(b) in old(tables) && Admissible(old(rows), old(indexes), b))
      ensures rows == if ok then Extend(old(rows), b) else old(rows)
    {
      ok := BatchTable(b) in tables && Admissible(rows, indexes, b);
      if ok {
        InsertKeepsIntegrity(rows, indexes, b);
        rows := Extend(rows, b);
      }
    }

    /** DELETE of one row: the cascade removes the dependent rows, dependants
        first, unless a NO ACTION foreign key still references one of them. */
    method Delete(x: RowRef) returns (ok: bool)
      requires Valid()
      modifies this
      ensures Valid() && tables == old(tables) && indexes == old(indexes)
      ensures ok == (RowTable(x) in old(tables) && !Blocked(old(rows), CascadeClosure(old(rows), Target(x))))
      ensures rows == if ok then Remove(old(rows), CascadeClosure(old(rows), Target(x))) else old(rows)
    {
      var gone := CascadeClosure(rows, Target(x));
      if RowTable(x) !in tables || Blocked(rows, gone) {
        return false;
      }
      DeleteKeepsIntegrity(tables, indexes, rows, Target(x));
      rows := rows.(consultations := rows.consultations - gone.consultations);
      rows := rows.(plages := rows.plages - gone.plages);
      rows := rows.(dependants := rows.dependants - gone.dependants);
      rows := rows.(listes := rows.listes - gone.listes);
      rows := rows.(patients := rows.patients - gone.patients);
      rows := rows.(cliniques := rows.cliniques - gone.cliniques);
      rows := rows.(users := rows.users - gone.users);
      rows := rows.(adresses := rows.adresses - gone.adresses);
      assert rows == Remove(old(rows), gone);
      ok := true;
    }

    /** Up: the fifteen tables in the order the migration creates them (each after
        the tables it references), the seed rows, then the sixteen indexes. */
    method Up()
      requires Valid() && tables == {} && indexes == {}
      modifies this
      ensures Valid()
      ensures tables == AllTables
      ensures forall ix :: ix in indexes <==> ix in Indexes
      ensures rows == SeedRows
    {
      CreateTables();
      InsertSeed();
      SeedUnique();
      assert rows.cliniques == SeedCliniques && rows.patients == SeedPatients;
      CreateIndexes();
    }

    /** The CreateTable calls of Up, in order. */
    method CreateTables()
      requires Valid() && tables == {} && indexes == {}
      modifies this
      ensures Valid() && tables == AllTables && indexes == {} && rows == old(rows)
    {
      var i := 0;
      while i < |CreationOrder|
        invariant 0 <= i <= |CreationOrder|
        invariant Valid() && indexes == {} && rows == old(rows)
        invariant forall t :: t in tables <==> CreationRank(t) < i
      {
        var t := CreationOrder[i];
        CreationOrderRanks(i);
        forall p | p in Principals(t)
          ensures p in tables
        {
          CreationOrderIsTopological(t, p);
        }
        CreateTable(t);
        i := i + 1;
      }
    }

    /** The InsertData calls of Up, in order; each batch is admitted. */
    method InsertSeed()
      requires Valid() && tables == AllTables && indexes == {} && rows == EmptyRows
      modifies this
      ensures Valid() && tables == AllTables && indexes == {} && rows == SeedRows
    {
      InsertSeedAccounts();
      InsertSeedSchedule();
    }

    /** The Adresses, AspNetUsers, Cliniques and Patients rows. */
    method InsertSeedAccounts()
      requires Valid() && tables == AllTables && indexes == {} && rows == EmptyRows
      modifies this
      ensures Valid() && tables == AllTables && indexes == {} && rows == AfterPatients
    {
      var ok;
      SeedAdressesAdmitted();
      ok := Insert(AdresseRows(SeedAdresses));
      SeedUsersAdmitted();
      ok := Insert(UserRows(SeedUsers));
      SeedCliniquesAdmitted();
      ok := Insert(CliniqueRows(SeedCliniques));
      SeedPatientsAdmitted();
      ok := Insert(PatientRows(SeedPatients));
    }

    /** The ListeAttentes, PlagesHoraires and Consultations rows. */
    method InsertSeedSchedule()
      requires Valid() && tables == AllTables && indexes == {} && rows == AfterPatients
      modifies this
      ensures Valid() && tables == AllTables && indexes == {} && rows == SeedRows
    {
      var ok;
      SeedListesAdmitted();
      ok := Insert(ListeRows(SeedListes));
      SeedPlagesAdmitted();
      ok := Insert(PlageRows(SeedPlages));
      SeedConsultationsAdmitted();
      ok := Insert(ConsultationRows(SeedConsultations));
    }

    /** The CreateIndex calls of Up, in order. */
    method CreateIndexes()
      requires Valid() && tables == AllTables && indexes == {}
      requires OneCliniquePerAdresse(rows.cliniques) && OnePatientPerUser(rows.patients)
      modifies this
      ensures Valid() && tables == AllTables && rows == old(rows)
      ensures forall ix :: ix in indexes <==> ix in Indexes
    {
      var i := 0;
      while i < |Indexes|
        invariant 0 <= i <= |Indexes|
        invariant Valid() && tables == AllTables && rows == old(rows)
        invariant forall ix :: ix in indexes <==> ix in Indexes[..i]
      {
        CreateIndexStep(indexes, i);
        CreateIndex(Indexes[i]);
        i := i + 1;
      }
      assert Indexes[..i] == Indexes;
    }

    /** Down: drops every table, each after the tables that reference it. */
    method Down()
      requires Valid() && tables == AllTables
      modifies this
      ensures Valid() && tables == {} && indexes == {} && rows == EmptyRows
    {
      var i := 0;
      while i < |DropOrder|
        invariant 0 <= i <= |DropOrder|
        invariant Valid()
        invariant forall t :: t in tables <==> DropRank(t) >= i
      {
        var t := DropOrder[i];
        DropStepAllowed(tables, i);
        DropTable(t);
        i := i + 1;
      }
      NoTableLeft(tables, indexes, rows);
    }
  }

  /** The tables in the order Up creates them. */
  const CreationOrder: seq<Table> := [
    Adresses, AdressesQuebec, AspNetRoles, AspNetUsers, AspNetRoleClaims, AspNetUserClaims,
    AspNetUserLogins, AspNetUserRoles, AspNetUserTokens, Cliniques, Patients, ListeAttentes,
    PatientACharges, PlagesHoraires, Consultations]

  /** The position of t in CreationOrder. */
  function CreationRank(t: Table): nat
  {
    match t
    case Adresses => 0 case AdressesQuebec => 1 case AspNetRoles => 2 case AspNetUsers => 3
    case AspNetRoleClaims => 4 case AspNetUserClaims => 5 case AspNetUserLogins => 6
    case AspNetUserRoles => 7 case AspNetUserTokens => 8 case Cliniques => 9 case Patients => 10
    case ListeAttentes => 11 case PatientACharges => 12 case PlagesHoraires => 13 case Consultations => 14
  }

  /** The tables in the order Down drops them. */
  const DropOrder: seq<Table> := [
    AdressesQuebec, AspNetRoleClaims, AspNetUserClaims, AspNetUserLogins, AspNetUserRoles,
    AspNetUserTokens, Consultations, PatientACharges, AspNetRoles, PlagesHoraires, Patients,
    ListeAttentes, Cliniques, Adresses, AspNetUsers]

  /** The position of t in DropOrder. */
  function DropRank(t: Table): nat
  {
    match t
    case AdressesQuebec => 0 case AspNetRoleClaims => 1 case AspNetUserClaims => 2
    case AspNetUserLogins => 3 case AspNetUserRoles => 4 case AspNetUserTokens => 5
    case Consultations => 6 case PatientACharges => 7 case AspNetRoles => 8 case PlagesHoraires => 9
    case Patients => 10 case ListeAttentes => 11 case Cliniques => 12 case Adresses => 13 case AspNetUsers => 14
  }

  /** CreationRank numbers CreationOrder: the i-th table created has rank i. */
  lemma CreationOrderRanks(i: nat)
    requires i < |CreationOrder|
    ensures CreationRank(CreationOrder[i]) == i
    ensures forall t :: CreationRank(t) == i ==> t == CreationOrder[i]
  {
    assert i == 0 || i == 1 || i == 2 || i == 3 || i == 4 || i == 5 || i == 6 || i == 7 || i == 8 || i == 9 || i == 10 || i == 11 || i == 12 || i == 13 || i == 14;
  }

  /** DropRank numbers DropOrder: the i-th table dropped has rank i. */
  lemma DropOrderRanks(i: nat)
    requires i < |DropOrder|
    ensures DropRank(DropOrder[i]) == i
    ensures forall t :: DropRank(t) == i ==> t == DropOrder[i]
  {
    assert i == 0 || i == 1 || i == 2 || i == 3 || i == 4 || i == 5 || i == 6 || i == 7 || i == 8 || i == 9 || i == 10 || i == 11 || i == 12 || i == 13 || i == 14;
  }

  /** Up creates every table after the tables it references. */
  lemma CreationOrderIsTopological(t: Table, p: Table)
    requires p in Principals(t)
    ensures CreationRank(p) < CreationRank(t)
  {
  }

  /** Down drops every table before the tables it references. */
  lemma DropOrderIsReverseTopological(t: Table, p: Table)
    requires p in Principals(t)
    ensures DropRank(t) < DropRank(p)
  {
  }

  // ================================================================= lemmas

  /** Once DropOrder is exhausted no table is left, hence no index and no row. */
  lemma NoTableLeft(tables: set<Table>, indexes: set<Index>, r: Rows)
    requires forall t :: t in tables <==> DropRank(t) >= |DropOrder|
    requires forall ix :: ix in indexes ==> ix.table in tables
    requires RowsInTables(r, tables)
    ensures tables == {} && indexes == {} && r == EmptyRows
  {
    assert forall t :: t !in tables;
    assert forall ix :: ix !in indexes;
  }

  /** Step i of Down drops a table that exists and that no other remaining table references. */
  lemma DropStepAllowed(tables: set<Table>, i: nat)
    requires i < |DropOrder|
    requires forall t :: t in tables <==> DropRank(t) >= i
    ensures DropOrder[i] in tables
    ensures forall d :: d in tables && d != DropOrder[i] ==> DropOrder[i] !in Principals(d)
    ensures forall t :: t in tables - {DropOrder[i]} <==> DropRank(t) >= i + 1
  {
    DropOrderRanks(i);
    forall d | d in tables && d != DropOrder[i]
      ensures DropOrder[i] !in Principals(d)
    {
      if DropOrder[i] in Principals(d) {
        DropOrderIsReverseTopological(d, DropOrder[i]);
      }
    }
  }

  /** Principals lists exactly the tables that the table's foreign keys point to. */
  lemma PrincipalsAreForeignKeyTargets(t: Table)
    ensures Principals(t) == set fk | fk in ForeignKeysOf(t) :: fk.principal
  {
    var fks := ForeignKeysOf(t);
    match t
    case Consultations => KeyTargets3(fks);
    case AspNetUserRoles | Cliniques => KeyTargets2(fks);
    case AspNetRoleClaims | AspNetUserClaims | AspNetUserLogins | AspNetUserTokens
      | Patients | ListeAttentes | PatientACharges | PlagesHoraires =>
      KeyTargets1(fks);
    case Adresses | AdressesQuebec | AspNetRoles | AspNetUsers =>
  }

  lemma KeyTargets1(fks: seq<ForeignKey>)
    requires |fks| == 1
    ensures (set fk | fk in fks :: fk.principal) == {fks[0].principal}
  {
    assert fks == [fks[0]];
  }

  lemma KeyTargets2(fks: seq<ForeignKey>)
    requires |fks| == 2
    ensures (set fk | fk in fks :: fk.principal) == {fks[0].principal, fks[1].principal}
  {
    assert fks == [fks[0], fks[1]];
  }

  lemma KeyTargets3(fks: seq<ForeignKey>)
    requires |fks| == 3
    ensures (set fk | fk in fks :: fk.principal) == {fks[0].principal, fks[1].principal, fks[2].principal}
  {
    assert fks == [fks[0], fks[1], fks[2]];
  }

  /** Dropping a table that no other existing table references keeps the schema
      closed under references. */
  lemma DropKeepsSchema(tables: set<Table>, t: Table)
    requires forall d :: d in tables ==> Principals(d) <= tables
    requires forall d :: d in tables && d != t ==> t !in Principals(d)
    ensures forall d :: d in tables - {t} ==> Principals(d) <= tables - {t}
  {
  }

  /** The rows that reference rows of table t, one table further down each foreign key. */
  predicate NoReferencingRows(r: Rows, t: Table)
  {
    && (t == Adresses ==> r.cliniques == map[])
    && (t == AspNetUsers ==> r.cliniques == map[] && r.patients == map[])
    && (t == Cliniques ==> r.listes == map[])
    && (t == Patients ==> r.dependants == map[] && r.consultations == map[])
    && (t == ListeAttentes ==> r.plages == map[] && r.consultations == map[])
    && (t == PlagesHoraires ==> r.consultations == map[])
  }

  /** When no other existing table references t, no row references a row of t. */
  lemma UnreferencedTableHasNoReferencingRows(tables: set<Table>, r: Rows, t: Table)
    requires RowsInTables(r, tables)
    requires forall d :: d in tables && d != t ==> t !in Principals(d)
    ensures NoReferencingRows(r, t)
  {
  }

  /** Emptying a table that no row references keeps every row rule. */
  lemma DropKeepsIntegrity(tables: set<Table>, indexes: set<Index>, r: Rows, t: Table)
    requires RowsInTables(r, tables) && ColumnsFit(r) && ForeignKeysHold(r) && UniqueIndexesHold(r, indexes)
    requires NoReferencingRows(r, t)
    ensures RowsInTables(WithoutTable(r, t), tables - {t})
    ensures ColumnsFit(WithoutTable(r, t))
    ensures ForeignKeysHold(WithoutTable(r, t))
    ensures UniqueIndexesHold(WithoutTable(r, t), IndexesWithout(indexes, t))
  {
    DropKeepsForeignKeys(r, t);
  }

  lemma DropKeepsForeignKeys(r: Rows, t: Table)
    requires ForeignKeysHold(r) && NoReferencingRows(r, t)
    ensures ForeignKeysHold(WithoutTable(r, t))
  {
  }

  /** The index Up creates in step i is not among those it created before, and it sits on a created table. */
  lemma IndexesDistinct(i: nat)
    requires i < |Indexes|
    ensures Indexes[i] !in Indexes[..i]
    ensures Indexes[i].table in AllTables
  {
    forall j | 0 <= j < i
      ensures Indexes[j] != Indexes[i]
    {
      assert Indexes[j].name != Indexes[i].name;
    }
  }

  /** Step i of Up's index creation adds a new index on a created table, extending the prefix created so far. */
  lemma CreateIndexStep(indexes: set<Index>, i: nat)
    requires i < |Indexes|
    requires forall ix :: ix in indexes <==> ix in Indexes[..i]
    ensures Indexes[i] !in indexes && Indexes[i].table in AllTables
    ensures forall ix :: ix in indexes + {Indexes[i]} <==> ix in Indexes[..i + 1]
  {
    IndexesDistinct(i);
    assert Indexes[..i + 1] == Indexes[..i] + [Indexes[i]];
  }

  /** An admitted batch keeps every row rule. */
  lemma InsertKeepsIntegrity(r: Rows, indexes: set<Index>, b: Batch)
    requires ColumnsFit(r) && ForeignKeysHold(r) && UniqueIndexesHold(r, indexes)
    requires Admissible(r, indexes, b)
    ensures ColumnsFit(Extend(r, b)) && ForeignKeysHold(Extend(r, b)) && UniqueIndexesHold(Extend(r, b), indexes)
  {
    match b
    case AdresseRows(m) => InsertAdressesKeepsIntegrity(r, indexes, m);
    case UserRows(m) => InsertUsersKeepsIntegrity(r, indexes, m);
    case CliniqueRows(m) => InsertCliniquesKeepsIntegrity(r, indexes, m);
    case PatientRows(m) => InsertPatientsKeepsIntegrity(r, indexes, m);
    case ListeRows(m) => InsertListesKeepsIntegrity(r, indexes, m);
    case DependantRows(m) => InsertDependantsKeepsIntegrity(r, indexes, m);
    case PlageRows(m) => InsertPlagesKeepsIntegrity(r, indexes, m);
    case ConsultationRows(m) => InsertConsultationsKeepsIntegrity(r, indexes, m);
  }

  lemma InsertAdressesKeepsIntegrity(r: Rows, indexes: set<Index>, m: map<int, Adresse>)
    requires ColumnsFit(r) && ForeignKeysHold(r) && UniqueIndexesHold(r, indexes)
    requires Admissible(r, indexes, AdresseRows(m))
    ensures var r' := Extend(r, AdresseRows(m));
      ColumnsFit(r') && ForeignKeysHold(r') && UniqueIndexesHold(r', indexes)
  {
  }

  lemma InsertUsersKeepsIntegrity(r: Rows, indexes: set<Index>, m: set<UserId>)
    requires ColumnsFit(r) && ForeignKeysHold(r) && UniqueIndexesHold(r, indexes)
    requires Admissible(r, indexes, UserRows(m))
    ensures var r' := Extend(r, UserRows(m));
      ColumnsFit(r') && ForeignKeysHold(r') && UniqueIndexesHold(r', indexes)
  {
  }

  lemma InsertCliniquesKeepsIntegrity(r: Rows, indexes: set<Index>, m: map<int, Clinique>)
    requires ColumnsFit(r) && ForeignKeysHold(r) && UniqueIndexesHold(r, indexes)
    requires Admissible(r, indexes, CliniqueRows(m))
    ensures var r' := Extend(r, CliniqueRows(m));
      ColumnsFit(r') && ForeignKeysHold(r') && UniqueIndexesHold(r', indexes)
  {
  }

  lemma InsertPatientsKeepsIntegrity(r: Rows, indexes: set<Index>, m: map<int, Patient>)
    requires ColumnsFit(r) && ForeignKeysHold(r) && UniqueIndexesHold(r, indexes)
    requires Admissible(r, indexes, PatientRows(m))
    ensures var r' := Extend(r, PatientRows(m));
      ColumnsFit(r') && ForeignKeysHold(r') && UniqueIndexesHold(r', indexes)
  {
  }

  lemma InsertListesKeepsIntegrity(r: Rows, indexes: set<Index>, m: map<int, ListeAttente>)
    requires ColumnsFit(r) && ForeignKeysHold(r) && UniqueIndexesHold(r, indexes)
    requires Admissible(r, indexes, ListeRows(m))
    ensures var r' := Extend(r, ListeRows(m));
      ColumnsFit(r') && ForeignKeysHold(r') && UniqueIndexesHold(r', indexes)
  {
  }

  lemma InsertDependantsKeepsIntegrity(r: Rows, indexes: set<Index>, m: map<int, PatientACharge>)
    requires ColumnsFit(r) && ForeignKeysHold(r) && UniqueIndexesHold(r, indexes)
    requires Admissible(r, indexes, DependantRows(m))
    ensures var r' := Extend(r, DependantRows(m));
      ColumnsFit(r') && ForeignKeysHold(r') && UniqueIndexesHold(r', indexes)
  {
  }

  lemma InsertPlagesKeepsIntegrity(r: Rows, indexes: set<Index>, m: map<int, PlageHoraire>)
    requires ColumnsFit(r) && ForeignKeysHold(r) && UniqueIndexesHold(r, indexes)
    requires Admissible(r, indexes, PlageRows(m))
    ensures var r' := Extend(r, PlageRows(m));
      ColumnsFit(r') && ForeignKeysHold(r') && UniqueIndexesHold(r', indexes)
  {
  }

  lemma InsertConsultationsKeepsIntegrity(r: Rows, indexes: set<Index>, m: map<int, Consultation>)
    requires ColumnsFit(r) && ForeignKeysHold(r) && UniqueIndexesHold(r, indexes)
    requires Admissible(r, indexes, ConsultationRows(m))
    ensures var r' := Extend(r, ConsultationRows(m));
      ColumnsFit(r') && ForeignKeysHold(r') && UniqueIndexesHold(r', indexes)
  {
  }

  /** A cascading delete that no NO ACTION key blocks keeps every row rule. */
  lemma DeleteKeepsIntegrity(tables: set<Table>, indexes: set<Index>, r: Rows, root: Removal)
    requires RowsInTables(r, tables) && ColumnsFit(r) && ForeignKeysHold(r) && UniqueIndexesHold(r, indexes)
    requires !Blocked(r, CascadeClosure(r, root))
    ensures var r' := Remove(r, CascadeClosure(r, root));
      RowsInTables(r', tables) && ColumnsFit(r') && ForeignKeysHold(r') && UniqueIndexesHold(r', indexes)
  {
    DeleteKeepsForeignKeys(r, root);
  }

  /** Each foreign key holds after the cascade: a row survives only when what it
      references survives, or (for Consultations) when the delete is not blocked. */
  lemma DeleteKeepsForeignKeys(r: Rows, root: Removal)
    requires ForeignKeysHold(r)
    requires !Blocked(r, CascadeClosure(r, root))
    ensures ForeignKeysHold(Remove(r, CascadeClosure(r, root)))
  {
    var c := CascadeClosure(r, root);
    var r' := Remove(r, c);
    forall k | k in r'.consultations
      ensures ConsultationRefsExist(r', r'.consultations[k])
    {
      assert !RefersToRemoved(r.consultations[k], c);
    }
  }

  /** The seeded AspNetUsers ids share four 33-character stems; each id is a
      stem followed by a short suffix. */
  const IdStem1 := "7cc96785-8933-4eac-8d7f-a289b28df"
  const IdStem2 := "e2b8f367-6c94-4a3e-b5a6-45dabec4d"
  const IdStem3 := "f3c9e478-8d81-4aaf-aa77-56e1d3f5f"
  const IdStem4 := "g4d0a589-2b02-4d36-9a85-39c028a4g"

  const SeedAdresses: map<int, Adresse> := map[
    1 := Adresse("505", "Rue Adoncour", "Longueuil", "Québec", "Canada", "J4G 2M6"),
    2 := Adresse("1615", "Blvd Jacques-Cartier", "Longueuil", "Québec", "Canada", "J4M 2X1"),
    3 := Adresse("1144", "Rue Saint-Laurent", "Longueuil", "Québec", "Canada", "J4K 1E2"),
    4 := Adresse("3141", "Blvd Taschereau", "Longueuil", "Québec", "Canada", "J4V 2H2"),
    5 := Adresse("895", "Rue De la Gauchetiére", "Montreal", "Québec", "Canada", "H3B 4G1"),
    6 := Adresse("5580", " Ch. de Chambly B", "Saint-Hubert", "Québec", "Canada", "J3Y 3P5")]

  const SeedUsers: set<UserId> := {
    IdStem1 + "211",
    IdStem1 + "216",
    IdStem1 + "223",
    IdStem1 + "226",
    IdStem2 + "212",
    IdStem2 + "217",
    IdStem2 + "2e2",
    IdStem2 + "2e7",
    IdStem3 + "313",
    IdStem3 + "318",
    IdStem3 + "3f3",
    IdStem3 + "3f38",
    IdStem4 + "22",
    IdStem4 + "410",
    IdStem4 + "414",
    IdStem4 + "415",
    IdStem4 + "419",
    IdStem4 + "420",
    IdStem4 + "421",
    IdStem4 + "4g4",
    IdStem4 + "4g5",
    IdStem4 + "4g9"}

  const SeedCliniques: map<int, Clinique> := map[
    1 := Clinique("Clinique Adoncour", "contact@adoncour.ca", Time(8, 0), Time(17, 0), 30, Some("(450) 646-4445"), true, 1, IdStem1 + "223"),
    2 := Clinique("Clinique Pierre-Boucher", "contact@pboucher.ca", Time(8, 0), Time(22, 0), 30, Some("(450) 468-6223"), true, 2, IdStem1 + "223"),
    3 := Clinique("Clinique Medicale Urgence Camu", "contact@camu.ca", Time(8, 0), Time(18, 0), 20, Some("(450) 679-4333"), true, 3, IdStem1 + "223"),
    4 := Clinique("Medical Clinic GMF La Cigogne", "contact@cigogne.ca", Time(8, 0), Time(20, 0), 40, Some("(450) 466-7892"), true, 4, IdStem1 + "223"),
    5 := Clinique("Clinique Medicale en Route", "contact@cmenroute.ca", Time(8, 0), Time(16, 0), 10, Some("(514) 954-1444"), true, 5, IdStem1 + "223"),
    6 := Clinique("Centre Médical Chambly Latour", "contact@chambly.com", Time(8, 0), Time(16, 0), 15, Some("(450) 926-2236"), true, 6, IdStem1 + "223")]

  const SeedPatients: map<int, Patient> := map[
    1 := Patient(1, Some("Eastwood"), Some("Clint"), Some("Masculin"), Some("EASC 2342 4332"), Some("J4J 1Z4"), Some(Date(1990, 1, 1)), Some(32), Some(IdStem1 + "223")),
    2 := Patient(2, Some("Blunt"), Some("Emily"), Some("Féminin"), Some("BLUE 4232 4332"), Some("J4J 1V2"), Some(Date(1995, 5, 5)), Some(27), Some(IdStem2 + "2e2")),
    3 := Patient(3, Some("Brando"), Some("Marlon"), Some("Masculin"), Some("MARB 3244 2233"), Some("J4J 1G4"), Some(Date(1985, 10, 10)), Some(36), Some(IdStem3 + "3f3")),
    4 := Patient(4, Some("Portman"), Some("Natalie"), Some("Féminin"), Some("PORT 3443 3433"), Some("J4J 1H6"), Some(Date(1980, 8, 8)), Some(44), Some(IdStem4 + "4g4")),
    5 := Patient(5, Some("Tremblay"), Some("Anne"), Some("Male"), Some("TREA 1234 4569"), Some("V9S 1N2"), Some(Date(1971, 4, 29)), Some(53), Some(IdStem4 + "4g5")),
    6 := Patient(6, Some("Lavoie"), Some("Jean"), Some("Male"), Some("LAVJ 1234 4570"), Some("C1U 7Y0"), Some(Date(1996, 2, 27)), Some(28), Some(IdStem1 + "226")),
    7 := Patient(7, Some("Gagnon"), Some("Andrew"), Some("Male"), Some("GAGA 1234 4571"), Some("T5E 4Z2"), Some(Date(1991, 9, 19)), Some(33), Some(IdStem2 + "2e7")),
    8 := Patient(8, Some("Gauthier"), Some("Jean"), Some("Female"), Some("GAUJ 1234 4572"), Some("E9C 8W3"), Some(Date(1982, 10, 26)), Some(42), Some(IdStem3 + "3f38")),
    9 := Patient(9, Some("Roy"), Some("Sophie"), Some("Male"), Some("ROYS 1234 4573"), Some("H4Z 0C5"), Some(Date(1995, 5, 5)), Some(29), Some(IdStem4 + "4g9")),
    10 := Patient(10, Some("Gagnon"), Some("Julie"), Some("Female"), Some("GAGJ 1234 4574"), Some("D2R 4Q3"), Some(Date(1950, 9, 5)), Some(74), Some(IdStem4 + "410")),
    11 := Patient(11, Some("Bouchard"), Some("Martin"), Some("Male"), Some("BOUM 1234 4575"), Some("F1G 2H4"), Some(Date(1978, 3, 21)), Some(46), Some(IdStem1 + "211")),
    12 := Patient(12, Some("Couto"), Some("Anne"), Some("Female"), Some("COUA 1234 4576"), Some("J3K 5L8"), Some(Date(1988, 7, 15)), Some(36), Some(IdStem2 + "212")),
    13 := Patient(13, Some("Fortin"), Some("Julie"), Some("Female"), Some("FORJ 1234 4577"), Some("K2L 6M8"), Some(Date(1992, 11, 30)), Some(32), Some(IdStem3 + "313")),
    14 := Patient(14, Some("Fortin"), Some("Martin"), Some("Female"), Some("FORM 1234 4578"), Some("X8F 4I7"), Some(Date(1994, 5, 29)), Some(30), Some(IdStem4 + "414")),
    15 := Patient(15, Some("Morin"), Some("Claire"), Some("Male"), Some("MORC 1234 4579"), Some("S9K 3Z3"), Some(Date(1985, 4, 15)), Some(39), Some(IdStem4 + "415")),
    16 := Patient(16, Some("Roy"), Some("Claire"), Some("Male"), Some("ROYC 1234 4580"), Some("H3N 3Z8"), Some(Date(1985, 1, 8)), Some(39), Some(IdStem1 + "216")),
    17 := Patient(17, Some("Gauthier"), Some("Louis"), Some("Female"), Some("GAUL 1234 4581"), Some("M1F 6Z2"), Some(Date(1958, 11, 26)), Some(66), Some(IdStem2 + "217")),
    18 := Patient(18, Some("Couto"), Some("Marie"), Some("Male"), Some("COUM 1234 4582"), Some("G3W 7Q1"), Some(Date(1950, 7, 29)), Some(74), Some(IdStem3 + "318")),
    19 := Patient(19, Some("Morin"), Some("Michel"), Some("Male"), Some("MORM 1234 4583"), Some("D1D 3D9"), Some(Date(1975, 5, 24)), Some(49), Some(IdStem4 + "419")),
    20 := Patient(20, Some("Roy"), Some("Martin"), Some("Male"), Some("ROYM 1234 4584"), Some("M4F 2S8"), Some(Date(1955, 10, 2)), Some(69), Some(IdStem4 + "420")),
    21 := Patient(21, Some("Roy"), Some("Matheo"), Some("Male"), Some("ROYM 1234 4585"), Some("M4F 2S8"), Some(Date(1954, 10, 2)), Some(70), Some(IdStem4 + "421"))]

  const SeedListes: map<int, ListeAttente> := map[
    1 := ListeAttente(true, Date(2024, 1, 30), Time(8, 0), Time(17, 0), 2, Some(30), 1),
    2 := ListeAttente(true, Date(2024, 1, 30), Time(8, 0), Time(8, 30), 1, Some(30), 2),
    3 := ListeAttente(true, Date(2024, 1, 30), Time(8, 0), Time(17, 0), 2, Some(30), 3),
    4 := ListeAttente(true, Date(2024, 1, 30), Time(8, 0), Time(17, 0), 3, Some(30), 4),
    5 := ListeAttente(true, Date(2024, 1, 30), Time(8, 0), Time(17, 0), 2, Some(30), 5),
    6 := ListeAttente(true, Date(2024, 1, 30), Time(8, 0), Time(17, 0), 3, Some(30), 6),
    7 := ListeAttente(true, Date(2024, 1, 31), Time(8, 0), Time(17, 0), 2, Some(30), 1),
    8 := ListeAttente(true, Date(2024, 1, 31), Time(8, 0), Time(17, 0), 3, Some(30), 2),
    9 := ListeAttente(true, Date(2024, 1, 31), Time(8, 0), Time(17, 0), 2, Some(30), 3),
    10 := ListeAttente(true, Date(2024, 2, 2), Time(8, 0), Time(17, 0), 3, Some(30), 4),
    11 := ListeAttente(false, Date(2024, 2, 3), Time(8, 0), Time(17, 0), 2, Some(30), 4),
    12 := ListeAttente(false, Date(2024, 2, 4), Time(8, 0), Time(17, 0), 3, Some(30), 4),
    13 := ListeAttente(true, Date(2024, 2, 1), Time(8, 0), Time(17, 0), 2, Some(30), 5),
    14 := ListeAttente(true, Date(2024, 2, 2), Time(8, 0), Time(17, 0), 3, Some(30), 6),
    15 := ListeAttente(true, Date(2024, 2, 1), Time(8, 0), Time(17, 0), 2, Some(30), 1),
    16 := ListeAttente(true, Date(2024, 2, 2), Time(8, 0), Time(17, 0), 3, Some(30), 5),
    17 := ListeAttente(false, Date(2024, 2, 3), Time(8, 0), Time(17, 0), 2, Some(30), 5),
    18 := ListeAttente(false, Date(2024, 2, 4), Time(8, 0), Time(17, 0), 3, Some(30), 5),
    19 := ListeAttente(true, Date(2024, 1, 30), Time(8, 0), Time(17, 0), 2, Some(30), 6),
    20 := ListeAttente(true, Date(2024, 1, 31), Time(8, 0), Time(17, 0), 3, Some(30), 6),
    21 := ListeAttente(true, Date(2024, 2, 1), Time(8, 0), Time(17, 0), 2, Some(30), 6),
    22 := ListeAttente(true, Date(2024, 2, 2), Time(8, 0), Time(17, 0), 3, Some(30), 6),
    23 := ListeAttente(false, Date(2024, 2, 3), Time(8, 0), Time(17, 0), 2, Some(30), 6),
    24 := ListeAttente(false, Date(2024, 2, 4), Time(8, 0), Time(17, 0), 3, Some(30), 6)]

  const SeedPlages: map<int, PlageHoraire> := map[
    1 := PlageHoraire(DateTime(Date(2024, 1, 30), Time(8, 0)), DateTime(Date(2024, 1, 30), Time(8, 30)), 1),
    2 := PlageHoraire(DateTime(Date(2024, 1, 30), Time(8, 30)), DateTime(Date(2024, 1, 30), Time(9, 0)), 1),
    3 := PlageHoraire(DateTime(Date(2024, 1, 30), Time(9, 0)), DateTime(Date(2024, 1, 30), Time(9, 30)), 1),
    4 := PlageHoraire(DateTime(Date(2024, 1, 30), Time(9, 30)), DateTime(Date(2024, 1, 30), Time(10, 0)), 1),
    5 := PlageHoraire(DateTime(Date(2024, 1, 30), Time(10, 0)), DateTime(Date(2024, 1, 30), Time(10, 30)), 1),
    6 := PlageHoraire(DateTime(Date(2024, 1, 30), Time(10, 30)), DateTime(Date(2024, 1, 30), Time(11, 0)), 1),
    7 := PlageHoraire(DateTime(Date(2024, 1, 30), Time(11, 0)), DateTime(Date(2024, 1, 30), Time(11, 30)), 1),
    8 := PlageHoraire(DateTime(Date(2024, 1, 30), Time(11, 30)), DateTime(Date(2024, 1, 30), Time(12, 0)), 1),
    9 := PlageHoraire(DateTime(Date(2024, 1, 30), Time(12, 0)), DateTime(Date(2024, 1, 30), Time(12, 30)), 1),
    10 := PlageHoraire(DateTime(Date(2024, 1, 30), Time(12, 30)), DateTime(Date(2024, 1, 30), Time(13, 0)), 1),
    11 := PlageHoraire(DateTime(Date(2024, 1, 30), Time(13, 0)), DateTime(Date(2024, 1, 30), Time(13, 30)), 1),
    12 := PlageHoraire(DateTime(Date(2024, 1, 30), Time(13, 30)), DateTime(Date(2024, 1, 30), Time(14, 0)), 1)]

  const SeedConsultations: map<int, Consultation> := map[
    1 := Consultation(DateTime(Date(2024, 1, 30), Time(8, 0)), DateTime(Date(2024, 1, 30), Time(8, 30)), None, None, 2, Some(1), Some(1), None),
    2 := Consultation(DateTime(Date(2024, 1, 30), Time(8, 0)), DateTime(Date(2024, 1, 30), Time(8, 30)), None, None, 2, Some(1), Some(2), None),
    3 := Consultation(DateTime(Date(2024, 1, 30), Time(8, 30)), DateTime(Date(2024, 1, 30), Time(9, 0)), None, None, 2, Some(2), Some(3), None),
    4 := Consultation(DateTime(Date(2024, 1, 30), Time(8, 30)), DateTime(Date(2024, 1, 30), Time(9, 0)), None, None, 2, Some(2), Some(4), None),
    5 := Consultation(DateTime(Date(2024, 1, 30), Time(9, 0)), DateTime(Date(2024, 1, 30), Time(9, 30)), None, None, 2, Some(3), Some(5), None),
    6 := Consultation(DateTime(Date(2024, 1, 30), Time(9, 0)), DateTime(Date(2024, 1, 30), Time(9, 30)), None, None, 2, Some(3), Some(6), None),
    7 := Consultation(DateTime(Date(2024, 1, 30), Time(9, 30)), DateTime(Date(2024, 1, 30), Time(10, 0)), None, None, 2, Some(4), Some(7), None),
    8 := Consultation(DateTime(Date(2024, 1, 30), Time(9, 30)), DateTime(Date(2024, 1, 30), Time(10, 0)), None, None, 2, Some(4), Some(8), None),
    9 := Consultation(DateTime(Date(2024, 1, 30), Time(10, 0)), DateTime(Date(2024, 1, 30), Time(10, 30)), None, None, 2, Some(5), Some(9), None),
    10 := Consultation(DateTime(Date(2024, 1, 30), Time(10, 0)), DateTime(Date(2024, 1, 30), Time(10, 30)), None, None, 2, Some(6), Some(10), None),
    11 := Consultation(DateTime(Date(2024, 1, 30), Time(10, 30)), DateTime(Date(2024, 1, 30), Time(11, 0)), None, None, 2, Some(7), Some(11), None),
    12 := Consultation(DateTime(Date(2024, 1, 30), Time(10, 30)), DateTime(Date(2024, 1, 30), Time(11, 0)), None, None, 2, Some(7), Some(12), None),
    13 := Consultation(DateTime(Date(2024, 1, 30), Time(11, 0)), DateTime(Date(2024, 1, 30), Time(11, 30)), None, None, 2, Some(8), Some(13), None),
    14 := Consultation(DateTime(Date(2024, 1, 30), Time(11, 0)), DateTime(Date(2024, 1, 30), Time(11, 30)), None, None, 2, Some(8), Some(14), None),
    15 := Consultation(DateTime(Date(2024, 1, 30), Time(12, 0)), DateTime(Date(2024, 1, 30), Time(12, 30)), None, None, 2, Some(9), Some(15), None),
    16 := Consultation(DateTime(Date(2024, 1, 30), Time(12, 0)), DateTime(Date(2024, 1, 30), Time(12, 30)), None, None, 2, Some(9), Some(16), None),
    17 := Consultation(DateTime(Date(2024, 1, 30), Time(12, 30)), DateTime(Date(2024, 1, 30), Time(13, 0)), None, None, 2, Some(10), Some(17), None),
    18 := Consultation(DateTime(Date(2024, 1, 30), Time(12, 30)), DateTime(Date(2024, 1, 30), Time(13, 0)), None, None, 2, Some(10), Some(18), None),
    19 := Consultation(DateTime(Date(2024, 1, 30), Time(13, 0)), DateTime(Date(2024, 1, 30), Time(13, 30)), None, None, 2, Some(11), Some(19), None),
    20 := Consultation(DateTime(Date(2024, 1, 30), Time(13, 0)), DateTime(Date(2024, 1, 30), Time(13, 30)), None, None, 2, Some(11), Some(20), None),
    21 := Consultation(DateTime(Date(2024, 1, 30), Time(13, 30)), DateTime(Date(2024, 1, 30), Time(14, 0)), None, None, 2, Some(12), Some(21), None)]


  // ================================================================ seed data

  /** The rows that Up's InsertData calls write; no PatientACharges row is seeded. */
  const SeedRows := Rows(SeedAdresses, SeedUsers, SeedCliniques, SeedPatients, SeedListes, map[], SeedPlages, SeedConsultations)

  lemma EmptyUnion<K, V>(m: map<K, V>)
    ensures map[] + m == m
  {
  }

  lemma EmptySetUnion<T>(s: set<T>)
    ensures {} + s == s
  {
  }

  /** The rows after each InsertData call of Up. */
  const AfterAdresses := EmptyRows.(adresses := SeedAdresses)
  const AfterUsers := AfterAdresses.(users := SeedUsers)
  const AfterCliniques := AfterUsers.(cliniques := SeedCliniques)
  const AfterPatients := AfterCliniques.(patients := SeedPatients)
  const AfterListes := AfterPatients.(listes := SeedListes)
  const AfterPlages := AfterListes.(plages := SeedPlages)

  lemma SeedAdressesAdmitted()
    ensures Admissible(EmptyRows, {}, AdresseRows(SeedAdresses))
    ensures Extend(EmptyRows, AdresseRows(SeedAdresses)) == AfterAdresses
  {
    SeedAdressesFit();
    EmptyUnion(SeedAdresses);
  }

  lemma SeedAdressesFit()
    ensures forall k :: k in SeedAdresses ==> AdresseFits(SeedAdresses[k])
  {
  }

  lemma SeedUsersAdmitted()
    ensures Admissible(AfterAdresses, {}, UserRows(SeedUsers))
    ensures Extend(AfterAdresses, UserRows(SeedUsers)) == AfterUsers
  {
    EmptySetUnion(SeedUsers);
  }

  lemma SeedCliniquesAdmitted()
    ensures Admissible(AfterUsers, {}, CliniqueRows(SeedCliniques))
    ensures Extend(AfterUsers, CliniqueRows(SeedCliniques)) == AfterCliniques
  {
    SeedCliniquesFit();
    SeedCliniquesRefs();
    SeedAdresseKeys();
    EmptyUnion(SeedCliniques);
  }

  lemma SeedCliniquesFit()
    ensures forall k :: k in SeedCliniques ==> CliniqueFits(SeedCliniques[k])
  {
  }

  lemma SeedCliniquesRefs()
    ensures forall k :: k in SeedCliniques ==>
      SeedCliniques[k].adresseId in {1, 2, 3, 4, 5, 6} && SeedCliniques[k].createurId == IdStem1 + "223"
  {
  }

  lemma SeedAdresseKeys()
    ensures SeedAdresses.Keys == {1, 2, 3, 4, 5, 6}
  {
  }

  lemma SeedPatientsFit()
    ensures forall k :: k in SeedPatients ==> PatientColumnsFit(SeedPatients[k]) && SeedPatients[k].patientId == k
  {
    SeedPatientIds();
    forall k | k in SeedPatients
      ensures PatientColumnsFit(SeedPatients[k])
    {
      var p := SeedPatients[k];
      assert p.nom.Some? && p.prenom.Some? && p.nam.Some? && p.codePostal.Some? && p.userId.Some?;
      assert |p.nom.value| <= 50 && |p.prenom.value| <= 50;
      assert |p.nam.value| <= 14 && |p.codePostal.value| <= 7 && |p.userId.value| <= 450;
    }
  }

  lemma SeedPatientIds()
    ensures forall k :: k in SeedPatients ==> SeedPatients[k].patientId == k
  {
  }

  lemma SeedPatientsUsers()
    ensures forall k :: k in SeedPatients ==> SeedPatients[k].userId.Some? && SeedPatients[k].userId.value in SeedUsers
  {
  }

  lemma SeedPatientsAdmitted()
    ensures Admissible(AfterCliniques, {}, PatientRows(SeedPatients))
    ensures Extend(AfterCliniques, PatientRows(SeedPatients)) == AfterPatients
  {
    SeedPatientsFit();
    SeedPatientsUsers();
    EmptyUnion(SeedPatients);
  }

  lemma SeedCliniqueKeys()
    ensures SeedCliniques.Keys == {1, 2, 3, 4, 5, 6}
  {
  }

  lemma SeedListesClinique()
    ensures forall k :: k in SeedListes ==> SeedListes[k].cliniqueId in {1, 2, 3, 4, 5, 6}
  {
  }

  lemma SeedListesAdmitted()
    ensures Admissible(AfterPatients, {}, ListeRows(SeedListes))
    ensures Extend(AfterPatients, ListeRows(SeedListes)) == AfterListes
  {
    SeedCliniqueKeys();
    SeedListesClinique();
    EmptyUnion(SeedListes);
  }

  lemma SeedPlagesListe()
    ensures forall k :: k in SeedPlages ==> SeedPlages[k].listeAttenteId == 1
  {
  }

  lemma SeedPlagesAdmitted()
    ensures Admissible(AfterListes, {}, PlageRows(SeedPlages))
    ensures Extend(AfterListes, PlageRows(SeedPlages)) == AfterPlages
  {
    SeedPlagesListe();
    assert 1 in SeedListes;
    EmptyUnion(SeedPlages);
  }

  lemma SeedConsultationsRefs()
    ensures forall k :: k in SeedConsultations ==>
      && SeedConsultations[k].listeAttenteId.None?
      && SeedConsultations[k].plageHoraireId.Some? && 1 <= SeedConsultations[k].plageHoraireId.value <= 12
      && SeedConsultations[k].patientId.Some? && 1 <= SeedConsultations[k].patientId.value <= 21
  {
  }

  lemma SeedPlageKeys()
    ensures forall k :: 1 <= k <= 12 ==> k in SeedPlages
  {
  }

  lemma SeedPatientKeys()
    ensures forall k :: 1 <= k <= 21 ==> k in SeedPatients
  {
  }

  lemma SeedConsultationsAdmitted()
    ensures Admissible(AfterPlages, {}, ConsultationRows(SeedConsultations))
    ensures Extend(AfterPlages, ConsultationRows(SeedConsultations)) == SeedRows
  {
    SeedConsultationsAdmissible();
    EmptyUnion(SeedConsultations);
  }

  lemma SeedConsultationsAdmissible()
    ensures forall k :: k in SeedConsultations ==> ConsultationRefsExist(AfterPlages, SeedConsultations[k])
  {
    SeedConsultationsRefs();
    SeedPlageKeys();
    SeedPatientKeys();
  }

  /** The seed satisfies both unique indexes, so Up may create them after InsertData. */
  lemma SeedUnique()
    ensures OneCliniquePerAdresse(SeedCliniques)
    ensures OnePatientPerUser(SeedPatients)
  {
    SeedCliniquesOnePerAdresse();
    SeedUserTags();
  }

  lemma SeedCliniquesOnePerAdresse()
    ensures OneCliniquePerAdresse(SeedCliniques)
  {
    assert forall k :: k in SeedCliniques ==> SeedCliniques[k].adresseId == k;
  }

  /** The last three characters of a user id, as one number; the seeded
      patients' user ids already differ there. */
  function Tag(u: UserId): int
  {
    if |u| < 3 then 0 else (u[|u| - 3] as int) * 65536 + (u[|u| - 2] as int) * 256 + (u[|u| - 1] as int)
  }

  /** The seeded patient whose user id is u, read off the id's last three characters. */
  function SeedPatientOf(u: UserId): int
  {
    var t := Tag(u);
    if t == 3289651 then 1
    else if t == 3302706 then 2
    else if t == 3368499 then 3
    else if t == 3434292 then 4
    else if t == 3434293 then 5
    else if t == 3289654 then 6
    else if t == 3302711 then 7
    else if t == 6697784 then 8
    else if t == 3434297 then 9
    else if t == 3420464 then 10
    else if t == 3289393 then 11
    else if t == 3289394 then 12
    else if t == 3354931 then 13
    else if t == 3420468 then 14
    else if t == 3420469 then 15
    else if t == 3289398 then 16
    else if t == 3289399 then 17
    else if t == 3354936 then 18
    else if t == 3420473 then 19
    else if t == 3420720 then 20
    else if t == 3420721 then 21
    else 0
  }

  lemma SeedUserTags()
    ensures forall k :: k in SeedPatients ==>
      SeedPatients[k].userId.Some? && SeedPatientOf(SeedPatients[k].userId.value) == k
  {
    forall k | k in SeedPatients
      ensures SeedPatients[k].userId.Some? && SeedPatientOf(SeedPatients[k].userId.value) == k
    {
      assert 1 <= k <= 21;
      if k <= 3 {
        SeedUserTags1To3();
      } else if k <= 6 {
        SeedUserTags4To6();
      } else if k <= 9 {
        SeedUserTags7To9();
      } else if k <= 12 {
        SeedUserTags10To12();
      } else if k <= 15 {
        SeedUserTags13To15();
      } else if k <= 18 {
        SeedUserTags16To18();
      } else {
        SeedUserTags19To21();
      }
    }
  }

  lemma SeedUserTags1To3()
    ensures forall k :: k in {1, 2, 3} ==>
      SeedPatients[k].userId.Some? && SeedPatientOf(SeedPatients[k].userId.value) == k
  {
  }

  lemma SeedUserTags4To6()
    ensures forall k :: k in {4, 5, 6} ==>
      SeedPatients[k].userId.Some? && SeedPatientOf(SeedPatients[k].userId.value) == k
  {
  }

  lemma SeedUserTags7To9()
    ensures forall k :: k in {7, 8, 9} ==>
      SeedPatients[k].userId.Some? && SeedPatientOf(SeedPatients[k].userId.value) == k
  {
  }

  lemma SeedUserTags10To12()
    ensures forall k :: k in {10, 11, 12} ==>
      SeedPatients[k].userId.Some? && SeedPatientOf(SeedPatients[k].userId.value) == k
  {
  }

  lemma SeedUserTags13To15()
    ensures forall k :: k in {13, 14, 15} ==>
      SeedPatients[k].userId.Some? && SeedPatientOf(SeedPatients[k].userId.value) == k
  {
  }

  lemma SeedUserTags16To18()
    ensures forall k :: k in {16, 17, 18} ==>
      SeedPatients[k].userId.Some? && SeedPatientOf(SeedPatients[k].userId.value) == k
  {
  }

  lemma SeedUserTags19To21()
    ensures forall k :: k in {19, 20, 21} ==>
      SeedPatients[k].userId.Some? && SeedPatientOf(SeedPatients[k].userId.value) == k
  {
  }
}
