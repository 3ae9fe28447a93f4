/**
  The decisions of PatientsController (Clinique2000_MVC/Areas/Patients/
  Controllers/PatientsController.cs) over an abstract patient store.

  The store is the Patients table seen through the patient service: a map from
  PatientId to the stored row, plus the next identity value. The GET actions
  are functions of that map; the POST actions are methods of the store. What
  the code obtains from outside becomes a parameter: the signed-in user's id
  (UserManager and the e-mail claim), the verdict of the birth-date validator,
  a read failure of the service, and a refusal by the database that this model
  does not derive itself (a lost connection, a NO ACTION foreign key from
  Consultations).
*/
module PatientsController {
  import opened Common
  import opened Validation
  import opened InitMigration

  /** What an action returns. */
  datatype ActionResult =
    | NotFound                   // View("NotFound")
    | ViewOf(shown: Patient)     // View(patient): the details or the delete confirmation
    | Form(model: Patient)       // View(patient): a form, without a model-state error
    | RedirectIndex              // RedirectToAction(nameof(Index))
    | RedirectDetails(id: int)   // RedirectToAction("Details", new { id })
    | FormWithError(model: Patient) // View(patient) after ModelState.AddModelError("Error", …)
    | ErrorView                  // View() after ModelState.AddModelError("Error", …)

  // ============================================================= GET actions

  /** ObtenirParIdAsync(id) for a nullable route id. (ObtenirToutAsync never
      yields null, so the code's test on it never fires.) */
  function Find(patients: map<int, Patient>, id: Option<int>): (found: Option<Patient>)
    ensures found.Some? <==> id.Some? && id.value in patients
    ensures found.Some? ==> found.value == patients[id.value]
  {
    if id.Some? && id.value in patients then Some(patients[id.value]) else None
  }

  /** GET Details: NotFound when the id is missing or names no patient,
      otherwise a view of exactly that patient. */
  function Details(patients: map<int, Patient>, id: Option<int>): (r: ActionResult)
    ensures r == NotFound <==> id.None? || id.value !in patients
    ensures r != NotFound ==> r == ViewOf(patients[id.value])
  {
    match Find(patients, id)
    case None => NotFound
    case Some(p) => ViewOf(p)
  }

  /** GET Edit: like Details but shows the edit form. A null id is NotFound
      before the service is called; a failing read of a present id lands in
      the catch block, which redirects to Index. */
  function EditForm(patients: map<int, Patient>, id: Option<int>, readFails: bool): (r: ActionResult)
    ensures id.None? ==> r == NotFound
    ensures id.Some? && readFails ==> r == RedirectIndex
    ensures id.None? || !readFails ==> (r == NotFound <==> id.None? || id.value !in patients)
    ensures r.Form? ==> id.Some? && id.value in patients && r == Form(patients[id.value])
    ensures r.NotFound? || r.RedirectIndex? || r.Form?
  {
    if id.None? then NotFound
    else if readFails then RedirectIndex
    else match Find(patients, id)
      case None => NotFound
      case Some(p) => Form(p)
  }

  /** GET Delete: the confirmation page of exactly that patient, NotFound when
      the id is null or names no patient, Index when the read of a present id
      fails. */
  function DeleteForm(patients: map<int, Patient>, id: Option<int>, readFails: bool): (r: ActionResult)
    ensures id.None? ==> r == NotFound
    ensures id.Some? && readFails ==> r == RedirectIndex
    ensures id.None? || !readFails ==> (r == NotFound <==> id.None? || id.value !in patients)
    ensures r.ViewOf? ==> id.Some? && id.value in patients && r == ViewOf(patients[id.value])
    ensures r.NotFound? || r.RedirectIndex? || r.ViewOf?
  {
    if id.None? then NotFound
    else if readFails then RedirectIndex
    else match Find(patients, id)
      case Some(p) => ViewOf(p)
      case None => NotFound
  }

  /** UserEstPatientAsync(userId). */
  predicate UserIsPatient(patients: map<int, Patient>, userId: UserId)
  {
    exists k :: k in patients && patients[k].userId == Some(userId)
  }

  /** GetPatientParUserIdAsync(userId).PatientId: the one patient of that user,
      unique because IX_Patients_UserId is unique. */
  function PatientIdOfUser(patients: map<int, Patient>, userId: UserId): (k: int)
    requires OnePatientPerUser(patients) && UserIsPatient(patients, userId)
    ensures k in patients && patients[k].userId == Some(userId)
  {
    var k :| k in patients && patients[k].userId == Some(userId); k
  }

  /** `new Patient { UserId = user.Id }`: the strings are null, the DateTime
      and int properties hold their defaults. */
  function BlankPatient(userId: UserId): Patient
  {
    Patient(0, None, None, None, None, None, Some(Date(1, 1, 1)), Some(0), Some(userId))
  }

  /** GET Create: a blank form bound to the signed-in user when that user has no
      patient yet, otherwise a redirect to the details of the user's patient. */
  function CreateForm(patients: map<int, Patient>, userId: UserId): (r: ActionResult)
    requires OnePatientPerUser(patients)
    ensures r.Form? <==> !UserIsPatient(patients, userId)
    ensures r.Form? ==> r.model == BlankPatient(userId) && r.model.userId == Some(userId) && r.model.patientId == 0
    ensures !r.Form? ==> r.RedirectDetails? && r.id in patients && patients[r.id].userId == Some(userId)
  {
    if !UserIsPatient(patients, userId) then Form(BlankPatient(userId))
    else RedirectDetails(PatientIdOfUser(patients, userId))
  }

  /** VerifierExistencePatientParNAM(nam). */
  predicate NamExists(patients: map<int, Patient>, nam: Option<string>)
  {
    exists k :: k in patients && patients[k].nam == nam
  }

  // ==================================================================== save

  /** How EnregistrerOuModifierPatient ends. */
  datatype SaveOutcome =
    | Inserted(id: int)     // PatientId 0: added under the next identity value
    | Updated               // an existing PatientId: its row replaced
    | ConcurrencyConflict   // DbUpdateConcurrencyException: the UPDATE found no row
    | Rejected              // any other exception

  /** Another patient than the one under key already belongs to p's user. */
  predicate UserTaken(patients: map<int, Patient>, p: Patient, key: int)
  {
    exists k :: k in patients && k != key && patients[k].userId == p.userId
  }

  /** The key that saving p writes to. */
  function SaveKey(nextId: int, p: Patient): int
  {
    if p.patientId == 0 then nextId else p.patientId
  }

  /** p's UserId names an existing AspNetUsers row (FK_Patients_AspNetUsers_UserId). */
  predicate UserKnown(users: set<UserId>, p: Patient)
  {
    p.userId.Some? && p.userId.value in users
  }

  /** The outcome of saving p: an update of a missing row affects no row; the
      database refuses a NOT NULL or width violation, a UserId that names no
      user (FK_Patients_AspNetUsers_UserId), a second patient for the same user
      (IX_Patients_UserId), and whatever dbRejects stands for. */
  function SaveResult(patients: map<int, Patient>, users: set<UserId>, nextId: int, p: Patient, dbRejects: bool): (o: SaveOutcome)
    ensures o == ConcurrencyConflict <==> p.patientId != 0 && p.patientId !in patients
    ensures o.Inserted? ==> o.id == nextId && p.patientId == 0
    ensures o.Updated? ==> p.patientId in patients
    ensures (o.Inserted? || o.Updated?) <==>
      (&& (p.patientId == 0 || p.patientId in patients)
       && !dbRejects
       && PatientColumnsFit(p)
       && UserKnown(users, p)
       && !UserTaken(patients, p, SaveKey(nextId, p)))
  {
    if p.patientId != 0 && p.patientId !in patients then ConcurrencyConflict
    else if dbRejects || !PatientColumnsFit(p) || !UserKnown(users, p) || UserTaken(patients, p, SaveKey(nextId, p)) then Rejected
    else if p.patientId == 0 then Inserted(nextId)
    else Updated
  }

  /** The patients after a save that ended with o: a success adds or replaces
      exactly the row of its key, which then holds p with that key; every other
      row stays as it was, and a failure changes nothing. */
  function AfterSave(patients: map<int, Patient>, p: Patient, o: SaveOutcome): (after: map<int, Patient>)
    ensures o.Inserted? ==> after.Keys == patients.Keys + {o.id} && after[o.id] == p.(patientId := o.id)
    ensures o.Updated? ==> after.Keys == patients.Keys + {p.patientId} && after[p.patientId] == p
    ensures forall k :: k in patients && !(o.Inserted? && k == o.id) && !(o.Updated? && k == p.patientId) ==>
      k in after && after[k] == patients[k]
    ensures !o.Inserted? && !o.Updated? ==> after == patients
  {
    match o
    case Inserted(id) => patients[id := p.(patientId := id)]
    case Updated => patients[p.patientId := p]
    case _ => patients
  }

  // =================================================================== store

  class PatientStore {
    var patients: map<int, Patient>
    /** The keys of AspNetUsers, which the patient actions read but never change. */
    var users: set<UserId>
    /** The Patients IDENTITY value the next INSERT takes. */
    var nextId: int

    /** The rules of the Patients table: NOT NULL and widths, the key in the
        PatientId column, every UserId naming a user, one patient per user;
        identity values not yet taken are above every key. */
    ghost predicate Valid()
      reads this
    {
      && PatientsFit(patients)
      && PatientRefsHold(patients, users)
      && OnePatientPerUser(patients)
      && 0 < nextId
      && forall k :: k in patients ==> 0 < k < nextId
    }

    /** An empty Patients table beside the given users, identity starting at 1. */
    constructor (users: set<UserId>)
      ensures Valid() && patients == map[] && this.users == users && nextId == 1
    {
      patients, this.users, nextId := map[], users, 1;
    }

    /** EnregistrerOuModifierPatient. Every INSERT takes the next IDENTITY
        value, and SQL Server does not give it back when the INSERT fails. */
    method Save(p: Patient, dbRejects: bool) returns (o: SaveOutcome)
      requires Valid()
      modifies this
      ensures Valid() && users == old(users)
      ensures o == SaveResult(old(patients), old(users), old(nextId), p, dbRejects)
      ensures patients == AfterSave(old(patients), p, o)
      ensures nextId == if p.patientId == 0 then old(nextId) + 1 else old(nextId)
    {
      o := SaveResult(patients, users, nextId, p, dbRejects);
      SaveKeepsValid(patients, users, nextId, p, dbRejects);
      patients := AfterSave(patients, p, o);
      if p.patientId == 0 {
        nextId := nextId + 1;
      }
    }

    /** POST Create: an invalid model re-renders the form; a valid one is saved
        and redirects to Index, and any exception of the save re-renders the
        form with an error. */
    method CreatePost(p: Patient, birthDateOk: bool, dbRejects: bool) returns (r: ActionResult)
      requires Valid()
      modifies this
      ensures Valid() && users == old(users)
      ensures !IsValid(p, birthDateOk) ==> r == Form(p) && patients == old(patients)
      ensures IsValid(p, birthDateOk) ==>
        var o := SaveResult(old(patients), old(users), old(nextId), p, dbRejects);
        && patients == AfterSave(old(patients), p, o)
        && r == (if o.Inserted? || o.Updated? then RedirectIndex else FormWithError(p))
      ensures nextId == if IsValid(p, birthDateOk) && p.patientId == 0 then old(nextId) + 1 else old(nextId)
      ensures r != RedirectIndex ==> patients == old(patients)
    {
      if !IsValid(p, birthDateOk) {
        return Form(p);
      }
      var o := Save(p, dbRejects);
      if o.Inserted? || o.Updated? {
        r := RedirectIndex;
      } else {
        r := FormWithError(p);
      }
    }

    /** POST Edit: a route id other than the bound PatientId is NotFound; an
        invalid model re-renders the form; a concurrency conflict is NotFound
        when no patient has the NAM and otherwise rethrown into the outer catch,
        as is any other exception of the save. */
    method EditPost(id: int, p: Patient, birthDateOk: bool, dbRejects: bool) returns (r: ActionResult)
      requires Valid()
      modifies this
      ensures Valid() && users == old(users)
      ensures id != p.patientId ==> r == NotFound && patients == old(patients)
      ensures id == p.patientId && !IsValid(p, birthDateOk) ==> r == Form(p) && patients == old(patients)
      ensures id == p.patientId && IsValid(p, birthDateOk) ==>
        var o := SaveResult(old(patients), old(users), old(nextId), p, dbRejects);
        && patients == AfterSave(old(patients), p, o)
        && r == (if o.Inserted? || o.Updated? then RedirectIndex
                 else if o.ConcurrencyConflict? && !NamExists(old(patients), p.nam) then NotFound
                 else FormWithError(p))
      ensures nextId ==
        if id == p.patientId && IsValid(p, birthDateOk) && p.patientId == 0 then old(nextId) + 1 else old(nextId)
      ensures r != RedirectIndex ==> patients == old(patients)
    {
      if id != p.patientId {
        return NotFound;
      }
      if !IsValid(p, birthDateOk) {
        return Form(p);
      }
      var o := Save(p, dbRejects);
      if o.Inserted? || o.Updated? {
        r := RedirectIndex;
      } else if o.ConcurrencyConflict? && !NamExists(patients, p.nam) {
        r := NotFound;
      } else {
        r := FormWithError(p);
      }
    }

    /** POST DeleteConfirmed: removes the patient when it exists and redirects
        to Index either way; a failing SupprimerAsync shows the error view and
        removes nothing. */
    method DeleteConfirmed(patientId: int, dbRejects: bool) returns (r: ActionResult)
      requires Valid()
      modifies this
      ensures Valid() && users == old(users) && nextId == old(nextId)
      ensures patientId in old(patients) && dbRejects ==> r == ErrorView && patients == old(patients)
      ensures !(patientId in old(patients) && dbRejects) ==>
        r == RedirectIndex && patients == old(patients) - {patientId}
      ensures forall k :: k in patients <==> k in old(patients) && (k != patientId || r == ErrorView)
      ensures forall k :: k in patients ==> patients[k] == old(patients)[k]
    {
      if patientId in patients {
        if dbRejects {
          return ErrorView;
        }
        patients := patients - {patientId};
      }
      r := RedirectIndex;
    }
  }

  // ================================================================== lemmas

  /** Every save keeps the rules of the Patients table, and every key stays
      below the identity value the store holds afterwards. */
  lemma SaveKeepsValid(patients: map<int, Patient>, users: set<UserId>, nextId: int, p: Patient, dbRejects: bool)
    requires PatientsFit(patients) && PatientRefsHold(patients, users) && OnePatientPerUser(patients)
    requires 0 < nextId && forall k :: k in patients ==> 0 < k < nextId
    ensures var o := SaveResult(patients, users, nextId, p, dbRejects);
      var after := AfterSave(patients, p, o);
      && PatientsFit(after) && PatientRefsHold(after, users) && OnePatientPerUser(after)
      && var next := if p.patientId == 0 then nextId + 1 else nextId;
         forall k :: k in after ==> 0 < k < next
  {
    var o := SaveResult(patients, users, nextId, p, dbRejects);
    var after := AfterSave(patients, p, o);
    if o.Inserted? || o.Updated? {
      var key := SaveKey(nextId, p);
      forall k1, k2 | k1 in after && k2 in after && after[k1].userId.Some? && after[k1].userId == after[k2].userId
        ensures k1 == k2
      {
        if k1 != key && k2 != key {
          assert after[k1] == patients[k1] && after[k2] == patients[k2];
        }
      }
    }
  }

  /** A patient saved by POST Create is what GET Details then shows under its new
      key, and GET Create for its user then redirects to it. */
  lemma InsertedPatientIsShown(patients: map<int, Patient>, users: set<UserId>, nextId: int, p: Patient, dbRejects: bool)
    requires OnePatientPerUser(patients) && forall k :: k in patients ==> k < nextId
    requires SaveResult(patients, users, nextId, p, dbRejects) == Inserted(nextId)
    ensures var after := AfterSave(patients, p, Inserted(nextId));
      && Details(after, Some(nextId)) == ViewOf(p.(patientId := nextId))
      && OnePatientPerUser(after)
      && CreateForm(after, p.userId.value) == RedirectDetails(nextId)
  {
    var after := AfterSave(patients, p, Inserted(nextId));
    SaveKeepsValidUnique(patients, users, nextId, p);
    assert after[nextId].userId == Some(p.userId.value);
    assert UserIsPatient(after, p.userId.value);
  }

  /** Uniqueness half of SaveKeepsValid for an insert, without the other table rules. */
  lemma SaveKeepsValidUnique(patients: map<int, Patient>, users: set<UserId>, nextId: int, p: Patient)
    requires OnePatientPerUser(patients)
    requires SaveResult(patients, users, nextId, p, false) == Inserted(nextId)
    ensures OnePatientPerUser(AfterSave(patients, p, Inserted(nextId)))
  {
    var after := AfterSave(patients, p, Inserted(nextId));
    forall k1, k2 | k1 in after && k2 in after && after[k1].userId.Some? && after[k1].userId == after[k2].userId
      ensures k1 == k2
    {
      if k1 != nextId && k2 != nextId {
        assert after[k1] == patients[k1] && after[k2] == patients[k2];
      }
    }
  }

  /** An update replaces exactly the row of p's key: Details shows p there and
      every other patient as before. */
  lemma UpdatedPatientIsShown(patients: map<int, Patient>, users: set<UserId>, nextId: int, p: Patient, dbRejects: bool, k: int)
    requires SaveResult(patients, users, nextId, p, dbRejects) == Updated
    ensures var after := AfterSave(patients, p, Updated);
      && Details(after, Some(p.patientId)) == ViewOf(p)
      && (k != p.patientId ==> Details(after, Some(k)) == Details(patients, Some(k)))
  {
  }

  /** After DeleteConfirmed removes a patient, every GET on it is NotFound. */
  lemma DeletedPatientIsNotFound(patients: map<int, Patient>, k: int)
    ensures Details(patients - {k}, Some(k)) == NotFound
    ensures EditForm(patients - {k}, Some(k), false) == NotFound
    ensures DeleteForm(patients - {k}, Some(k), false) == NotFound
  {
  }

  /** POST Create with the PatientId of an existing patient (PatientId is among the
      bound properties) overwrites that patient instead of adding one. */
  lemma CreateWithExistingIdOverwrites(patients: map<int, Patient>, users: set<UserId>, nextId: int, p: Patient, dbRejects: bool)
    requires p.patientId != 0 && p.patientId in patients
    requires !dbRejects && PatientColumnsFit(p) && UserKnown(users, p) && !UserTaken(patients, p, p.patientId)
    ensures SaveResult(patients, users, nextId, p, dbRejects) == Updated
    ensures AfterSave(patients, p, Updated).Keys == patients.Keys
    ensures AfterSave(patients, p, Updated)[p.patientId] == p
  {
  }

  /** A second patient for a user who already has one is never saved. */
  lemma SecondPatientForUserRejected(patients: map<int, Patient>, users: set<UserId>, nextId: int, p: Patient, dbRejects: bool, k: int)
    requires k in patients && patients[k].userId == p.userId && k != SaveKey(nextId, p)
    ensures SaveResult(patients, users, nextId, p, dbRejects) in {ConcurrencyConflict, Rejected}
  {
  }

  /** FK_Patients_AspNetUsers_UserId: a patient whose UserId names no user is never
      saved, so POST Create shows the form with an error for it. */
  lemma UnknownUserRejected(patients: map<int, Patient>, users: set<UserId>, nextId: int, p: Patient, dbRejects: bool)
    requires p.userId.Some? && p.userId.value !in users
    ensures SaveResult(patients, users, nextId, p, dbRejects) in {ConcurrencyConflict, Rejected}
  {
  }

  /** The form GET Create offers is bound to the user but fails validation
      until it is filled in: Nom, Prenom, NAM and CodePostal are Required, and
      the implicitly required UserId fails only for a blank user id. */
  lemma BlankFormFailsValidation(userId: UserId, birthDateOk: bool)
    ensures !IsValid(BlankPatient(userId), birthDateOk)
    ensures Errors(BlankPatient(userId), birthDateOk).Keys ==
      {Nom, Prenom, NAM, CodePostal}
      + (if birthDateOk then {} else {DateDeNaissance})
      + (if RequiredHolds(Some(userId)) then {} else {UserIdField})
  {
    var e := Errors(BlankPatient(userId), birthDateOk);
    assert Nom in e;
    var expected := {Nom, Prenom, NAM, CodePostal}
      + (if birthDateOk then {} else {DateDeNaissance})
      + (if RequiredHolds(Some(userId)) then {} else {UserIdField});
    forall f | f in AllFields
      ensures f in e <==> f in expected
    {
    }
    assert e.Keys == expected;
  }
}
