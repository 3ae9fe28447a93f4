# Clinique 2000: patient validation, patient controller and the `init` schema

This project models three parts of the Clinique 2000 web application (ASP.NET
Core MVC with Entity Framework Core on SQL Server) in Dafny and proves
properties of the models.

- **Patient validation** (`validation.dfy`). The data-annotation attributes on
  the `Patient` entity are hand-written predicates over character sequences:
  `Required`, `StringLength`, `RegularExpression`, the binding errors of the
  value types `DateDeNaissance` and `Age`, and the implicit `Required` that MVC
  puts on the non-nullable `string UserId`. `Errors` gives ModelState's error entries and
  `IsValid` gives `ModelState.IsValid`. A property whose binding produced null
  is `None`. MVC turns an empty form field into null.
- **PatientsController** (`patients_controller.dfy`). The GET actions are
  functions of the patient map. The POST actions are methods of a
  `PatientStore` class. That class holds the Patients table as a
  `map<int, Patient>`, the keys of AspNetUsers, and the next identity value.
  Every INSERT takes that value, including one that fails. The invariant is
  the table's rules: NOT NULL columns, column widths, every UserId naming a
  user, and one patient per user.
  Each action returns an `ActionResult`: NotFound, a view, a form, a redirect,
  or a form with a model-state error.
- **The `init` migration** (`init_migration.dfy`, `init_properties.dfy`).
  - The fifteen tables and their foreign keys, each key with its `onDelete`
    rule. Cascade applies where the migration declares it; otherwise EF's
    default, NO ACTION, applies.
  - The sixteen indexes, four of them unique. Two of those, IX_Cliniques_AdresseID
    and IX_Patients_UserId, are on columns the model holds and are checked.
  - Typed row maps for the tables that hold data.
  - A `Database` class whose invariant covers two things. For the schema:
    referenced tables exist, and indexes sit on existing tables. For the rows:
    rows live only in existing tables, NOT NULL and widths hold, every foreign
    key names an existing row, and every created unique index holds.
  - The class's methods:
    - `CreateTable`, `DropTable` and `CreateIndex`, each with SQL Server's
      refusal conditions as preconditions;
    - `Insert`, which is all or nothing;
    - `Delete`, which follows the cascade and is refused when a NO ACTION key
      still references a removed row;
    - `Up` and `Down`, written as the migration's step sequences.

What is proved, in short:
- **NAM, postal codes and names.** A NAM is accepted exactly when it is four
  ASCII letters followed by eight digits. A postal code is accepted exactly
  when it has the shape `A1A 1A1`. Names are accepted exactly when they are
  2 to 25 ASCII letters with no spaces. The seeded NAMs (written with spaces,
  14 characters) fit the nvarchar(14) column but fail the form.
- **Required fields, Genre and Age.** A missing or blank required string,
  UserId included, is rejected by Required. An empty or unparsable date or
  age is a binding error; a date or age absent from the post keeps its
  default value and no error. Genre is never checked, and Age is never compared
  with DateDeNaissance. Each field's verdict depends on that field alone.
- **GET actions.** Details, Edit and Delete return NotFound exactly when the
  id is missing or names no patient. Otherwise they show exactly that
  patient. A null id is NotFound before any read; Edit and Delete redirect
  to Index only when the read of a present id fails.
- **Create GET.** It redirects to the details of the user's existing patient.
  A user with no patient gets a blank form bound to their id.
- **Redirects on POST.** The POST actions redirect only after a successful
  save. Every other outcome leaves the patients unchanged. A refused INSERT
  still uses up its identity value.
- **Edit POST errors.** Edit POST returns NotFound on a route/body id mismatch.
  It also returns NotFound on a concurrency conflict when no patient has the
  NAM.
- **DeleteConfirmed.** It removes exactly the named patient.
- **Partner lemmas.**
  - A saved patient is what Details then shows.
  - Create GET then redirects to the saved patient.
  - A deleted patient is NotFound afterwards.
- **Create and a bound PatientId.** Because PatientId is among Create's bound
  properties, Create with an existing PatientId overwrites that patient.
- **Up and Down order.** Up creates each table after every table it
  references. Down drops each table before every table it references.
  `Up` ends with every table, the seed rows and all sixteen indexes, and
  `Down` ends with nothing, so Down undoes Up.
- **Insert and delete.** Insert and cascading delete keep the invariant.
  The cascade set is characterised exactly. Deleting a clinic reaches its
  lists and their time slots. Deleting a user reaches the user's patient and
  its dependants.
- **NO ACTION keys.** A patient, or a clinic whose slot a consultation books,
  cannot be deleted. Deleting a consultation is never blocked.
- **Seed rows.**
  - The seed rows satisfy every column rule, every foreign key, and the two
    unique indexes on modelled columns.
  - List 1's twelve slots are contiguous 30-minute intervals from 08:00 to
    14:00.
  - Slot 1 holds two consultations.
  - On the seed, deleting clinic 2 removes exactly lists 2 and 8.
  - On the seed, deleting clinic 1 or patient 1 is blocked.

Consultations in the `init` migration:
- the indexes on `Consultations.PatientID` and `Consultations.PlageHoraireID`
  are non-unique;
- all three Consultations foreign keys are NO ACTION;
- the seed books two consultations on slot 1.

`SharedReferencesAdmitted`, `SeedSlotOneBookedTwice` and
`ReferencedPatientDeleteBlocked` state these facts.

## Model

| member | source | states |
|---|---|---|
| ValidationProperties.NamAcceptedIff | Clinique_2000_E04/Clinique2000_Core/Models/Patient.cs:30-33 | NAM has no error iff it is 4 ASCII letters then 8 digits; an accepted NAM has length 12 and meets the max-12 rule |
| ValidationProperties.PostalCodeAcceptedIff | Clinique_2000_E04/Clinique2000_Core/Models/Patient.cs:35-38 | CodePostal has no error iff it is letter, digit, letter, space, digit, letter, digit; an accepted code has length 7 |
| ValidationProperties.NameAcceptedIff | Clinique_2000_E04/Clinique2000_Core/Models/Patient.cs:18-26 | Nom and Prenom have no error iff they are 2 to 25 ASCII letters |
| ValidationProperties.MissingRejectedOnlyByRequired | Clinique_2000_E04/Clinique2000_Core/Models/Patient.cs:18-50 | a null Nom, Prenom, NAM, CodePostal or UserId fails Required and nothing else; a DateDeNaissance or Age that could not be bound fails as a binding error only |
| ValidationProperties.BlankRejected | Clinique_2000_E04/Clinique2000_Core/Models/Patient.cs:18-50 | an empty or white-space string fails Required on every required string property, the implicitly required UserId included |
| ValidationProperties.GenreAndAgeUnchecked | Clinique_2000_E04/Clinique2000_Core/Models/Patient.cs:28-47 | Genre never fails; a present Age never fails, whatever DateDeNaissance holds |
| ValidationProperties.IsValidIff | Clinique_2000_E04/Clinique2000_Core/Models/Patient.cs:13-50 | ModelState is valid iff no field has an error, where the fields include the implicitly required UserId |
| ValidationProperties.FieldsIndependent | Clinique_2000_E04/Clinique2000_Core/Models/Patient.cs:16-50 | a field's verdict depends only on that field's value (and, for DateDeNaissance, on the date validator's verdict) |
| ValidationProperties.NamExamples | Clinique_2000_E04/Clinique2000_Core/Models/Patient.cs:31-32 | "ABCD12345678" is accepted; "EASC 2342 4332" fails both the pattern and the length |
| ValidationProperties.PostalCodeExample | Clinique_2000_E04/Clinique2000_Core/Models/Patient.cs:36-37 | "A1A 1A1" is accepted |
| Validation.MatchesShape | Clinique_2000_E04/Clinique2000_Core/Models/Patient.cs:31 | a fixed-shape anchored pattern matches iff the string has the shape's length and each character is in its position's class |
| Validation.AllIn | Clinique_2000_E04/Clinique2000_Core/Models/Patient.cs:20 | `[A-Za-z]*` matches iff every character is an ASCII letter |
| PatientsController.Details | Clinique_2000_E04/Clinique2000_MVC/Areas/Patients/Controllers/PatientsController.cs:41-54 | NotFound iff the id is null or names no patient; otherwise the view of exactly that patient |
| PatientsController.EditForm | Clinique_2000_E04/Clinique2000_MVC/Areas/Patients/Controllers/PatientsController.cs:98-118 | NotFound for a null id, before any read; for a present id, Index when the read fails, otherwise NotFound iff no such patient, else the edit form of exactly that patient |
| PatientsController.DeleteForm | Clinique_2000_E04/Clinique2000_MVC/Areas/Patients/Controllers/PatientsController.cs:161-182 | NotFound for a null id, before any read; for a present id, Index when the read fails, otherwise NotFound iff no such patient, else the confirmation view of exactly that patient |
| PatientsController.PatientIdOfUser | Clinique_2000_E04/Clinique2000_MVC/Areas/Patients/Controllers/PatientsController.cs:72 | the user's patient is a key of the store whose row carries that user id |
| PatientsController.CreateForm | Clinique_2000_E04/Clinique2000_MVC/Areas/Patients/Controllers/PatientsController.cs:57-74 | a form holding exactly the blank patient bound to the user's id (PatientId 0) iff the user has no patient; otherwise a redirect to the details of the user's patient |
| PatientsController.SaveResult | Clinique_2000_E04/Clinique2000_MVC/Areas/Patients/Controllers/PatientsController.cs:85 | a save of a PatientId that is neither 0 nor stored is a concurrency conflict; a save succeeds iff the database accepts the row (NOT NULL and widths, a UserId naming an AspNetUsers row, no other patient of that user, no outside refusal); a success inserts under the next identity value exactly when PatientId is 0 |
| PatientsController.AfterSave | Clinique_2000_E04/Clinique2000_MVC/Areas/Patients/Controllers/PatientsController.cs:136 | a success adds or replaces exactly the row of its key, which then holds the saved patient under that key; every other row is kept unchanged; a failure changes nothing |
| PatientsController.PatientStore.Save | Clinique_2000_E04/Clinique2000_MVC/Areas/Patients/Controllers/PatientsController.cs:85 | the patients after the save are AfterSave of its outcome; every INSERT attempt, failed or not, uses up one identity value; the users are unchanged and the table rules, the foreign key to AspNetUsers included, still hold |
| PatientsController.PatientStore.CreatePost | Clinique_2000_E04/Clinique2000_MVC/Areas/Patients/Controllers/PatientsController.cs:79-95 | an invalid model gives the form and no change; a valid one redirects to Index after a successful save and gives the form with an error after any failure (an unknown user included); the patients change only when it redirects; the identity value advances exactly when a valid model with PatientId 0 is sent |
| PatientsController.PatientStore.EditPost | Clinique_2000_E04/Clinique2000_MVC/Areas/Patients/Controllers/PatientsController.cs:123-158 | a route id unlike PatientId gives NotFound and no change; an invalid model gives the form; a concurrency conflict gives NotFound iff no patient has the NAM, else the form with an error, as does any other failure; success redirects to Index; the identity value advances exactly when a valid model with PatientId 0 is sent |
| PatientsController.PatientStore.DeleteConfirmed | Clinique_2000_E04/Clinique2000_MVC/Areas/Patients/Controllers/PatientsController.cs:188-204 | removes exactly the named patient when it exists and redirects to Index either way; a failing delete gives the error view and removes nothing; the other patients are unchanged |
| PatientsController.SaveKeepsValid | Clinique_2000_E04/Clinique2000_MVC/Areas/Patients/Controllers/PatientsController.cs:85 | every save outcome keeps the Patients table rules: NOT NULL and widths, the foreign key to AspNetUsers, one patient per user, keys below the identity value |
| PatientsController.InsertedPatientIsShown | Clinique_2000_E04/Clinique2000_MVC/Areas/Patients/Controllers/PatientsController.cs:41-95 | after a Create save, Details of the new key shows the saved patient and Create GET for its user redirects to it |
| PatientsController.UpdatedPatientIsShown | Clinique_2000_E04/Clinique2000_MVC/Areas/Patients/Controllers/PatientsController.cs:41-158 | after an Edit save, Details shows the new row under its key and every other key as before |
| PatientsController.DeletedPatientIsNotFound | Clinique_2000_E04/Clinique2000_MVC/Areas/Patients/Controllers/PatientsController.cs:41-204 | after DeleteConfirmed removes a patient, Details, Edit and Delete of its id are NotFound |
| PatientsController.CreateWithExistingIdOverwrites | Clinique_2000_E04/Clinique2000_MVC/Areas/Patients/Controllers/PatientsController.cs:79-85 | a Create that binds the PatientId of a stored patient updates that patient and adds no key |
| PatientsController.SecondPatientForUserRejected | Clinique_2000_E04/Clinique2000_MVC/Areas/Patients/Controllers/PatientsController.cs:57-95 | a save that would give a user a second patient never succeeds |
| PatientsController.UnknownUserRejected | Clinique_2000_E04/Clinique2000_MVC/Areas/Patients/Controllers/PatientsController.cs:79-95 | a save whose UserId names no AspNetUsers row never succeeds, so Create shows the form with an error |
| PatientsController.BlankFormFailsValidation | Clinique_2000_E04/Clinique2000_MVC/Areas/Patients/Controllers/PatientsController.cs:65-70 | the blank Create form fails on exactly Nom, Prenom, NAM and CodePostal, plus DateDeNaissance when the date validator refuses the default date, plus UserId when the user id is blank |
| InitMigration.Extend | Clinique_2000_E04/Clinique2000_DataAccess/Migrations/20240130021022_init.cs:360-519 | an InsertData batch changes only the table it targets |
| InitMigration.CascadeClosure | Clinique_2000_E04/Clinique2000_DataAccess/Migrations/20240130021022_init.cs:215-322 | a row is removed iff it is the target or references a removed row through a Cascade key; nothing cascades into Consultations |
| InitMigration.Database.constructor | Clinique_2000_E04/Clinique2000_DataAccess/Migrations/20240130021022_init.cs:10 | the database before any migration is empty and valid |
| InitMigration.Database.CreateTable | Clinique_2000_E04/Clinique2000_DataAccess/Migrations/20240130021022_init.cs:194-227 | a table whose referenced tables exist is added, rows and indexes unchanged |
| InitMigration.Database.DropTable | Clinique_2000_E04/Clinique2000_DataAccess/Migrations/20240130021022_init.cs:610-654 | a table no other table references is removed with its rows and indexes, keeping the invariant |
| InitMigration.Database.CreateIndex | Clinique_2000_E04/Clinique2000_DataAccess/Migrations/20240130021022_init.cs:521-605 | an index on an existing table is added when the data satisfies it (unique ones: 560-564, 596-600) |
| InitMigration.Database.Insert | Clinique_2000_E04/Clinique2000_DataAccess/Migrations/20240130021022_init.cs:360-519 | succeeds iff the table exists and the batch is admissible (fresh keys, NOT NULL and widths, existing references, unique indexes), and then adds exactly the batch; otherwise nothing changes |
| InitMigration.Database.Delete | Clinique_2000_E04/Clinique2000_DataAccess/Migrations/20240130021022_init.cs:215-357 | succeeds iff the table exists and no surviving consultation references a removed row, and then removes exactly the cascade set; otherwise nothing changes |
| InitMigration.Database.Up | Clinique_2000_E04/Clinique2000_DataAccess/Migrations/20240130021022_init.cs:10-606 | from an empty database: all fifteen tables, exactly the seed rows, exactly the sixteen indexes, invariant kept |
| InitMigration.Database.CreateTables | Clinique_2000_E04/Clinique2000_DataAccess/Migrations/20240130021022_init.cs:12-358 | the CreateTable calls in order create every table, each after the tables it references |
| InitMigration.Database.InsertSeed | Clinique_2000_E04/Clinique2000_DataAccess/Migrations/20240130021022_init.cs:360-519 | every InsertData call is admitted and the rows become the seed rows |
| InitMigration.Database.InsertSeedAccounts | Clinique_2000_E04/Clinique2000_DataAccess/Migrations/20240130021022_init.cs:360-441 | the Adresses, AspNetUsers, Cliniques and Patients batches are admitted in order |
| InitMigration.Database.InsertSeedSchedule | Clinique_2000_E04/Clinique2000_DataAccess/Migrations/20240130021022_init.cs:443-519 | the ListeAttentes, PlagesHoraires and Consultations batches are admitted in order |
| InitMigration.Database.CreateIndexes | Clinique_2000_E04/Clinique2000_DataAccess/Migrations/20240130021022_init.cs:521-605 | the CreateIndex calls in order create exactly the sixteen indexes |
| InitMigration.Database.Down | Clinique_2000_E04/Clinique2000_DataAccess/Migrations/20240130021022_init.cs:608-654 | the DropTable calls in order are all allowed and leave no table, index or row |
| InitMigration.CreationOrderRanks | Clinique_2000_E04/Clinique2000_DataAccess/Migrations/20240130021022_init.cs:12-358 | the i-th CreateTable call creates the table of creation rank i, and only that table has rank i |
| InitMigration.DropOrderRanks | Clinique_2000_E04/Clinique2000_DataAccess/Migrations/20240130021022_init.cs:610-653 | the i-th DropTable call drops the table of drop rank i, and only that table has rank i |
| InitMigration.CreationOrderIsTopological | Clinique_2000_E04/Clinique2000_DataAccess/Migrations/20240130021022_init.cs:12-358 | every referenced table is created before the table that references it |
| InitMigration.DropOrderIsReverseTopological | Clinique_2000_E04/Clinique2000_DataAccess/Migrations/20240130021022_init.cs:610-653 | every table is dropped before the tables it references |
| InitMigration.DropStepAllowed | Clinique_2000_E04/Clinique2000_DataAccess/Migrations/20240130021022_init.cs:610-653 | when Down reaches a table it exists and no remaining table references it |
| InitMigration.NoTableLeft | Clinique_2000_E04/Clinique2000_DataAccess/Migrations/20240130021022_init.cs:608-654 | with every table dropped there is no index and no row |
| InitMigration.PrincipalsAreForeignKeyTargets | Clinique_2000_E04/Clinique2000_DataAccess/Migrations/20240130021022_init.cs:88-358 | the tables a table depends on are exactly the principals of its declared foreign keys |
| InitMigration.DropKeepsSchema | Clinique_2000_E04/Clinique2000_DataAccess/Migrations/20240130021022_init.cs:610-653 | dropping an unreferenced table keeps every remaining table's references inside the schema |
| InitMigration.UnreferencedTableHasNoReferencingRows | Clinique_2000_E04/Clinique2000_DataAccess/Migrations/20240130021022_init.cs:610-653 | when no other table references a table, no row references its rows |
| InitMigration.DropKeepsIntegrity | Clinique_2000_E04/Clinique2000_DataAccess/Migrations/20240130021022_init.cs:610-653 | emptying an unreferenced table keeps every row rule |
| InitMigration.IndexesDistinct | Clinique_2000_E04/Clinique2000_DataAccess/Migrations/20240130021022_init.cs:521-605 | each CreateIndex call names a new index on a created table |
| InitMigration.CreateIndexStep | Clinique_2000_E04/Clinique2000_DataAccess/Migrations/20240130021022_init.cs:521-605 | each CreateIndex call extends the set of created indexes by exactly the next one |
| InitMigration.InsertKeepsIntegrity | Clinique_2000_E04/Clinique2000_DataAccess/Migrations/20240130021022_init.cs:360-519 | an admissible batch keeps the column rules, the foreign keys and the created unique indexes |
| InitMigration.DeleteKeepsIntegrity | Clinique_2000_E04/Clinique2000_DataAccess/Migrations/20240130021022_init.cs:215-357 | a cascading delete that no NO ACTION key blocks keeps every row rule |
| InitMigration.DeleteKeepsForeignKeys | Clinique_2000_E04/Clinique2000_DataAccess/Migrations/20240130021022_init.cs:215-357 | after such a delete every foreign key still names an existing row |
| InitMigration.SeedPatientsFit | Clinique_2000_E04/Clinique2000_DataAccess/Migrations/20240130021022_init.cs:415-441 | every seeded patient fills the NOT NULL columns within their widths |
| InitMigration.SeedConsultationsAdmitted | Clinique_2000_E04/Clinique2000_DataAccess/Migrations/20240130021022_init.cs:493-519 | the consultation batch is admissible on the rows inserted before it (each names an existing slot 1-12 and patient 1-21) and inserting it yields exactly the seed rows |
| InitMigration.SeedCliniquesAdmitted | Clinique_2000_E04/Clinique2000_DataAccess/Migrations/20240130021022_init.cs:402-413 | the clinic batch is admissible after the addresses and users (widths, existing address and creator) and inserting it changes only Cliniques |
| InitMigration.SeedUnique | Clinique_2000_E04/Clinique2000_DataAccess/Migrations/20240130021022_init.cs:402-441 | the seeded clinics have distinct addresses and the seeded patients distinct users |
| InitMigrationProperties.OnlyConsultationKeysAreNoAction | Clinique_2000_E04/Clinique2000_DataAccess/Migrations/20240130021022_init.cs:343-357 | a foreign key is NO ACTION iff it belongs to Consultations; all others cascade |
| InitMigrationProperties.OrderEndpoints | Clinique_2000_E04/Clinique2000_DataAccess/Migrations/20240130021022_init.cs:12-653 | Consultations is created last, AspNetUsers dropped last, Cliniques created after Adresses and AspNetUsers |
| InitMigrationProperties.SecondPatientOfUserRefused | Clinique_2000_E04/Clinique2000_DataAccess/Migrations/20240130021022_init.cs:596-600 | with IX_Patients_UserId in place, a second patient for a user is refused |
| InitMigrationProperties.SecondCliniqueAtAdresseRefused | Clinique_2000_E04/Clinique2000_DataAccess/Migrations/20240130021022_init.cs:560-564 | with IX_Cliniques_AdresseID in place, a second clinic at an address is refused |
| InitMigrationProperties.SharedReferencesAdmitted | Clinique_2000_E04/Clinique2000_DataAccess/Migrations/20240130021022_init.cs:571-584 | no index on Consultations is unique, so consultations sharing a slot or patient are admitted |
| InitMigrationProperties.ConsultationDeleteNeverBlocked | Clinique_2000_E04/Clinique2000_DataAccess/Migrations/20240130021022_init.cs:325-358 | deleting a consultation removes it alone and is never blocked |
| InitMigrationProperties.ReferencedPatientDeleteBlocked | Clinique_2000_E04/Clinique2000_DataAccess/Migrations/20240130021022_init.cs:349-351 | a patient that a consultation references cannot be deleted |
| InitMigrationProperties.CliniqueDeleteReachesPlages | Clinique_2000_E04/Clinique2000_DataAccess/Migrations/20240130021022_init.cs:272-322 | deleting a clinic removes its waiting lists and their time slots |
| InitMigrationProperties.UserDeleteReachesDependants | Clinique_2000_E04/Clinique2000_DataAccess/Migrations/20240130021022_init.cs:247-301 | deleting a user removes the user's patient and that patient's dependants |
| InitMigrationProperties.BookedSlotBlocksCliniqueDelete | Clinique_2000_E04/Clinique2000_DataAccess/Migrations/20240130021022_init.cs:317-357 | a clinic cannot be deleted while a consultation books a slot of one of its lists |
| InitMigrationProperties.SeedRowsKeepIntegrity | Clinique_2000_E04/Clinique2000_DataAccess/Migrations/20240130021022_init.cs:360-519 | the seed rows satisfy every column rule, every foreign key, and the unique indexes IX_Cliniques_AdresseID and IX_Patients_UserId |
| InitMigrationProperties.SeedAccountsKeepIntegrity | Clinique_2000_E04/Clinique2000_DataAccess/Migrations/20240130021022_init.cs:360-441 | the address, user, clinic and patient seed rows satisfy every row rule |
| InitMigrationProperties.FourteenCharacterNamRejected | Clinique_2000_E04/Clinique2000_DataAccess/Migrations/20240130021022_init.cs:238 | a 14-character NAM fits the column but fails the 12-character form rule |
| InitMigrationProperties.SeedPatientFailsForm | Clinique_2000_E04/Clinique2000_DataAccess/Migrations/20240130021022_init.cs:420 | the first seeded patient fits the columns but fails NAM's pattern and length on the form |
| InitMigrationProperties.SeedSlotsContiguous | Clinique_2000_E04/Clinique2000_DataAccess/Migrations/20240130021022_init.cs:479-490 | list 1's slots follow one another without gaps from 08:00 to 14:00 |
| InitMigrationProperties.SeedSlotsLastThirtyMinutes | Clinique_2000_E04/Clinique2000_DataAccess/Migrations/20240130021022_init.cs:443-491 | every seeded slot belongs to list 1 and lasts its 30-minute consultation length |
| InitMigrationProperties.SeedSlotOneBookedTwice | Clinique_2000_E04/Clinique2000_DataAccess/Migrations/20240130021022_init.cs:498-499 | consultations 1 and 2 both book slot 1 |
| InitMigrationProperties.UnbookedCliniqueDelete | Clinique_2000_E04/Clinique2000_DataAccess/Migrations/20240130021022_init.cs:272-357 | deleting a clinic whose lists hold no slot removes exactly the clinic and its lists, unblocked when no consultation names a list |
| InitMigrationProperties.SeedCliniqueTwoDelete | Clinique_2000_E04/Clinique2000_DataAccess/Migrations/20240130021022_init.cs:443-472 | on the seed, deleting clinic 2 removes exactly lists 2 and 8 and no slot |
| InitMigrationProperties.SeedCliniqueOneDeleteBlocked | Clinique_2000_E04/Clinique2000_DataAccess/Migrations/20240130021022_init.cs:474-498 | on the seed, deleting clinic 1 is blocked by consultation 1 on slot 1 |
| InitMigrationProperties.SeedPatientOneDeleteBlocked | Clinique_2000_E04/Clinique2000_DataAccess/Migrations/20240130021022_init.cs:498 | on the seed, deleting patient 1 is blocked by consultation 1 |
| InitMigrationProperties.UpThenDown | Clinique_2000_E04/Clinique2000_DataAccess/Migrations/20240130021022_init.cs:10-654 | Up followed by Down returns an empty database to the same empty state |

## Left out

- External inputs. Four things the code gets from outside are parameters:
  - the signed-in user's id, which the code reads through `UserManager` and
    the e-mail claim;
  - the verdict of `ValiderDateDeNaissance`, whose code is not part of this
    model;
  - a failing read in GET Edit and GET Delete, which only a present id can
    reach;
  - an outside refusal of a save or delete (`dbRejects`). This stands for a
    lost connection, and for a NO ACTION foreign key from Consultations on a
    patient delete. The foreign key from Patients to AspNetUsers is not part
    of it: the store checks that itself.
- The patient service. Its implementation is not part of this model. The
  model assumes that `EnregistrerOuModifierPatient` inserts when PatientId
  is 0 and otherwise updates the row with that key. EF then raises
  DbUpdateConcurrencyException when the row is missing.
- `Index`. It lists all patients and makes no decision, so it is not
  modelled.
- The null test on `ObtenirToutAsync()`. The service returns a collection,
  so the test never fires and the model leaves it out.
- Failures in Details and DeleteConfirmed. A failing read there is not
  modelled. In DeleteConfirmed only a failing `SupprimerAsync` leads to the
  error view. A read failure in Details would propagate as an unhandled
  exception.
- Regular-expression semantics. The three patterns are hand-written
  predicates. `\d` is read as the ASCII digits 0-9, while .NET's `\d` also
  matches other Unicode decimal digits. White space for Required is ASCII
  white space only.
- Model binding and messages. An empty or unparsable DateDeNaissance or Age
  gives None and the `Unbound` rule; a field absent from the post keeps its
  default (`Some(Date(1, 1, 1))`, `Some(0)`) with no error. The `ErrorMessage`
  texts of the attributes are not modelled, only which rule fails. Anti-forgery tokens, views,
  async/await and EF change tracking are left out.
- PatientId and route-id binding errors. `patientId` is an `int`, so a bound
  PatientId or an Edit POST route `id` that cannot be parsed is not
  expressible. In the code such a value leaves the default 0 and adds a
  binding error that makes `ModelState.IsValid` false; the model takes every
  PatientId and route id as bound.
- Identity tables. They take part in creation, drop and foreign keys only.
  Of their rows only the keys of AspNetUsers are kept, so deleting a user
  cascades to Cliniques and Patients. Roles, claims, logins and tokens hold
  no rows in the model.
- AdressesQuebec. It has no foreign key and no seed, and its
  Latitude/Longitude are floating point. Only the table exists in the model.
  Its rows are not modelled.
- Column types. Column types other than NOT NULL and string widths are left
  out. This covers datetime2, time, bit and the range of int. The
  `DateCreation`/`DateModification` stamps of Cliniques and the other
  nullable audit columns are not modelled.
- Seed GUIDs and local-time `AddTicks` timestamps. These are not modelled.
  The seeded user ids are written as a shared stem plus a suffix, which is
  only notation. `Tag` and `SeedPatientOf` are proof devices, not part of
  the application.
- SQL Server identity generation in the `Database` class. Inserts carry
  explicit keys, as the seed does. The `PatientStore` models the identity
  value of Patients: every INSERT takes the next value, whether it succeeds
  or not. A save refused before its INSERT reaches the server is taken to
  use one up too. Gaps from identity caching across server restarts are not
  modelled.
- SQL Server collation and string length. Keys and foreign-key values are
  compared with exact equality: IX_Patients_UserId, the foreign keys,
  `UserTaken` and `NamExists`. SQL Server's default case-insensitive
  collation also ignores case and trailing spaces there. `Fits` and the
  `StringLength` rule count characters (Dafny `char`s), while nvarchar and
  .NET strings count UTF-16 code units. The two differ for characters outside
  the Basic Multilingual Plane.
- The unique indexes RoleNameIndex and UserNameIndex. They are created, but
  their uniqueness is never checked, because the model keeps neither
  `NormalizedName` nor `NormalizedUserName`.
- SeedRowsKeepIntegrity: covers IX_Cliniques_AdresseID and IX_Patients_UserId
  only, not the uniqueness of the seeded users' `NormalizedUserName` under
  UserNameIndex, because that column is not modelled. No roles are seeded.
- The cascade's internal order. A cascading delete is one atomic statement,
  and the model checks the NO ACTION keys against the final cascade set.
  The order in which SQL Server removes rows within the statement is not
  observable and is not modelled.
- Concurrency between requests. Each action runs alone on the store.
- Database.CreateIndex: a creation that fails on duplicate data is a
  precondition, not an error result, because the migration never runs into
  it.
- The older `migrationFix` snapshot. It is superseded by `init` and is not
  part of this model.
