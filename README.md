# pnc-admin business rules in Dafny

pnc-admin is the back-office API of an EV-charging network. This project models its business-rule layer, which sits above the MySQL repositories and the Google Geocoding API:

- `MerchantService`: charge-point operators (CPOs), RFID cards, top-ups, account status, company partners, party ids.
- `EVSEService`: EVSE registration inside a database transaction, and binding an EVSE to a location.
- `LocationService`: location registration from a geocoded address, and binding a location to a CPO.
- `ConnectorRepository`: connector rows and timeslot rows.
- `RoleManagementMiddleware`: the role check.

Every collaborator the services call is one `DataStore.Store`. This includes the stored procedures, the inserts, the audit trail, the mailer, the geocoder and the transaction connection.

The store has two parts:

- an `oracle`, which fixes how each call settles: it resolves with a value or rejects with an error, given the calls made before it;
- a `trace` of the calls made so far.

Each workflow is specified by a function `XRun(oracle, history, inputs)`. It returns how the workflow settles and the calls it makes, in order.

- The class method's contract ties the method to that function. The method returns the function's outcome, and the store's trace grows by exactly the function's calls.
- Lemmas about the function state what the service promises. Examples: which calls happen and in what order; which audit entries are appended (`Workflow.AuditsOf`); when the result is "SUCCESS"; and which error is rethrown.

The modules are:

- `Common`: JavaScript values and truthiness;
- `Text`: ASCII upper-casing, trimming and white-space removal;
- `Geocoding`: the geocoder's response;
- `DataStore`: calls, the oracle and the store;
- `Workflow`: the shared try/audit/catch skeleton;
- `CpoInput`: validators and the SET clause;
- `PartyIdGenerator`;
- `ConnectorRepository`;
- `MerchantService`, `EVSEService` and `LocationService`;
- `RoleManagement`.

## Model

| member | source | states |
|---|---|---|
| Common.OrNull | services/LocationService.js:145 | `v \|\| null`: the value itself when truthy, `null` otherwise |
| Common.LookupSpec | services/MerchantService.js:58-61 | reading a property of a request object yields the first entry with that key, or `undefined` when there is none |
| Common.NatToString | services/MerchantService.js:289 | a whole number inserted into a template literal is written in decimal without a leading zero, and its digits denote that number |
| Common.StringsOf | services/MerchantService.js:703-716 | the party ids read from the partner rows are exactly the string-valued ones |
| Text.UpperSpec | services/MerchantService.js:704-707 | upper-casing keeps the length and maps every character on its own |
| Text.UpperIsUpperCased | services/LocationService.js:125 | an upper-cased string has no lower-case letter, and upper-casing it again changes nothing |
| Text.Take | services/LocationService.js:124 | `slice(0, n)` is the prefix of length min(n, length) |
| Text.TrimSpec | services/LocationService.js:126 | `trim()` yields a string no longer than its input that neither starts nor ends with white space |
| Text.TrimKeepsUpperCased | services/LocationService.js:124-126 | trimming after upper-casing leaves the result upper-cased |
| Text.StripWhitespaceSpec | services/MerchantService.js:704-705 | `replace(/\s+/g, "")` leaves no white space, keeps every other character of the input, and leaves a string without white space unchanged |
| Text.StripWhitespaceConcat | services/MerchantService.js:704-705 | stripping a concatenation strips each part, so the kept characters stay in order and keep their multiplicity |
| Geocoding.AddressComponents | services/LocationService.js:102-107 | `results[0]?.address_components` is missing exactly when there is no first result or it has no components |
| Geocoding.Find | services/LocationService.js:110-112 | `find` returns the first component whose types include the tag; it returns nothing exactly when no component has the tag |
| DataStore.Store.Status | services/MerchantService.js:321-346 | a procedure call answers as the oracle says and is appended to the trace |
| DataStore.Store.Write | services/LocationService.js:143-203 | an insert, update or audit write answers as the oracle says and is appended to the trace |
| PartyIdGenerator.NormalizedNameSpec | services/MerchantService.js:704-707 | the normalised company name has no white space and no lower-case letter |
| PartyIdGenerator.Seed | services/MerchantService.js:709 | the seed is the first two characters of the normalised name, or all of it when shorter |
| PartyIdGenerator.GeneratePartyId | services/MerchantService.js:692-725 | the probing loop with `break` returns exactly `PartyId(name, ids)` |
| PartyIdGenerator.ProbeShape | services/MerchantService.js:712-722 | from index i on, the loop yields seed + n[k] for the least k whose candidate is not taken, or the bare seed when every candidate is taken |
| PartyIdGenerator.ProbeIsUpperCased | services/MerchantService.js:712-724 | every candidate the loop can return is upper-case |
| PartyIdGenerator.PartyIdStartsWithSeed | services/MerchantService.js:704-724 | the party id is upper-case, at most 3 characters long, and starts with the first two characters of the normalised name |
| PartyIdGenerator.PartyIdExtension | services/MerchantService.js:711-724 | the id has 3 characters exactly when some candidate n[..2] + n[i] with i ≥ 2 is free; it is then the least free candidate and collides with no existing id; otherwise it is the bare seed |
| PartyIdGenerator.ExhaustedProbeMayCollide | services/MerchantService.js:712-724 | when every candidate is taken, the bare seed comes back even if it is already an existing id |
| CpoInput.ContactNumberExamples | services/MerchantService.js:116-121 | the two numbers the error message gives pass the phone pattern; a number without its prefix, one digit too long, or with a letter does not |
| CpoInput.ContactNumberShape | services/MerchantService.js:116 | an accepted contact number is "+639" or "09" followed by exactly nine digits |
| CpoInput.UsernameExcludes | services/MerchantService.js:108 | an accepted username holds no space, quote, dot or hyphen |
| CpoInput.Join | services/MerchantService.js:190 | joining no parts gives the empty string; joining one part gives that part |
| CpoInput.JoinSnoc | services/MerchantService.js:190 | joining one more part appends the separator and that part |
| CpoInput.Assignments | services/MerchantService.js:273-277 | one `` ` k = 'v'` `` fragment per entry, in insertion order |
| CpoInput.BuildSetClause | services/MerchantService.js:271-282 | the loop that appends `` ` k = 'v',` `` and the final `slice(0, -1)` build the comma-separated SET clause; with no entries they would leave "SE" |
| CpoInput.JoinAppend | services/MerchantService.js:271-282 | joining two non-empty lists is joining each and putting one separator between them |
| CpoInput.SetClauseSplit | services/MerchantService.js:271-282 | cutting the entries at any point cuts the clause at a comma there, so the assignments appear in insertion order |
| ConnectorRepository.ConnectorRows | repository/ConnectorRepository.js:40-54 | one row per connector with ordinal position + 1 and the EVSE uid; `standard` fills both the standard and the connector type; the rate has " KW-H" appended; status is "AVAILABLE" |
| ConnectorRepository.ConnectorIdsAreDense | repository/ConnectorRepository.js:40-42 | the connector ordinals are 1..N in input order |
| ConnectorRepository.Band | repository/ConnectorRepository.js:107-120 | a band exists exactly for the numbers 7, 22, 60 and 80 (strict `switch`), and it lies within slots 1..27 |
| ConnectorRepository.BandsPartitionSlots | repository/ConnectorRepository.js:107-120 | the bands are 1..3, 4..11, 12..19 and 20..27, of sizes 3, 8, 8 and 8 |
| ConnectorRepository.ConnectorIds | repository/ConnectorRepository.js:101-104 | connector ids are lastInsertID + i for i < connectorsCount |
| ConnectorRepository.SlotRows | repository/ConnectorRepository.js:89-91 | the inner loop pushes `[uid, connectorID, j, "ONLINE"]` for j from the start id to the end id inclusive |
| ConnectorRepository.GridSnoc | repository/ConnectorRepository.js:88-92 | one more connector appends that connector's rows after the earlier ones |
| ConnectorRepository.GenerateTimeslots | repository/ConnectorRepository.js:87-93 | the nested loops push exactly the connector-major grid of rows |
| ConnectorRepository.AddTimeslots | repository/ConnectorRepository.js:78-120 | the values handed to the insert are the grid for the dense connector ids and the band of `kwh` |
| ConnectorRepository.GridSize | repository/ConnectorRepository.js:87-93 | the grid has (number of connectors) × (band size) rows |
| ConnectorRepository.GridAt | repository/ConnectorRepository.js:87-93 | row c × size + j is connector c's j-th slot |
| ConnectorRepository.TimeslotCount | repository/ConnectorRepository.js:87-120 | the timeslot row count is connectorsCount × band size |
| ConnectorRepository.TimeslotLayout | repository/ConnectorRepository.js:87-120 | the rows are grouped by connector with ascending slot ids, and each carries the uid and "ONLINE" |
| ConnectorRepository.UnknownKwhYieldsNoTimeslots | repository/ConnectorRepository.js:107-120 | any other `kwh`, including a string, gives no rows and no error |
| Workflow.AuditsOfConcat | services/LocationService.js:79-216 | the audit entries of two call sequences in a row are those of the first, then those of the second |
| Workflow.Caught | services/MerchantService.js:84-94 | the catch block writes one "failed" entry and rethrows the caught error, or the error of that write when the write rejects |
| Workflow.Audited | services/MerchantService.js:76-83 | the success audit at the end of a try block returns the value when it goes through; otherwise the catch block's "failed" entry follows it |
| Workflow.CaughtAudits | services/MerchantService.js:84-94 | a catch block appends exactly its one "failed" entry |
| Workflow.AuditedAudits | services/MerchantService.js:76-94 | a success audit leaves one entry when it goes through, and the success entry then the "failed" entry when it rejects |
| Workflow.Catch | services/MerchantService.js:84-94 | the catch block, performed on the store as `Caught` specifies |
| Workflow.AuditThen | services/MerchantService.js:76-83 | the final audit of a try block, performed on the store as `Audited` specifies |
| Workflow.StatusCall | services/MerchantService.js:321-346 | a status-checked stored procedure and its audit, performed on the store as `StatusRun` specifies |
| Workflow.StatusRunSpec | services/MerchantService.js:321-346 | the procedure is called once and first. The call resolves exactly when the status is "SUCCESS" and the success entry is written. A rejection or a non-"SUCCESS" status (thrown as `HttpBadRequest(status)`) always gives exactly one "failed" entry |
| MerchantService.RegisterCpoSpec | services/MerchantService.js:58-95 | the credentials mail is sent first. The call resolves to "SUCCESS" only after the procedure and exactly one success entry. A sent mail, a "SUCCESS" status and a written success entry make it resolve with "SUCCESS". A non-"SUCCESS" status is thrown as `BAD_REQUEST` carrying the status. A rejected mail or procedure is rethrown after one "failed" entry. The entries are [success], [failed] or [success, failed] |
| MerchantService.CheckRegisterCpoSpec | services/MerchantService.js:107-139 | an invalid username, contact number or email is rejected before any store call, each with its own code ("INVALID_USERNAME", "INVALID_CONTACT_NUMBER", "INVALID_CONTACT_EMAIL") and its own message. Otherwise exactly one check call is made: a "SUCCESS" status is returned, any other status is thrown as a bad request with that status, and a rejected check is rethrown. No audit entry is written |
| MerchantService.ColumnChecksCalls | services/MerchantService.js:212-265 | the checks run in rule order, one probe per rule, stopping only at a rejection |
| MerchantService.ColumnChecksErrors | services/MerchantService.js:212-268 | completed checks keep every earlier error and add only rule errors; no error is added exactly when no probe found its value |
| MerchantService.ColumnChecksRecordsHits | services/MerchantService.js:212-268 | when the checks complete, every rule whose probe counted more than zero rows has its key and code in the result, even if they were already there |
| MerchantService.ColumnChecksOnlyHits | services/MerchantService.js:212-268 | when the checks complete, every entry of the result was given or is the key and code of a rule whose probe counted more than zero rows |
| MerchantService.ColumnRulesHits | services/MerchantService.js:212-268 | for the five checks of `UpdateCPOByID`, probe i found a row exactly when rule i's key and code are among the collected errors |
| MerchantService.UpdateCpoRunsChecks | services/MerchantService.js:180-212 | with valid keys and some data, the update goes on to the five existence checks |
| MerchantService.UpdateCpoRejectsUnknownKey | services/MerchantService.js:180-191 | a key outside the five valid names writes only the "failed" entry and throws "Valid inputs are: …" |
| MerchantService.UpdateCpoWithoutChanges | services/MerchantService.js:193-202 | empty data writes the "no changes" success entry, runs no existence check and returns `NO_CHANGES_APPLIED` |
| MerchantService.UpdateCpoChecksFirst | services/MerchantService.js:204-268 | the 1 to 5 existence checks come first, in rule order. When they all complete there are exactly five, and the update follows them with the collected errors. The errors are empty exactly when nothing was found. Probe i found a row exactly when rule i's key and code are among the errors. Non-empty errors are thrown as `INVALID_REQUEST` with exactly those errors, after one "failed" entry and before any update |
| MerchantService.UpdateCpoCheckedSpec | services/MerchantService.js:267-307 | collected errors are thrown as `INVALID_REQUEST` with the error map before any update. Otherwise the SET-clause update runs; 0 affected rows throws `CPO_ID_DOES_NOT_EXISTS`. The result is "SUCCESS" exactly when rows were affected and the success entry was written |
| MerchantService.UpdateCpoCheckedAudits | services/MerchantService.js:267-307 | one entry, or a success entry then the "failed" one; the update resolves exactly when the only entry is a success; every rejection ends with the "failed" entry |
| MerchantService.CheckedUpdateAudits | services/MerchantService.js:204-307 | the same audit discipline across the existence checks and the update |
| MerchantService.UpdateCpoAudits | services/MerchantService.js:178-308 | the whole `UpdateCPOByID` keeps that audit discipline on every path |
| MerchantService.AddRfidSpec | services/MerchantService.js:321-346 | `AddRFID` calls the procedure first; "SUCCESS" is returned only with one success entry; another status is thrown with one "failed" entry |
| MerchantService.TopupRejectsNonPositive | services/MerchantService.js:398-403 | an amount ≤ 0 throws `INVALID_AMOUNT` before the top-up procedure is called. The only call made is one "failed" entry |
| MerchantService.TopupPositive | services/MerchantService.js:398-430 | a positive amount calls the procedure first and returns `{status, current_balance}` only with one success entry; another status is thrown as `HttpBadRequest(status)`; the entries are [success], [failed] or [success, failed] |
| MerchantService.VoidTopupSpec | services/MerchantService.js:455-484 | the same status and audit discipline for `VoidTopup`, returning the procedure's row |
| MerchantService.ChangeCpoRejectsUnknownAction | services/MerchantService.js:498-534 | an action other than "activate" or "deactivate" writes one "failed" entry and throws `INVALID_ACTION` |
| MerchantService.ChangeCpoSpec | services/MerchantService.js:498-534 | "activate" never calls Deactivate and vice versa. 0 affected rows returns `NO_CHANGES_APPLIED` with no entry. Otherwise the success entry comes next and "SUCCESS" follows. A rejected Activate or Deactivate write is followed by exactly one DEACTIVATE-worded "failed" entry and its error is rethrown. Any rejection ends with that entry |
| MerchantService.FirstExisting | services/MerchantService.js:367-370 | the scan stops at the first tag, in input order, that already exists |
| MerchantService.RfidRows | services/MerchantService.js:372-382 | one `[tag, cpoOwnerID, null, 0, 0, "PHYSICAL", "UNASSIGNED"]` row per tag, in order |
| MerchantService.AddRfidsReadRejected | services/MerchantService.js:357-363 | a read of the existing tags that rejects is rethrown, and nothing is inserted |
| MerchantService.AddRfidsSpec | services/MerchantService.js:357-385 | when some tag exists, `RFID_EXISTS: <first such tag>` is thrown and nothing is inserted. Otherwise one insert carries exactly one row per tag; it returns "SUCCESS" when that insert goes through and rethrows its error when it is rejected. No audit entry either way |
| MerchantService.GeneratePartyIdRun | services/MerchantService.js:692-703 | party-id generation reads the partner rows once |
| MerchantService.RegisterPartnerGeneratesFirst | services/MerchantService.js:574-584 | the party id is generated before the partner row is inserted |
| MerchantService.RegisterPartnerLocationNotFound | services/MerchantService.js:568-572 | missing address components throw `LOCATION_NOT_FOUND` after one "failed" entry |
| MerchantService.RegisterPartnerLocated | services/MerchantService.js:562-578 | otherwise the country short name is passed on to the registration |
| MerchantService.RegisterPartnerReadRejected | services/MerchantService.js:578-616 | a read of the issued party ids that rejects writes one "failed" entry and is rethrown, with no insert |
| MerchantService.RegisterPartnerGeocodeRejected | services/MerchantService.js:560-616 | a geocoding request that rejects writes one "failed" entry and is rethrown; no party id is generated and nothing is inserted |
| MerchantService.RegisterPartnerSpec | services/MerchantService.js:578-606 | the row carries the generated party id. A truthy `insertId` returns `{party_id, "SUCCESS"}` with one success entry. A zero `insertId` writes the "failed" entry and returns the raw result without throwing |
| MerchantService.UpdatePartnerSpec | services/MerchantService.js:630-681 | the geocoder is asked first. A rejected request is rethrown after one "failed" entry. No components: "LOCATION_NOT_FOUND" is thrown after one "failed" entry, with no update. Otherwise the country code is updated. When rows were affected and the success entry is written, the result is "SUCCESS" with exactly those three calls, and "SUCCESS" comes no other way. 0 affected rows returns the raw result after the "failed" entry |
| MerchantService.MerchantService.RegisterCpo | services/MerchantService.js:58-95 | performs `RegisterCpoRun` on the store |
| MerchantService.MerchantService.CheckRegisterCpo | services/MerchantService.js:107-139 | performs `CheckRegisterCpoRun` on the store |
| MerchantService.MerchantService.UpdateCpoById | services/MerchantService.js:178-308 | performs `UpdateCpoByIdRun` on the store |
| MerchantService.MerchantService.CheckColumns | services/MerchantService.js:212-265 | the loop of existence checks, performed as `ColumnChecks` specifies |
| MerchantService.MerchantService.CheckThenUpdate | services/MerchantService.js:212-307 | the existence checks, then the rest of the update, with a rejected check going to the catch block, performed as `CheckedUpdate` specifies |
| MerchantService.MerchantService.UpdateChecked | services/MerchantService.js:267-307 | the field-error throw, the SET-clause update and its audit, performed as `UpdateCpoChecked` specifies |
| MerchantService.MerchantService.AddRfid | services/MerchantService.js:321-346 | performs `AddRfidRun` and returns the status |
| MerchantService.MerchantService.AddRfids | services/MerchantService.js:357-385 | the `forEach` duplicate scan and the insert, performed as `AddRfidsRun` specifies |
| MerchantService.MerchantService.Topup | services/MerchantService.js:398-430 | performs `TopupRun` and returns the receipt |
| MerchantService.MerchantService.VoidTopup | services/MerchantService.js:455-484 | performs `VoidTopupRun` on the store |
| MerchantService.MerchantService.ChangeCpoAccountStatus | services/MerchantService.js:498-534 | performs `ChangeCpoAccountStatusRun` on the store |
| MerchantService.MerchantService.GeneratePartyId | services/MerchantService.js:727-729 | reads the partner rows and generates the party id as `GeneratePartyIdRun` specifies |
| MerchantService.MerchantService.RegisterCompanyPartnerDetails | services/MerchantService.js:560-616 | performs `RegisterPartnerRun` on the store |
| MerchantService.MerchantService.RegisterFound | services/MerchantService.js:578-616 | the party-id generation, then the insert, performed as `RegisterPartnerFound` specifies |
| MerchantService.MerchantService.RegisterWith | services/MerchantService.js:580-616 | the partner insert and its success or "failed" entry, given how the party id settled, performed as `RegisterPartnerWith` specifies |
| MerchantService.MerchantService.UpdateCompanyPartnerDetails | services/MerchantService.js:630-681 | performs `UpdatePartnerRun` on the store |
| EVSEService.GetEvsesSpec | services/EVSEService.js:29-50 | a non-number limit or offset is rejected with its message before any store call. Otherwise the count and the page are read. `total_evses_returned` is the length of the returned list, and no audit entry is written |
| EVSEService.Abort | services/EVSEService.js:124-137 | after a failure inside the transaction: rollback, one "failed" entry, release, and a rejection carrying the caught error once the "failed" entry is written |
| EVSEService.TransactionSettles | services/EVSEService.js:81-137 | the inserts run in order until the first rejection. Either all of them and the success entry go through, ending in commit and release, or the run ends with rollback, the "failed" entry and release |
| EVSEService.TransactionRethrows | services/EVSEService.js:81-137 | once its "failed" entry is written, a rejected transaction rethrows the error of the first rejected insert, or of the rejected success entry when every insert went through |
| EVSEService.TransactionDiscipline | services/EVSEService.js:81-137 | the transaction makes the attempted inserts in order; commit happens exactly when it resolves; the connection is released exactly once; the error rethrown is that of the first rejected insert, or of the rejected success entry |
| EVSEService.EndingIsDisciplined | services/EVSEService.js:119-137 | every ending after a prefix of the inserts keeps that discipline |
| EVSEService.EvseWritesAreInserts | services/EVSEService.js:81-113 | the four writes are connectors, timeslots, payment types and capabilities, all inserts |
| EVSEService.PaymentTypeRows | services/EVSEService.js:95-98 | one `[uid, payment_type]` row per payment type, in order |
| EVSEService.CapabilityRows | services/EVSEService.js:105-108 | one `[capability, uid]` row per capability, in order |
| EVSEService.RegisterEvseSpec | services/EVSEService.js:66-138 | the EVSE procedure is called first. If it rejects, `conn` stays null: no rollback, no release, one "failed" entry. A non-"SUCCESS" status rolls back, writes one "failed" entry, releases, and throws `HttpBadRequest(status)`. "SUCCESS" goes on to the transaction of the four inserts |
| EVSEService.RegisterEvseCommits | services/EVSEService.js:66-138 | once acquired, the connection is released exactly once and committed exactly when the call resolves. Success means all four inserts went through and then the success entry, commit and release, in that order |
| EVSEService.RegisterEvseAudits | services/EVSEService.js:66-138 | the entries are [success] on success, [success, failed] when only the success entry's own write failed, and [failed] otherwise |
| EVSEService.TimeslotsReferToConnectors | services/EVSEService.js:81-93 | every timeslot row names the EVSE uid and one of the connector ordinals just inserted (ids from 1) |
| EVSEService.GridMembers | repository/ConnectorRepository.js:87-93 | every row of the grid carries the uid and one of the given connector ids |
| EVSEService.BindEvseSpec | services/EVSEService.js:152-177 | exactly one procedure call first. "SUCCESS" is returned only with the success entry naming the EVSE uid and the location. Another status is thrown with one "failed" entry |
| EVSEService.UnbindEvseSpec | services/EVSEService.js:191-215 | the same for unbinding, with the "UNBIND" wording |
| EVSEService.EVSEService.constructor | services/EVSEService.js:13-16 | the service holds the store it is given |
| EVSEService.EVSEService.GetEvses | services/EVSEService.js:29-50 | performs `GetEvsesRun` on the store |
| EVSEService.EVSEService.RegisterEvse | services/EVSEService.js:66-138 | the try/catch/finally with the mutable connection, performed as `RegisterEvseRun` specifies |
| EVSEService.EVSEService.RollBack | services/EVSEService.js:124-137 | rollback, the "failed" entry and release, performed as `Abort` specifies |
| EVSEService.EVSEService.Insert | services/EVSEService.js:81-123 | the four inserts, the success entry and commit, performed as `Transaction` specifies |
| EVSEService.EVSEService.Transact | services/EVSEService.js:80-136 | the four inserts in order on the connection, then the success entry, commit and release, performed as `Transaction` specifies |
| EVSEService.EVSEService.Put | services/EVSEService.js:80-112 | one insert of the transaction: when it goes through the transaction is still pending with that insert done; when it is rejected the rollback, "failed" entry and release end the transaction as `Transaction` specifies |
| EVSEService.EVSEService.Finish | services/EVSEService.js:114-136 | the success entry, commit and release, or the rollback when that entry is rejected, performed as `Transaction` specifies |
| EVSEService.EVSEService.BindEvse | services/EVSEService.js:152-177 | performs `BindEvseRun` and returns the status |
| EVSEService.EVSEService.UnbindEvse | services/EVSEService.js:191-215 | performs `UnbindEvseRun` and returns the status |
| LocationService.GetLocationsSpec | services/LocationService.js:26-47 | the same argument checks and page as for EVSEs. The offset message reads "Invalid offset. Limit must be in type of number", as written |
| LocationService.RegionSpec | services/LocationService.js:119-126 | the region has at most 3 characters, is upper-case and trimmed. It is "UND" when no `administrative_area_level_1` component exists, and the upper-cased first three characters of the short name when they contain no white space |
| LocationService.UndefinedRegion | services/LocationService.js:119-126 | a missing region component gives "UND" |
| LocationService.LocationRowSpec | services/LocationService.js:110-154 | the inserted row holds the owner or `null`, the formatted address, the `locality` long name as city, the region, the postal code or `null` when missing or empty, the coordinates, the name and the images |
| LocationService.PairsSpec | services/LocationService.js:159-178 | one `[item, LOCATION_ID]` pair per facility or restriction, in order |
| LocationService.ParkingTypeRowsSpec | services/LocationService.js:167-173 | one row per parking type, tagged "OUTDOOR" exactly when the id is one of the numbers 1, 3, 4, 5, and "INDOOR" otherwise |
| LocationService.ParkingTagExamples | services/LocationService.js:170 | `includes` is strict: the string "1" and `null` are "INDOOR" |
| LocationService.RegisterLocationGeocodes | services/LocationService.js:79-216 | the geocoder is asked first. A rejection, missing components (`LOCATION_NOT_FOUND`) or a missing `geometry.location` (a TypeError) each writes exactly one "failed" entry and rethrows. Otherwise the row built from the first result is inserted |
| LocationService.InsertLocationSpec | services/LocationService.js:143-157 | the location insert comes next; a rejection stops with one "failed" entry |
| LocationService.FacilitiesSpec | services/LocationService.js:159-164 | then the facilities, keyed by the new `insertId` |
| LocationService.ParkingTypesSpec | services/LocationService.js:167-173 | then the parking types |
| LocationService.RestrictionsSpec | services/LocationService.js:176-206 | then the restrictions. "SUCCESS" comes only when at least one restriction row was affected and the success entry was written. Otherwise the "failed" entry is written and the location's raw insert result returned |
| LocationService.CaughtEnds | services/LocationService.js:207-215 | the outer catch block ends every run in the expected audit shape |
| LocationService.AuditedEnds | services/LocationService.js:185-203 | so does the final audit of the inner try block |
| LocationService.AfterEnds | services/LocationService.js:143-183 | a non-audit call in front keeps that shape |
| LocationService.RestrictionsEnd | services/LocationService.js:176-215 | the restrictions stage ends in that shape |
| LocationService.ParkingTypesEnd | services/LocationService.js:167-215 | so does the parking-types stage |
| LocationService.FacilitiesEnd | services/LocationService.js:159-215 | so does the facilities stage |
| LocationService.InsertLocationEnds | services/LocationService.js:143-215 | so does the location insert |
| LocationService.GeocodedEnds | services/LocationService.js:98-215 | so does everything after geocoding |
| LocationService.RegisterLocationAudits | services/LocationService.js:79-216 | `RegisterLocation` makes some call. "SUCCESS" means exactly one success entry; a raw result means exactly one "failed" entry. Every rejection ends with a "failed" entry, and its entries are [failed], [success, failed] or [failed, failed] |
| LocationService.RegisterLocationInserts | services/LocationService.js:143-183 | when the inserts go through, the location, facilities and parking types are written in that order before the restrictions |
| LocationService.BindLocationSpec | services/LocationService.js:243-271 | exactly one procedure call first, then one audit entry naming the CPO. "SUCCESS" is returned only with the success entry; another status is thrown as `HttpBadRequest(status)` after one "failed" entry |
| LocationService.UnbindLocationSpec | services/LocationService.js:284-312 | the same for unbinding, with the "UNBIND … from CPO" wording |
| LocationService.LocationService.constructor | services/LocationService.js:11-13 | the service holds the store it is given |
| LocationService.LocationService.GetLocations | services/LocationService.js:26-47 | performs `GetLocationsRun` on the store |
| LocationService.LocationService.RegisterLocation | services/LocationService.js:79-216 | the nested try blocks, performed as `RegisterLocationRun` specifies |
| LocationService.LocationService.Geocoded | services/LocationService.js:98-154 | the component checks and the location insert, performed as `GeocodedRun` specifies |
| LocationService.LocationService.InsertLocation | services/LocationService.js:144-156 | the location insert and, after it, the rest of the inner try block, performed as `InsertLocationRun` specifies |
| LocationService.LocationService.AddLocationFacilities | services/LocationService.js:158-164 | the facilities insert keyed by the new `insertId` and what follows it, performed as `FacilitiesRun` specifies |
| LocationService.LocationService.AddLocationParkingTypes | services/LocationService.js:166-173 | the parking-types insert and what follows it, performed as `ParkingTypesRun` specifies |
| LocationService.LocationService.AddLocationParkingRestrictions | services/LocationService.js:175-203 | the restrictions insert, then "SUCCESS" after the success entry or the raw result after the "failed" entry, performed as `RestrictionsRun` specifies |
| LocationService.LocationService.BindLocation | services/LocationService.js:243-271 | performs `BindLocationRun` and returns the status |
| LocationService.LocationService.UnbindLocation | services/LocationService.js:284-312 | performs `UnbindLocationRun` and returns the status |
| RoleManagement.RolesAreDistinct | middlewares/RoleManagementMiddleware.js:4-10 | there are exactly five role names, distinct and non-empty |
| RoleManagement.Decide | middlewares/RoleManagementMiddleware.js:31 | a request proceeds if and only if its role is a non-empty string in the allowed list; otherwise the error is `HttpForbidden("Forbidden")` |
| RoleManagement.MissingRoleIsForbidden | middlewares/RoleManagementMiddleware.js:31-38 | a missing, null or empty role is always forbidden |
| RoleManagement.OnlyStringsMatch | middlewares/RoleManagementMiddleware.js:31 | `includes` is strict, so a role that is not a string never matches |
| RoleManagement.DecideMonotone | middlewares/RoleManagementMiddleware.js:16-31 | allowing more roles never forbids an allowed request, and an empty role list forbids every request |
| RoleManagement.RoleGuard.Handle | middlewares/RoleManagementMiddleware.js:22-44 | the handler decides as `Decide` does. On refusal it sets `error_name` to "CHECK_ROLE_ERROR"; otherwise it leaves `error_name` unchanged |

## Left out

- SQL text and MySQL execution are not modelled, nor the internals of the stored procedures. Every repository call is a `DataStore.Call` that the oracle answers with a status row, `{affectedRows, insertId}`, a row list or a count.
- The store is injected. The services construct their own repositories and ignore their constructor arguments (services/LocationService.js:11-13, services/EVSEService.js:13-16); here every service is given one store.
- The HTTP request to the Google Geocoding API and the `encodeURI` of the address are not modelled. The geocoder's response is the oracle's answer to `Geocode(address)`.
- Latitude and longitude are passed through as opaque `real` values. No floating-point arithmetic is modelled.
- `RegisterCPO`'s random password and the contents of the email are left out. The mail is one store call, `SendCredentials(email, username)`.
- `uuidv4()` in `RegisterEVSE` is the parameter `uid`.
- The email regular expression of `CheckRegisterCPO` is not modelled, because its backtracking is awkward to state. `MerchantService.CheckRegisterCpoSpec` takes its verdict as the parameter `emailMatches`.
- `new Date()` timestamps are left out of the rows.
- JavaScript numbers are integral (`Value.Num`) except the top-up amount, which is a `real`; non-integral limits, offsets and ids are not modelled. Type coercion in `amount <= 0` for non-number amounts is not modelled.
- JavaScript strings are sequences of UTF-16 code units, so `slice`, `[i]` and `length` count code units (services/MerchantService.js:709-722, services/LocationService.js:124). The model's strings are sequences of Unicode characters, so a character outside the Basic Multilingual Plane counts once here and twice in the service.
- `toUpperCase` maps only the ASCII letters a-z. Unicode case mapping is not modelled. White space for `\s` and `trim` is ECMAScript's WhiteSpace and LineTerminator set.
- `JSON.stringify(images)` is not modelled; the row keeps the image list as is.
- The `cpo_id: null` column of every audit row is constant and is not stored in `DataStore.AuditEntry`.
- Logging through winston is left out.
- Express routing, the express-validator chains and the error-handler middleware are left out. So are a `next()` that throws and concurrency between requests.
- Mapping over a missing `facilities`, `parking_types` or `parking_restrictions` array, or a component without `types`, would throw a TypeError in the service. It is not modelled, because the model's lists are always present.
- `GetCPOs`, `SearchCPOByName`, `GetTopupByID`, `GetCompanyPartnerDetails`, `GetUnbindedLocations`, `GetBindedLocations`, `SearchLocationByName`, both `GetDefaultData` methods and `SearchEVSEBySerialNumber` are not modelled. Each only forwards to a repository.
- ReportsService and UserManagementService are not part of this model. They only forward to their repositories.
- LocationService.GetLocationsSpec: the offset error message is the one services/LocationService.js:33-35 writes ("Limit must be…"). That differs from the wording test/LocationService.test.js:89-91 expects.
- Request bodies are lists of (key, value) entries and may repeat a key, which a parsed JSON body cannot: `JSON.parse` keeps the last duplicate, while `Common.Lookup` reads the first, and `UpdateCpoByIdRun` would write one assignment per entry. The model does not exclude such inputs, and states nothing about which duplicate a service would see.
- Workflow.AuditsOf: it only bounds the number of entries. What the entries are is stated per workflow by the lemmas listed above.
