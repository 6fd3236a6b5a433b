# JoSoftSolution site: store, admin gate, admin editors and chatbot

This is a Dafny model of the client-side core of the JoSoftSolution company
web site. The core has four parts.

- **The store** (`src/contexts/CompanyContext.jsx`) holds three things: the
  company profile (its name, contact data, services and team), the job
  applications and the internship applications. Each is loaded from the
  browser's `localStorage`, or seeded when absent, and written back after
  every change. It offers thirteen operations: update the profile;
  add/update/delete a service; add/update/delete a team member; submit an
  application or internship request; set the status of either; delete
  either.
- **The admin gate** (`src/contexts/AuthContext.jsx`) is a boolean flag.
  It is restored from the `josoft_auth` key and set by a password
  comparison against a fixed secret.
- **The admin screens.**
  - The services and team editors
    (`src/components/admin/ServicesManager.jsx`, `TeamManager.jsx`) hold a
    form, the entry being edited and a dialog flag. They dispatch to the
    store.
  - The applications and internships lists (`ApplicationsManager.jsx`,
    `InternshipsManager.jsx`) show one card per entry, with a status badge
    and decide buttons offered only while the entry is pending.
- **The chatbot** (`src/components/Chatbot.jsx`) lower-cases the visitor's
  message and answers with the reply of the first of seven keyword rules
  that matches, or a default reply. It keeps the conversation as a list of
  messages that starts with a greeting.

## Modules

- `Wrappers`: `Option`.
- `Lists`: the two list idioms the store uses on id-keyed lists.
  - `map` with an id test, as `UpdateWhere`.
  - `filter` on a different id, as `RemoveWhere`.
  - Their properties: length, position-wise effect, order-preserving
    subsequence, and keys and distinctness kept.
- `Records`: the entities.
  - Service, team member, company profile, job and internship forms.
  - Stored entries with id, date and status.
  - Status as stored text.
  - The partial updates `{...x, ...patch}` as `Option` patches.
- `LocalStorage`: the browser store as a `Storage` class over a map from
  keys to snapshots of the values.
- `CompanyContext`: the seed data, loading, the pure list transforms with
  their lemmas, and the `CompanyStore` class.
  - `CompanyStore` has one method per operation.
  - Each method states its new state and the storage write that the
    source's effect performs.
- `AuthContext`: the `AuthGate` class and the storage maps that login and
  logout produce.
- `Review`: what the two admin lists share.
  - The badge, the buttons a card offers and what a button does.
  - The confirmation word and the text excerpt.
- `ApplicationsManager`, `InternshipsManager`: the card views and the
  `Handlers` classes that call the store.
- `ServicesManager`, `TeamManager`: the icon lookup, the form, and the
  `Editor` classes with the components' state cells.
- `Chatbot`:
  - lower-casing, substring search and JavaScript `trim`;
  - the rules, classification and replies;
  - the `Chat` class holding messages and the input line.

Clocks are parameters:
- `now` stands for `Date.now()`.
- `date` stands for `new Date().toISOString()`.
- The chatbot's `now` and `later` stand for the send time and the reply
  time.

Serialisation through JSON is modelled as a snapshot datatype: a value is
stored as itself.

## Model

| member | source | states |
|---|---|---|
| CompanyContext.SeedIds | src/contexts/CompanyContext.jsx:14-101 | the seed profile has 8 services with ids 1..8 and 3 team members with ids 1..3, so both lists have distinct ids |
| CompanyContext.LoadProfile | src/contexts/CompanyContext.jsx:14-16 | with no stored profile the seed is used; otherwise the stored profile is the one loaded |
| CompanyContext.LoadApplications | src/contexts/CompanyContext.jsx:103-106 | with no stored applications the list is empty; otherwise it is the stored list |
| CompanyContext.LoadInternships | src/contexts/CompanyContext.jsx:108-111 | with no stored internships the list is empty; otherwise it is the stored list |
| CompanyContext.ReloadRestores | src/contexts/CompanyContext.jsx:113-123 | once the effects have mirrored the state into storage, loading again yields exactly that state |
| CompanyContext.ServicesUpdated | src/contexts/CompanyContext.jsx:140-147 | `services.map(s => s.id === id ? {...s, ...patch} : s)`; no contract of its own, its meaning is `CompanyContext.ServicesUpdatedSpec` |
| CompanyContext.ServicesRemoved | src/contexts/CompanyContext.jsx:149-154 | `services.filter(s => s.id !== id)`; its meaning is `CompanyContext.ServicesRemovedSpec` |
| CompanyContext.TeamUpdated | src/contexts/CompanyContext.jsx:167-174 | the team's map by id; its meaning is `CompanyContext.TeamUpdatedSpec` |
| CompanyContext.TeamRemoved | src/contexts/CompanyContext.jsx:176-181 | the team's filter by id; its meaning is `CompanyContext.TeamRemovedSpec` |
| CompanyContext.StatusSet | src/contexts/CompanyContext.jsx:203-213 | the status map by id; its meaning is `CompanyContext.StatusSetSpec` |
| CompanyContext.EntriesRemoved | src/contexts/CompanyContext.jsx:215-221 | the filter by id on applications and internships; its meaning is `CompanyContext.EntriesRemovedSpec` |
| CompanyContext.Stamp | src/contexts/CompanyContext.jsx:183-191 | a submitted entry gets the id `now`, the creation date `date` and status pending, and keeps the submitted form |
| CompanyContext.ServicesUpdatedSpec | src/contexts/CompanyContext.jsx:140-147 | updating keeps the length; each service with the id is merged with the patch and every other is unchanged; with no such id the list is unchanged |
| CompanyContext.FormUpdateKeepsIds | src/contexts/CompanyContext.jsx:140-147 | a patch built from the editor's form keeps every service's id, so distinct ids stay distinct |
| CompanyContext.ServicesRemovedSpec | src/contexts/CompanyContext.jsx:149-154 | deleting removes exactly the services with the id, keeps the others in order (a subsequence), shortens the list by their count, and is the identity when the id is absent |
| CompanyContext.TeamUpdatedSpec | src/contexts/CompanyContext.jsx:167-174 | updating keeps the length; each member with the id is merged with the patch and every other is unchanged; with no such id the team is unchanged |
| CompanyContext.TeamRemovedSpec | src/contexts/CompanyContext.jsx:176-181 | deleting removes exactly the members with the id and keeps the others in order |
| CompanyContext.EntriesRemovedSpec | src/contexts/CompanyContext.jsx:215-221 | deleting an application or internship removes exactly the entries with the id and keeps the others in order |
| CompanyContext.RemovedSpec | src/contexts/CompanyContext.jsx:152 | the `filter(x => x.id !== id)` facts for any list: no survivor has the id, every entry with another id survives, order is kept, and the length drops by the count of matches |
| CompanyContext.StatusSetSpec | src/contexts/CompanyContext.jsx:203-213 | setting a status keeps the length; entries with the id get the new status and nothing else changes; with no such id the list is unchanged |
| CompanyContext.AddServiceFresh | src/contexts/CompanyContext.jsx:129-138 | appending a service whose id is not yet used keeps the ids distinct |
| CompanyContext.CompanyStore.constructor | src/contexts/CompanyContext.jsx:14-123 | the state is what loading the stored keys gives, and the three effects on mount write each cell back to its key |
| CompanyContext.CompanyStore.UpdateCompanyData | src/contexts/CompanyContext.jsx:125-127 | the profile becomes the old profile merged with the patch; the other lists are unchanged; the profile key is rewritten |
| CompanyContext.CompanyStore.AddService | src/contexts/CompanyContext.jsx:129-138 | the service built from the form with id `now` is appended; nothing else changes but the profile key |
| CompanyContext.CompanyStore.UpdateService | src/contexts/CompanyContext.jsx:140-147 | the services list becomes the patched list; the rest of the profile and the other lists are unchanged |
| CompanyContext.CompanyStore.DeleteService | src/contexts/CompanyContext.jsx:149-154 | the services list becomes the filtered list; the rest is unchanged |
| CompanyContext.CompanyStore.AddTeamMember | src/contexts/CompanyContext.jsx:156-165 | the member built from the form with id `now` is appended to the team |
| CompanyContext.CompanyStore.UpdateTeamMember | src/contexts/CompanyContext.jsx:167-174 | the team becomes the patched team; the rest is unchanged |
| CompanyContext.CompanyStore.DeleteTeamMember | src/contexts/CompanyContext.jsx:176-181 | the team becomes the filtered team; the rest is unchanged |
| CompanyContext.CompanyStore.AddApplication | src/contexts/CompanyContext.jsx:183-191 | the stamped application is put first; the applications key is rewritten |
| CompanyContext.CompanyStore.AddInternship | src/contexts/CompanyContext.jsx:193-201 | the stamped internship is put first; the internships key is rewritten |
| CompanyContext.CompanyStore.UpdateApplicationStatus | src/contexts/CompanyContext.jsx:203-207 | the applications with the id take the status; the applications key is rewritten |
| CompanyContext.CompanyStore.UpdateInternshipStatus | src/contexts/CompanyContext.jsx:209-213 | the internships with the id take the status; the internships key is rewritten |
| CompanyContext.CompanyStore.DeleteApplication | src/contexts/CompanyContext.jsx:215-217 | the applications with the id are removed; the applications key is rewritten |
| CompanyContext.CompanyStore.DeleteInternship | src/contexts/CompanyContext.jsx:219-221 | the internships with the id are removed; the internships key is rewritten |
| CompanyContext.SubmitTwoApplications | src/contexts/CompanyContext.jsx:183-191 | two applications submitted in a row list the later one first, then the earlier one, then the old list; storage mirrors it and nothing else changes |
| CompanyContext.SubmitTwoInternships | src/contexts/CompanyContext.jsx:193-201 | two internship requests submitted in a row list the later one first, then the earlier one, then the old list; storage mirrors it |
| Lists.UpdateWhere | src/contexts/CompanyContext.jsx:143-145 | the mapped list has the input's length |
| Lists.RemoveWhere | src/contexts/CompanyContext.jsx:152 | the filtered list is as much shorter as there are matches, and no survivor has the key |
| Lists.UpdateWhereAt | src/contexts/CompanyContext.jsx:143-145 | position by position, an entry with the key is transformed and any other is kept |
| Lists.UpdateWhereAll | src/contexts/CompanyContext.jsx:143-145 | the position-wise effect for every position at once |
| Lists.UpdateWhereMiss | src/contexts/CompanyContext.jsx:143-145 | with no entry carrying the key, the list is unchanged |
| Lists.UpdateWhereKeepsKeys | src/contexts/CompanyContext.jsx:143-145 | a key-preserving transform keeps every key and so keeps keys distinct |
| Lists.RemoveWhereSubseq | src/contexts/CompanyContext.jsx:152 | the filtered list is an order-preserving subsequence of the input |
| Lists.RemoveWhereKeeps | src/contexts/CompanyContext.jsx:152 | an entry with another key survives the filter |
| Lists.RemoveWhereMiss | src/contexts/CompanyContext.jsx:152 | with no entry carrying the key, the filter is the identity |
| Lists.RemoveWhereFrom | src/contexts/CompanyContext.jsx:152 | every survivor was in the input |
| Records.FromText | src/components/admin/ApplicationsManager.jsx:14-25 | reading a stored status text gives back that text; the three known words and only they read as known statuses |
| Records.TextRoundTrip | src/contexts/CompanyContext.jsx:203-207 | every status written as text and read back is the same status |
| Records.SameTextSameStatus | src/contexts/CompanyContext.jsx:203-207 | two statuses are equal exactly when their stored texts are: a status holds one text and each text one status |
| Records.StatusTests | src/components/admin/ApplicationsManager.jsx:106 | a status is Pending, Approved or Rejected exactly when its stored text is `'pending'`, `'approved'` or `'rejected'`, the strings the screens compare with |
| Records.MergeProfile | src/contexts/CompanyContext.jsx:126 | `{ ...prev, ...newData }` on the profile; no contract of its own, its meaning is `Records.MergeProfileFields` (each field from the patch when present, kept otherwise), with `Records.NoChangeIsIdentity`, `Records.MergeProfileTwice` and `Records.MergeProfileIdempotent` |
| Records.MergeService | src/contexts/CompanyContext.jsx:144 | `{ ...service, ...updatedService }`; for the editor's patches its meaning is `Records.ServiceFormPatchFields` |
| Records.MergeMember | src/contexts/CompanyContext.jsx:171 | `{ ...member, ...updatedMember }`; for the editor's patches its meaning is `Records.TeamFormPatchFields` |
| Records.NoChangeIsIdentity | src/contexts/CompanyContext.jsx:125-127 | spreading an empty patch leaves the profile unchanged |
| Records.MergeProfileTwice | src/contexts/CompanyContext.jsx:125-127 | two updates in a row equal one update by the combined patch, later fields winning |
| Records.MergeProfileIdempotent | src/contexts/CompanyContext.jsx:125-127 | applying the same update twice is the same as applying it once |
| Records.MergeProfileFields | src/contexts/CompanyContext.jsx:125-127 | a field the patch carries takes the patch's value; a field it omits keeps the old one, services and team included |
| Records.ServiceFormPatchFields | src/contexts/CompanyContext.jsx:140-147 | merging the editor's form into a service gives the service the form describes, with the old id |
| Records.TeamFormPatchFields | src/contexts/CompanyContext.jsx:167-174 | merging the editor's form into a member gives the member the form describes, with the old id |
| LocalStorage.Storage.constructor | src/contexts/CompanyContext.jsx:15 | the browser provides the store, and no source line creates it; the model starts it with the given entries, which the first `getItem` reads |
| LocalStorage.Storage.SetItem | src/contexts/CompanyContext.jsx:113-123 | `setItem` maps the key to the value and leaves every other key alone |
| LocalStorage.Storage.RemoveItem | src/contexts/AuthContext.jsx:24-27 | `removeItem` unmaps the key and leaves every other key alone |
| AuthContext.LoginEntries | src/contexts/AuthContext.jsx:14-22 | the right password stores the flag; a wrong one changes nothing; other keys are never touched |
| AuthContext.LogoutEntries | src/contexts/AuthContext.jsx:24-27 | logging out removes the flag's key and touches no other key |
| AuthContext.LogoutIdempotent | src/contexts/AuthContext.jsx:24-27 | logging out twice is logging out once |
| AuthContext.LoginIdempotent | src/contexts/AuthContext.jsx:14-22 | logging in twice with the same password is logging in once |
| AuthContext.StoreWritesKeepFlag | src/contexts/AuthContext.jsx:10-12 | the store's writes to its three keys never change whether an admin session is stored |
| AuthContext.GateWritesKeepMirrors | src/contexts/AuthContext.jsx:14-27 | login and logout write only the flag's key, so storage that mirrors the company store's three cells still mirrors them afterwards |
| AuthContext.AuthGate.constructor | src/contexts/AuthContext.jsx:10-12 | authenticated exactly when the stored flag is `'true'` |
| AuthContext.AuthGate.Login | src/contexts/AuthContext.jsx:14-22 | returns true exactly for the secret `admin123`; then the gate is open and the flag stored; otherwise the gate and storage are unchanged |
| AuthContext.AuthGate.Logout | src/contexts/AuthContext.jsx:24-27 | the gate is closed and the flag's key removed |
| Review.BadgeLabel | src/components/admin/ApplicationsManager.jsx:14-25 | the badge is Pendiente, Aprobado or Rechazado exactly for the three statuses, and Desconocido exactly for any other text |
| Review.BadgeOfStoredText | src/components/admin/InternshipsManager.jsx:14-25 | the badge for a stored status text, word by word, with Desconocido for an unknown word |
| Review.Actions | src/components/admin/ApplicationsManager.jsx:106-134 | delete is always offered; approve and reject are offered exactly when the entry is pending; every button names the card's own id |
| Review.Effect | src/components/admin/ApplicationsManager.jsx:110-130 | what a card's button does to the list (approve/reject: `StatusSet`, delete: `EntriesRemoved`); no contract of its own, its meaning is `Review.OnlyPendingIsDecided` and the `Handlers.Press` methods |
| Review.ConfirmWord | src/components/admin/ApplicationsManager.jsx:27-33 | the toast says `aprobada` exactly for approval, and `rechazada` otherwise |
| Review.Excerpt | src/components/admin/ApplicationsManager.jsx:95 | a prefix of the text of at most n characters, followed by `...` always, even when the text is short |
| Review.OnlyPendingIsDecided | src/components/admin/InternshipsManager.jsx:110-129 | with distinct ids, a decide button exists only on a pending card, and pressing it sets only that entry to approved or rejected |
| Review.SharedIdBreaksGuard | src/contexts/CompanyContext.jsx:203-207 | two entries sharing an id: approving the pending one also overwrites the already rejected one, since the store matches by id only |
| ApplicationsManager.CardOf | src/components/admin/ApplicationsManager.jsx:70-136 | a card shows the entry's id, its badge, a 100-character excerpt of the experience and its buttons |
| ApplicationsManager.StatusToast | src/components/admin/ApplicationsManager.jsx:31 | the toast description; no contract of its own, the choice of word is `Review.ConfirmWord` |
| Review.ListView | src/components/admin/ApplicationsManager.jsx:64-70 | the placeholder exactly when the list is empty; otherwise one card per entry, in list order (both review screens) |
| ApplicationsManager.ButtonsOfEveryCard | src/components/admin/ApplicationsManager.jsx:106-134 | every listed card offers delete, and approve/reject exactly when pending |
| ApplicationsManager.Handlers.constructor | src/components/admin/ApplicationsManager.jsx:11 | the handlers act on the given store |
| ApplicationsManager.Handlers.HandleStatusChange | src/components/admin/ApplicationsManager.jsx:27-33 | the store's applications get the status; the toast names the decision |
| ApplicationsManager.Handlers.HandleDelete | src/components/admin/ApplicationsManager.jsx:35-41 | the store drops the application; the delete toast is shown |
| ApplicationsManager.Handlers.Press | src/components/admin/ApplicationsManager.jsx:106-134 | pressing a button changes the applications as that button's effect says and nothing else |
| InternshipsManager.CardOf | src/components/admin/InternshipsManager.jsx:71-140 | a card shows the id, `career - semester`, the badge, a 200-character excerpt of the motivation and the buttons |
| InternshipsManager.StatusToast | src/components/admin/InternshipsManager.jsx:31 | the toast description; no contract of its own, the choice of word is `Review.ConfirmWord` |
| InternshipsManager.ButtonsOfEveryCard | src/components/admin/InternshipsManager.jsx:110-138 | every listed card offers delete, and approve/reject exactly when pending |
| InternshipsManager.Handlers.constructor | src/components/admin/InternshipsManager.jsx:11 | the handlers act on the given store |
| InternshipsManager.Handlers.HandleStatusChange | src/components/admin/InternshipsManager.jsx:27-33 | the store's internships get the status; the toast names the decision |
| InternshipsManager.Handlers.HandleDelete | src/components/admin/InternshipsManager.jsx:35-41 | the store drops the internship; the delete toast is shown |
| InternshipsManager.Handlers.Press | src/components/admin/InternshipsManager.jsx:110-138 | pressing a button changes the internships as that button's effect says and nothing else |
| ServicesManager.FindOption | src/components/admin/ServicesManager.jsx:114 | `find` returns nothing exactly when no option has the value, and otherwise the first option with it |
| ServicesManager.FindOwnValue | src/components/admin/ServicesManager.jsx:114 | with distinct values, looking up an option's own value finds that option |
| ServicesManager.IconLookup | src/components/admin/ServicesManager.jsx:12-21 | each of the eight values draws its own icon, and any other value falls back to Code |
| ServicesManager.IconFor | src/components/admin/ServicesManager.jsx:114 | `iconOptions.find(...)?.icon \|\| Code`; no contract of its own, its meaning is `ServicesManager.IconLookup` |
| ServicesManager.WithField | src/components/admin/ServicesManager.jsx:85-90 | the changed input's field takes the value and the others keep theirs |
| ServicesManager.FormOf | src/components/admin/ServicesManager.jsx:55-64 | the form filled in from a service describes exactly that service, minus its id |
| ServicesManager.Submitted | src/components/admin/ServicesManager.jsx:35-53 | editing merges the form into the entries with the edited id and keeps the length; adding appends the new service and keeps every old entry |
| ServicesManager.EditUntouchedIsNoOp | src/components/admin/ServicesManager.jsx:35-64 | with distinct ids, opening a service for edit and submitting it untouched leaves the list as it was |
| ServicesManager.Editor.constructor | src/components/admin/ServicesManager.jsx:26-33 | empty form with icon `Code`, nothing being edited, dialog closed |
| ServicesManager.Editor.OpenForAdd | src/components/admin/ServicesManager.jsx:103-104 | the dialog opens; the form is kept |
| ServicesManager.Editor.HandleEdit | src/components/admin/ServicesManager.jsx:55-64 | the service is being edited, its fields fill the form, the dialog is open |
| ServicesManager.Editor.HandleChange | src/components/admin/ServicesManager.jsx:85-90 | only the named field of the form changes |
| ServicesManager.Editor.ResetForm | src/components/admin/ServicesManager.jsx:74-83 | back to the empty form, nothing edited, dialog closed |
| ServicesManager.Editor.HandleSubmit | src/components/admin/ServicesManager.jsx:35-53 | the store's services become the submitted list (update or add) and the editor is reset |
| ServicesManager.Editor.HandleDelete | src/components/admin/ServicesManager.jsx:66-72 | the store drops the service; nothing else in the store changes |
| TeamManager.WithField | src/components/admin/TeamManager.jsx:71-76 | the changed input's field takes the value and the others keep theirs |
| TeamManager.FormOf | src/components/admin/TeamManager.jsx:43-51 | the form filled in from a member describes exactly that member, minus its id |
| TeamManager.Submitted | src/components/admin/TeamManager.jsx:23-41 | editing merges the form into the members with the edited id and keeps the length; adding appends the new member and keeps every old one |
| TeamManager.EditKeepsIds | src/components/admin/TeamManager.jsx:23-41 | an edit keeps every id, changes no member with another id, and keeps ids distinct |
| TeamManager.Editor.constructor | src/components/admin/TeamManager.jsx:15-21 | empty form, nothing being edited, dialog closed |
| TeamManager.Editor.OpenForAdd | src/components/admin/TeamManager.jsx:89-90 | the dialog opens; the form is kept |
| TeamManager.Editor.HandleEdit | src/components/admin/TeamManager.jsx:43-51 | the member is being edited, its fields fill the form, the dialog is open |
| TeamManager.Editor.HandleChange | src/components/admin/TeamManager.jsx:71-76 | only the named field of the form changes |
| TeamManager.Editor.ResetForm | src/components/admin/TeamManager.jsx:61-69 | back to the empty form, nothing edited, dialog closed |
| TeamManager.Editor.HandleSubmit | src/components/admin/TeamManager.jsx:23-41 | the store's team becomes the submitted list (update or add) and the editor is reset |
| TeamManager.Editor.HandleDelete | src/components/admin/TeamManager.jsx:53-59 | the store drops the member; the editor's state is unchanged |
| Chatbot.LowerChar | src/components/Chatbot.jsx:34 | an upper-case letter maps to its lower-case letter, any other character to itself, and the result is never upper-case |
| Chatbot.ToLower | src/components/Chatbot.jsx:34 | `toLowerCase` keeps the length and lower-cases character by character |
| Chatbot.ToLowerIdempotent | src/components/Chatbot.jsx:34 | lower-casing twice is lower-casing once |
| Chatbot.ToLowerOfLower | src/components/Chatbot.jsx:36-56 | text of lower-case letters and spaces, such as every keyword, is its own lower-case form |
| Chatbot.IncludesSpec | src/components/Chatbot.jsx:36-56 | `includes` holds exactly when the keyword occurs at some position |
| Chatbot.SameLength | src/components/Chatbot.jsx:36-56 | between texts of equal length, `includes` is equality |
| Chatbot.CharOutOfPlace | src/components/Chatbot.jsx:36-56 | a keyword one of whose characters cannot be in place at any start position is not included |
| Chatbot.LeadingSpace | src/components/Chatbot.jsx:62 | the leading run of white space is maximal |
| Chatbot.TrailingSpaceStart | src/components/Chatbot.jsx:62 | the trailing run of white space is maximal |
| Chatbot.BlankIffAllSpace | src/components/Chatbot.jsx:62 | `trim()` is empty exactly when every character is white space |
| Chatbot.TrimKeepsInterior | src/components/Chatbot.jsx:62 | the trimmed text occurs in the original and neither starts nor ends with white space |
| Chatbot.Trim | src/components/Chatbot.jsx:62 | `trim()`; no contract of its own, its meaning is `Chatbot.BlankIffAllSpace` and `Chatbot.TrimKeepsInterior` |
| Chatbot.AnyIncludesSpec | src/components/Chatbot.jsx:36-56 | a rule's `a \|\| b \|\| c` holds exactly when some keyword is included |
| Chatbot.FirstMatch | src/components/Chatbot.jsx:36-58 | the `if` chain over the rules; no contract of its own, its meaning is `Chatbot.FirstMatchWins` and `Chatbot.FirstMatchDefault` |
| Chatbot.FirstMatchWins | src/components/Chatbot.jsx:36-58 | the first rule that matches decides the topic, whatever later rules match |
| Chatbot.FirstMatchDefault | src/components/Chatbot.jsx:36-58 | the default topic exactly when no rule matches |
| Chatbot.Classify | src/components/Chatbot.jsx:33-58 | the topic of a message; no contract of its own, its meaning is `Chatbot.ResponseIsFirstRule`, `Chatbot.DefaultIffNoRule` and `Chatbot.CaseInsensitive` |
| Chatbot.GetResponse | src/components/Chatbot.jsx:33-59 | `getResponse(message)`; no contract of its own, its meaning is `Chatbot.ResponseIsFirstRule` (the reply of the first rule matching the lower-cased message, else the default) |
| Chatbot.ResponseIsFirstRule | src/components/Chatbot.jsx:33-59 | the reply to a message is that of the first rule matching its lower-cased form |
| Chatbot.DefaultIffNoRule | src/components/Chatbot.jsx:58 | the default reply exactly when none of the seven rules matches the lower-cased message |
| Chatbot.CaseInsensitive | src/components/Chatbot.jsx:34 | a message and its lower-case form get the same topic |
| Chatbot.CuantoMeansPrices | src/components/Chatbot.jsx:39-41 | "cuanto" gets the prices reply |
| Chatbot.CuandoMissesFirstRules | src/components/Chatbot.jsx:36-47 | "cuando" matches none of the first three rules |
| Chatbot.CuandoMissesMiddleRules | src/components/Chatbot.jsx:45-53 | "cuando" matches none of rules four to six |
| Chatbot.CuandoMeansHours | src/components/Chatbot.jsx:54-56 | "cuando" gets the hours reply |
| Chatbot.AhoraMissesEarlierRules | src/components/Chatbot.jsx:36-53 | "ahora" matches none of the first six rules |
| Chatbot.AhoraMeansHours | src/components/Chatbot.jsx:54-56 | "ahora" gets the hours reply, because it contains "hora" |
| Chatbot.ServicesBeforePrices | src/components/Chatbot.jsx:36-41 | a message naming both a service and a price gets the services reply: rule order decides |
| Chatbot.HolaIsDefault | src/components/Chatbot.jsx:58 | "hola" gets the default reply |
| Chatbot.CuantoClassified | src/components/Chatbot.jsx:33-41 | the message "cuanto" gets the prices topic |
| Chatbot.CuandoClassified | src/components/Chatbot.jsx:33-56 | the message "cuando" gets the hours topic and the hours reply |
| Chatbot.AhoraClassified | src/components/Chatbot.jsx:33-56 | the message "ahora" gets the hours topic and the hours reply, through its "hora" |
| Chatbot.CapitalsIgnored | src/components/Chatbot.jsx:34 | the message "CUANDO" gets the hours topic, as "cuando" does |
| Chatbot.Chat.constructor | src/components/Chatbot.jsx:11-19 | the conversation starts with the greeting alone, from the bot with id 1, and the input is empty |
| Chatbot.Chat.SetInput | src/components/Chatbot.jsx:165 | the input line takes the typed text; the messages are unchanged |
| Chatbot.Chat.Send | src/components/Chatbot.jsx:61-72 | a blank input sends nothing and changes nothing; otherwise the visitor's message is appended, the input cleared and the text returned |
| Chatbot.Chat.ReceiveReply | src/components/Chatbot.jsx:74-83 | the bot's reply to the sent text is appended with id one more than the clock |
| Chatbot.Chat.HandleSendMessage | src/components/Chatbot.jsx:61-84 | a blank input changes nothing; otherwise the visitor's message and then the bot's reply to it are appended and the input is cleared |
| Chatbot.Chat.KeyPress | src/components/Chatbot.jsx:86-90 | only Enter sends; any other key changes nothing |

## Left out

- Rendering is not modelled: the JSX markup, icons, animations, dialogs
  and toasts' presentation. The toast texts of the two lists are
  modelled; those of the services and team editors are not.
- The chatbot's one-second `setTimeout` is modelled as a separate step
  (`ReceiveReply`) that `HandleSendMessage` performs right after sending.
  Other events cannot come in between.
- `Date.now()`, `new Date()` and `toISOString()` are the parameters `now`,
  `later` and `date`; the `Date` objects kept in chat messages are the
  same number.
- `toLocaleDateString('es-ES', …)` on cards is not modelled, because it
  depends on the platform's locale data.
- JSON is not modelled: values are stored in the browser store as
  themselves.
- Stored values of the wrong kind are not modelled. The store's constructor
  requires `Loadable`: each of the three keys is either unset or holds a
  value of its own kind. Malformed text makes `JSON.parse` throw in the
  initialiser, which the provider does not catch. A well-formed value of
  another shape (`5`, `null`, an object under `josoftApplications`) is
  accepted by the initialiser, which checks no shape, and breaks the page
  only later, at render or at the next spread. Neither case is modelled.
- The `cv` file of a job application is not modelled, since it is a
  browser `File` object.
- `handleChange` with an input name outside the form's fields is not
  modelled: JavaScript would add a new property, and the model's form has
  fixed fields.
- Patches can carry an `id` (`{...s, ...updatedService}` would let one
  overwrite the id). The editors never pass one, and `FormUpdateKeepsIds`
  and `EditKeepsIds` cover the editors' patches only.
- Chatbot.ToLower: lower-cases ASCII and Latin-1 letters only. Other
  Unicode case mappings of `toLowerCase` (Greek, Cyrillic, `İ`, `ẞ`) are
  not modelled, so the model's contract is weaker than JavaScript's
  behaviour outside that range.
- Review.Excerpt: counts code points where JavaScript's `substring` counts
  UTF-16 code units; the two differ on text outside the Basic
  Multilingual Plane.
- ServicesManager.Editor.HandleSubmit, TeamManager.Editor.HandleSubmit: the
  browser's `required` check is not modelled: it blocks a submit with an
  empty title, description or price (services), or an empty name, position
  or image (team). The team form's image input also has `type="url"`, so
  the browser blocks a submit whose image is not empty and not a URL. The
  model submits any form, so it admits more submits than the source.
- The chat window's `isOpen` flag and the toggle button are not modelled
  (presentation only).
- React's update batching and the timing of effects are not modelled. An
  effect's storage write is taken to follow its state change immediately.
  Each operation therefore writes its key once.
- Routing, the login page and the admin page's tabs are not modelled: they
  are not part of this model.
- A status is kept as a value rather than a string: `Records.Status` holds
  Pending, Approved, Rejected, or `Other(text)` for any text that is none of
  the three words. The type admits exactly one value per stored text.
  `Records.SameTextSameStatus` and `Records.StatusTests` show that the
  model's tests on a status are the source's string comparisons.
- Ids are not guaranteed unique: ids derived from timestamps can collide.
  The lemmas that need distinct ids require it, and
  `Review.SharedIdBreaksGuard` shows what goes wrong without it.
- The eight chatbot reply texts are not proved pairwise distinct: a lemma
  comparing the long literals is too costly to verify. Facts about
  replies are therefore stated about topics (`Classify`).
- The chat's visitor message uses `Date.now()` as its id, as the source
  does. Ids of chat messages are not claimed distinct.
