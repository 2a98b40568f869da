# Feelability: profile, notes and sharing logic in Dafny

Feelability is a small web application. A signed-in user keeps "profiles" of people in their
life, presses punch, hug and kiss buttons that raise per-profile counters, and writes
emotion-tagged notes. Profiles are shared through a link that enrols the visitor as a
collaborator. This project models three parts of it:

- **The character page** (`app/character/page.tsx`). The page state is modelled twice:
  - `CharacterSteps` is a state machine. Each event handler is a function from the state
    before to the state after.
  - `CharacterPage.Page` is a class with the same state in fields. Each handler is a method
    that updates those fields in place and is proved to follow the matching step.

  The handlers are:
  - loading profiles: the cache paint, then the owned, shared and link merge and the choice
    of the active profile;
  - the notes loader;
  - switching profiles;
  - punch, hug and kiss;
  - saving and deleting notes;
  - creating and editing profiles;
  - deleting profiles;
  - the collaborator list.

  Handlers that await a request are split in two:
  - a Begin step, which makes the changes before the request and records what the
    handler's closure captured;
  - a Complete step, which applies the request's outcome.
- **The home page** (`app/page.tsx`), as the class `Home.HomePage`. It covers:
  - the owned and shared merge, without the shared-link step;
  - the image table;
  - the redirect rule "stored id if still listed, else the first profile";
  - a create handler with laxer checks than the character page.
- **The `.env.local` loader** (`supabase/test-rls.ts:25-39`), as `EnvLoader.Env`. Its
  `forEach` loop is a `while` loop over the file's lines. It writes into the `process.env`
  map, which is a field of the class.

The shared modules:
- `Common`: JavaScript's `trim`, truthiness and UTF-16 length.
- `Profiles`: the `Profile` record of `app/types.ts`, `mapProfile`, and the per-id list updates.
- `Notes`: the `Note` record, `sortNotesByDate` and the emotion labels.
- `Merge`: the insertion-ordered `Map` merge, the creation-time sort, the image table and the
  choice of the active profile.
- `Sharing`: link resolution, `ensureCollaborator` against the collaborator table, and the
  collaborator list.
- `Storage`: `localStorage` keys and cache reads.
- `Remote`: the remote writes a step issues.

Remote calls are parameters:
- a request that fails or returns no row is `None`;
- `Date.now()` is a `now` argument;
- `Math.random()` is the guest `seed`.

## Model

| member | source | states |
|---|---|---|
| Common.Trim | app/character/page.tsx:849 | `trim()` removes exactly the leading and trailing JavaScript whitespace: the result is a slice of the input with whitespace only outside it, and it neither starts nor ends with whitespace |
| Common.TrimEmptyIffBlank | app/character/page.tsx:849 | `!s.trim()` holds exactly when every character of `s` is whitespace |
| Common.TrimIdempotent | app/character/page.tsx:655-662 | trimming a trimmed name or description changes nothing |
| Common.Utf16Length | app/character/page.tsx:656-665 | `.length` counts each character outside the Basic Multilingual Plane as two, so it lies between the character count and twice that |
| Common.DecimalRoundTrip | app/character/page.tsx:30-45 | the guest avatar number printed in decimal reads back as the same number |
| Profiles.NonEmpty | app/character/page.tsx:207-209 | `s \|\| undefined` is absent exactly when `s` is falsy and is `s` otherwise |
| Profiles.MapProfile | app/character/page.tsx:204-216 | `mapProfile` keeps the id, owner and name, and never produces an empty description or image |
| Profiles.MapProfileDefaults | app/character/page.tsx:203-216 | each counter is its column or 0 when the column is null, visibility is public exactly for "public", the creation time is the column or the clock, and description and image are kept exactly when truthy |
| Profiles.MapProfileOfRow | app/page.tsx:44-56 | mapping the full row of a well-formed profile gives the profile back, whatever the clock says: a counter comes from its column, visibility is public only for "public", and an empty description or image collapses |
| Profiles.MapProfileNormalises | app/page.tsx:44-56 | mapping is a normalisation: re-mapping a mapped row changes nothing |
| Profiles.CreatedProfileShape | app/character/page.tsx:718-733 | a created profile belongs to its creator, carries the trimmed name and the chosen visibility, has a description exactly when the trimmed description is non-empty, and starts with zero counters |
| Profiles.GuestProfile | app/character/page.tsx:30-45 | the guest profile is "guest-profile", owned by "guest", private, with zero counters and an image |
| Profiles.Ids | app/types.ts:1-13 | the id set of a list holds exactly the ids of its entries |
| Profiles.Find | app/character/page.tsx:1003-1005 | `find` returns the first entry with the id, and nothing exactly when no entry has it |
| Profiles.WithCounter | app/character/page.tsx:777-780 | setting one counter changes only that counter and keeps the id |
| Profiles.Increment | app/character/page.tsx:777-780 | a counter bump raises counter `c` by one on the entries with the id; every other entry, field and counter is unchanged |
| Profiles.DecrementFloor | app/character/page.tsx:957-959 | `Math.max(0, n - 1)` is never negative and is `n - 1` for positive `n` |
| Profiles.DecrementNotes | app/character/page.tsx:957-959 | only the target's `notesCount` changes, to `max(0, n - 1)` |
| Profiles.ReplaceById | app/character/page.tsx:692-694 | an edit replaces exactly the entries with the edited id |
| Profiles.SetImage | app/character/page.tsx:235-237 | the `map` that stores a fetched image changes only the entries with that id, and only their image |
| Profiles.SetImageFind | app/character/page.tsx:235-237 | after it, the listed profile with that id is the old record with the new image |
| Profiles.RemoveById | app/character/page.tsx:620 | the filter removes exactly the id, keeps every other entry, and keeps ids distinct |
| Profiles.NotesCountStaysNonNegative | app/character/page.tsx:908-910 | neither a note save nor a note delete makes a note counter negative |
| Profiles.IncrementThenDecrement | app/character/page.tsx:957-959 | adding a note and then removing it gives back the original list when counters are non-negative |
| Notes.MapNote | app/character/page.tsx:336-343 | a loaded note keeps id, text, author and time, and a missing emotion reads as "feelings" |
| Notes.SavedNote | app/character/page.tsx:892-898 | a saved note always has an emotion and a time |
| Notes.SavedNoteMatchesReload | app/character/page.tsx:892-898 | when the store echoes the emotion and time, the note added after a save is the note a reload produces |
| Notes.SavedNoteKeepsWhatWasWritten | app/character/page.tsx:876-898 | the saved note keeps the trimmed text and the chosen emotion |
| Notes.GuestNote | app/character/page.tsx:852-858 | a guest note is authored by "guest", timed `now`, with the chosen emotion |
| Notes.CompareIsKeyOrder | app/character/page.tsx:243-250 | the comparator is a total preorder on (timed, time) keys: it returns at most 0 exactly when the keys are ordered, and 0 exactly when they are equal |
| Notes.SortNotesByDate | app/character/page.tsx:242-251 | the sort returns a new list that is a permutation of its input |
| Notes.SortNotesByDateSorted | app/character/page.tsx:242-251 | timed notes come first in non-increasing time, and untimed (missing or 0) notes come after all of them |
| Notes.SortNotesByDateStable | app/character/page.tsx:242-251 | notes with equal keys keep their input order |
| Notes.SortNotesByDateOfSorted | app/character/page.tsx:242-251 | a sorted list comes back unchanged |
| Notes.SortNotesByDateIdempotent | app/character/page.tsx:242-251 | sorting twice is sorting once |
| Notes.NewestNoteFirst | app/character/page.tsx:900 | a note newer than all others is shown first after a save |
| Notes.RemoveNote | app/character/page.tsx:948 | the filter removes exactly the notes with the id |
| Notes.RemoveNoteKeepsSorted | app/character/page.tsx:948 | removing notes keeps a list sorted |
| Notes.DeleteKeepsOrder | app/character/page.tsx:948 | re-sorting after a delete leaves the remaining notes in the order they had |
| Notes.ShownAfterDelete | app/character/page.tsx:948 | whatever order the list had, the filtered and re-sorted list is a sorted permutation of the other notes, and the filtered list itself when the input was sorted |
| Notes.LabelsIdentifyEmotion | app/character/page.tsx:267-289 | header and tag classes tell the three emotions apart and treat a missing emotion as "feelings" |
| Remote.CounterWrite | app/character/page.tsx:781-784 | the counter write goes to the right column and row and carries the updated profile's value of that counter; nothing is written when the id is not listed |
| Merge.MapSetMembers | app/character/page.tsx:478-481 | `mergedMap.set` leaves the new record plus every other record it held |
| Merge.MapSetIds | app/character/page.tsx:478-481 | a set adds exactly the record's id to the key set |
| Merge.MapSetDistinct | app/character/page.tsx:478-481 | a Map never holds two records with one id |
| Merge.MergedOf | app/character/page.tsx:478-481 | the merged Map has distinct ids and exactly the ids of the sources |
| Merge.MergedOfFirstOrder | app/character/page.tsx:478-481 | the Map keeps each key where it was first set: merged entries come in the order of each id's first source occurrence |
| Merge.MergedOfLastWins | app/character/page.tsx:478-481 | each merged record is the last source record with its id |
| Merge.MergedOfDistinct | app/page.tsx:105-108 | sources with distinct ids come out unchanged |
| Merge.MergeById | app/page.tsx:105-108 | the `for` loop over the sources builds exactly the merged Map |
| Merge.InsertByCreated | app/character/page.tsx:515-517 | one insertion step adds exactly its element |
| Merge.SortByCreated | app/character/page.tsx:515-517 | the profile sort returns a permutation of its input |
| Merge.SortByCreatedSorted | app/character/page.tsx:515-517 | the list comes out in non-increasing `createdAt` |
| Merge.SortByCreatedDistinct | app/character/page.tsx:515-517 | sorting keeps ids distinct |
| Merge.SortByCreatedStable | app/character/page.tsx:515-517 | profiles created at the same time keep their Map order |
| Merge.MergedProfilesFacts | app/character/page.tsx:478-517 | the merged list has distinct ids, exactly the source ids, is newest first, and holds the latest record of each id |
| Merge.LaterSourceWins | app/character/page.tsx:478-481 | a record of a later source beats every earlier record with the same id (owned < shared < link) |
| Merge.ImageMap | app/page.tsx:115-119 | the image table's keys are exactly the ids of profiles with a truthy image |
| Merge.ImageMapValues | app/page.tsx:115-119 | with distinct ids, each such id maps to its profile's image |
| Merge.BuildImageMap | app/page.tsx:115-119 | the loop builds exactly the image table |
| Merge.MergeAndIndex | app/character/page.tsx:478-530 | merge, sort and image loop together give the merged list and its table |
| Merge.ChooseAfterLoad | app/character/page.tsx:537-555 | the link profile wins; otherwise a valid stored id; otherwise `merged[0]`, which alone is written back; nothing only for an empty list with no link |
| Merge.NextProfileId | app/page.tsx:129-137 | the home rule keeps a stored id naming a listed profile, otherwise takes the first; the result is always listed |
| Merge.HomeAndCharacterAgree | app/page.tsx:129-137 | with no link, both pages pick the same profile from the same list and pointer |
| Sharing.ResolveLink | app/character/page.tsx:495-505 | a link is refused when the lookup fails or finds nothing, or when the visitor is not the owner and the profile is not public; an accepted link enrols exactly non-owners, and only into public profiles |
| Sharing.PrivateLinkRefusedToCollaborators | app/character/page.tsx:502-505 | an enrolled collaborator is still refused a private profile |
| Sharing.Count | app/character/page.tsx:355-364 | the enrolment count is zero exactly when the pair is absent |
| Sharing.EnsureCollaboratorWrites | app/character/page.tsx:355-385 | an insert is sent exactly when there is a user and the lookup did not find one row |
| Sharing.VisitEnrolsOnce | app/character/page.tsx:355-385 | with a working lookup, a visit leaves at most one row, and exactly one when the insert succeeds |
| Sharing.RepeatVisitAddsNothing | app/character/page.tsx:355-364 | an enrolled visitor's repeat visit adds nothing |
| Sharing.FailedLookupDuplicates | app/character/page.tsx:355-385 | a failed lookup enrols an enrolled visitor a second time |
| Sharing.DuplicatesKeepGrowing | app/character/page.tsx:358-362 | once two rows exist, `maybeSingle` errors and every visit adds another |
| Sharing.FilterOutOwner | app/character/page.tsx:1023 | the collaborator list holds exactly the rows whose user is not the owner |
| Sharing.FilterOutOwnerKeepsOthers | app/character/page.tsx:1023 | without owner rows the filter changes nothing |
| Sharing.RemoveCollaboratorById | app/character/page.tsx:1070 | removal drops exactly the rows with that id |
| Sharing.RemoveCollaboratorIdempotent | app/character/page.tsx:1070 | removing twice is removing once |
| Storage.StorageKey | app/character/page.tsx:191 | a key is `u:`, the user part, `:`, then the base |
| Storage.BasesDistinguishKeys | app/character/page.tsx:191-194 | for one user two keys are equal exactly when their bases are |
| Storage.BaseTextInjective | app/character/page.tsx:191-194 | the pointer, list, image and per-profile notes keys never collide |
| Storage.KeyTextInjective | app/character/page.tsx:191-194 | for one user a key's text determines the key |
| Storage.KeysSeparateUsers | app/character/page.tsx:191 | two users whose ids hold no ':' never share a key |
| Storage.ReadProfiles | app/character/page.tsx:394-401 | the profile cache is used exactly when it holds an array; a non-empty unparsable text throws |
| Storage.ReadImages | app/character/page.tsx:403-409 | the image cache is used exactly when it holds an object |
| Storage.ReadNotes | app/character/page.tsx:305-317 | a notes cache is used exactly when it holds an array |
| Storage.ReadPointer | app/character/page.tsx:411 | the pointer is read back raw |
| Storage.WrittenIsRead | app/character/page.tsx:347 | each cache write reads back as written |
| CharacterSteps.GuestModeShowsGuestProfile | app/character/page.tsx:146-157 | guest mode shows only the guest profile, selected, with its image and no notes |
| CharacterSteps.PaintSelectsCachedProfile | app/character/page.tsx:393-426 | a cached list with no link open is shown at once; a non-empty one selects a listed profile that the pointer then holds; a valid pointer is kept untouched |
| CharacterSteps.MapRows | app/character/page.tsx:452 | owned and shared rows are mapped without their image column |
| CharacterSteps.LoadSourcesCarryNoImage | app/character/page.tsx:429-475 | no merged source carries an image, since `image_data` is not selected |
| CharacterSteps.MergedHaveNoImage | app/character/page.tsx:526-530 | so the rebuilt image table is empty |
| CharacterSteps.LoadedListFacts | app/character/page.tsx:427-562 | after a load the list has distinct ids, exactly the source ids, newest first, and the latest record per id; the pointer-based selection is a listed profile, the link's when one is open; the caches hold the list and its table |
| CharacterSteps.DeniedLinkKeepsList | app/character/page.tsx:484-505 | a refused link sets access-denied, stops loading and changes neither list nor storage |
| CharacterSteps.OwnedErrorStopsLoad | app/character/page.tsx:446-449 | an owned-query error ends the load with nothing written and nothing changed except the loading flag, which `finally` clears |
| CharacterSteps.EnrolOnlyNonOwners | app/character/page.tsx:507-512 | a load's only possible write is one enrolment of the visitor into the linked profile, never by its owner |
| CharacterSteps.MapNoteRows | app/character/page.tsx:336-343 | fetched note rows map one to one |
| CharacterSteps.NotesLoadedFrame | app/character/page.tsx:291-353 | loading notes changes only the notes and that profile's notes cache |
| CharacterSteps.FetchedNotesShown | app/character/page.tsx:336-350 | a successful fetch shows and caches exactly the fetched notes, newest first |
| CharacterSteps.FailedFetchKeepsCache | app/character/page.tsx:305-334 | a failed fetch leaves the cached (or previous) notes shown |
| CharacterSteps.SwitchRemembered | app/character/page.tsx:751-761 | a switch stores the chosen id as the pointer and keeps interactions blocked |
| CharacterSteps.InteractionsExclusive | app/character/page.tsx:763-842 | a press is ignored while any of the three animations, a note save or a profile switch is running; otherwise exactly its own animation starts, so at most one runs |
| CharacterSteps.InteractionWritesNewCount | app/character/page.tsx:776-784 | outside guest mode the timer writes the current profile's new count, one above the count captured at press time |
| CharacterSteps.GuestModeWritesNothing | app/character/page.tsx:768-776 | in guest mode the interaction timer issues no remote write, a note save sends no request and a note delete sends none, and none of them touches the cache |
| CharacterSteps.FinishKeepsExclusive | app/character/page.tsx:765-767 | the end of an animation clears its flag and keeps the animations exclusive |
| CharacterSteps.BlankNoteIgnored | app/character/page.tsx:849 | whitespace-only text is never saved and changes nothing |
| CharacterSteps.SaveNoteGuards | app/character/page.tsx:849 | with no current profile, or signed out outside guest mode, a save press changes nothing and sends nothing |
| CharacterSteps.FailedSaveChangesNothing | app/character/page.tsx:886-890 | a failed insert leaves the state as the press found it |
| CharacterSteps.SavedNoteJoinsList | app/character/page.tsx:892-925 | a saved note joins the captured notes in date order, the notes cache holds the new list, and only the current profile's note counter rises by one |
| CharacterSteps.DeleteRemovesNote | app/character/page.tsx:942-960 | for any shown list, sorted or not (a cached list is shown as parsed), the optimistic delete shows exactly the other notes in date order, in their own order when the list was sorted, and lowers the current profile's note counter by one, floored at 0, leaving every other profile as it was |
| CharacterSteps.FailedDeleteRestores | app/character/page.tsx:971-985 | a failed delete restores the exact notes and profiles the press found and clears the in-flight flag |
| CharacterSteps.NonAuthorCannotDelete | app/character/page.tsx:942-944 | outside guest mode a press on a note the signed-in user did not write, or with no user, changes nothing and sends nothing |
| CharacterSteps.DeleteFlagCleared | app/character/page.tsx:962-996 | the in-flight flag is set only while the delete is awaited and is false on every way out |
| CharacterSteps.InFlightDeleteSkipsReload | app/character/page.tsx:566-580 | while a delete is in flight, the notes effect does not reload that profile |
| CharacterSteps.CreateStartsOnlyWhenValid | app/character/page.tsx:653-690 | a request goes out exactly when no save runs and the form is acceptable: user, no guest mode, image, non-blank name of at most 30 UTF-16 units, description of at most 50; a refused press changes nothing |
| CharacterSteps.FailedCreateChangesNothing | app/character/page.tsx:686-731 | a failed insert or update leaves the state as the press found it |
| CharacterSteps.CreatedProfileSelected | app/character/page.tsx:718-749 | a created profile is prepended to the list the press saw, selected, and stored as the pointer |
| CharacterSteps.EditReplacesOnlyEdited | app/character/page.tsx:691-717 | an edit replaces only the edited profile, and making it private revokes its collaborators |
| CharacterSteps.UntouchedEditRoundTrip | app/character/page.tsx:605-615 | opening the editor and saving untouched writes back the profile's own name, description and visibility |
| CharacterSteps.ImageEffectQueries | app/character/page.tsx:582-587 | when the image effect's guard holds, `loadProfileImage` gets past its early returns and queries the store |
| CharacterSteps.LoadedProfileAsksForImage | app/character/page.tsx:582-587 | after a load outside guest mode the selected profile has no image in its record or table, so the effect runs |
| CharacterSteps.LoadedEditRefusedUntilImage | app/character/page.tsx:653-655 | until an image arrives, editing any freshly loaded profile and saving is refused at the image guard |
| CharacterSteps.ImageArrivalRecorded | app/character/page.tsx:223-239 | a truthy fetched image goes into the table and into the record with that id, nothing else changes, and it is handed back; an error, no row or an empty image changes nothing and returns null |
| CharacterSteps.ImageEffectSettles | app/character/page.tsx:582-592 | once the image has arrived the effect's guard fails, so it does not ask again |
| CharacterSteps.ImageArrivalEnablesEdit | app/character/page.tsx:605-615 | after the image arrives, opening the editor on the current profile and saving untouched sends the update carrying that image, when name and description are within the limits |
| CharacterSteps.DeletedProfileGone | app/character/page.tsx:617-643 | after a delete the profile and its image are gone, and any selection names a remaining profile |
| CharacterSteps.OwnerNotListed | app/character/page.tsx:1010-1025 | only the owner loads the list, and the owner never appears in it |
| CharacterSteps.RevokeOnlyByOwner | app/character/page.tsx:1066-1074 | only the owner revokes; the row leaves the list and the rest stay |
| CharacterPage.Page.constructor | app/character/page.tsx:22-100 | guest mode holds only without a user; the page starts empty with no flag raised |
| CharacterPage.Page.EnterGuestMode | app/character/page.tsx:146-157 | the fields move as `GuestEntered` says |
| CharacterPage.Page.StartLoadingProfiles | app/character/page.tsx:387-426 | the fields move as the cache paint says |
| CharacterPage.Page.FinishLoadingProfiles | app/character/page.tsx:427-562 | the fields and writes are those of `CompleteLoad` |
| CharacterPage.Page.ShowMergedProfiles | app/character/page.tsx:478-556 | the merge and image loops followed by the selection give `CompleteLoad`'s state |
| CharacterPage.Page.LoadProfileNotes | app/character/page.tsx:291-353 | the fields move as `NotesLoaded` says |
| CharacterPage.Page.OnProfileChanged | app/character/page.tsx:566-580 | the fields move as `ProfileChanged` says |
| CharacterPage.Page.HandleSwitchProfile | app/character/page.tsx:751-761 | the fields move as `SwitchedProfile` says |
| CharacterPage.Page.HandleInteraction | app/character/page.tsx:763-842 | the fields move as `StartInteraction` says, keeping at most one animation |
| CharacterPage.Page.InteractionTimerFired | app/character/page.tsx:765-787 | the fields and the write are those of `FinishInteraction` |
| CharacterPage.Page.LoadProfileImage | app/character/page.tsx:218-240 | no id or guest mode returns nothing, a table hit returns the cached image, and otherwise the fields and result are those of `CompleteImageLoad` |
| CharacterPage.Page.LoadCurrentImage | app/character/page.tsx:582-592 | the effect changes nothing when its guard fails, and otherwise records the fetched image as `CompleteImageLoad` says |
| CharacterPage.Page.HandleSaveNote | app/character/page.tsx:848-884 | the fields move as `BeginSaveNote` says |
| CharacterPage.Page.SaveNoteCompleted | app/character/page.tsx:886-925 | the fields and writes are those of `CompleteSaveNote` |
| CharacterPage.Page.HandleDeleteNote | app/character/page.tsx:942-972 | the fields move as `BeginDeleteNote` says |
| CharacterPage.Page.DeleteNoteCompleted | app/character/page.tsx:973-1000 | the fields and writes are those of `CompleteDeleteNote` |
| CharacterPage.Page.CreateProfile | app/character/page.tsx:653-690 | the fields move as `BeginCreateProfile` says |
| CharacterPage.Page.EditCompleted | app/character/page.tsx:691-717 | the fields and writes are those of `CompleteEditProfile` |
| CharacterPage.Page.CreateCompleted | app/character/page.tsx:718-749 | the fields move as `CompleteCreateProfile` says |
| CharacterPage.Page.OpenEditor | app/character/page.tsx:605-615 | the form moves as `OpenEditModal` says |
| CharacterPage.Page.HandleDeleteProfile | app/character/page.tsx:617-643 | the fields and writes are those of `DeleteProfile` |
| CharacterPage.Page.LoadCollaboratorList | app/character/page.tsx:1010-1025 | the fields move as `LoadCollaborators` says |
| CharacterPage.Page.HandleRemoveCollaborator | app/character/page.tsx:1066-1074 | the fields and writes are those of `RemoveCollaborator` |
| Home.MapAll | app/page.tsx:76 | owned and shared rows are mapped one to one with every column |
| Home.HomeListFacts | app/page.tsx:105-119 | the home list has distinct ids, exactly the owned and shared ids, newest first; a shared record overrides an owned one; every profile with a truthy image maps to it in the table |
| Home.FailedSharedQueryShowsOwned | app/page.tsx:78-103 | a failing collaborator-id or shared query degrades to exactly the owned profiles |
| Home.NextProfileIdIdempotent | app/page.tsx:129-137 | re-running the selection on the same list writes the same id |
| Home.CharacterPageKeepsHomeChoice | app/page.tsx:129-138 | the character page shows the id the home page stored, and rewrites the pointer only when that id is empty |
| Home.CharacterRulesImplyHomeRules | app/page.tsx:155 | whatever the character page's form accepts, the home page accepts |
| Home.HomeSkipsLengthLimit | app/page.tsx:155 | a 31-letter name is accepted at home but refused by the character page's form |
| Home.CreatedImageFromForm | app/page.tsx:157-189 | a created profile has an image exactly when the form had a non-empty one |
| Home.HomePage.constructor | app/page.tsx:18-31 | the page starts with no profiles, no flags and an empty form |
| Home.HomePage.RedirectIfSignedOut | app/page.tsx:34-39 | the login redirect happens exactly when auth has settled without a user |
| Home.HomePage.StartLoadingProfiles | app/page.tsx:58-60 | loading starts only with a user; nothing else changes |
| Home.HomePage.FinishLoadingProfiles | app/page.tsx:59-122 | an owned-query error keeps the list and images; otherwise they become the merged list and its table; loading ends either way |
| Home.HomePage.SelectCurrentProfile | app/page.tsx:128-139 | skipped while loading, without a user or with no profile; otherwise the chosen id is written back, names a listed profile, and the page redirects |
| Home.HomePage.StartImageUpload | app/page.tsx:141-152 | a chosen file marks an upload in progress |
| Home.HomePage.ImageLoaded | app/page.tsx:146-149 | the data URL becomes the form image and the upload ends |
| Home.HomePage.HandleCreateProfile | app/page.tsx:154-209 | a request goes out exactly for a non-blank name, a user and no upload in progress, with no length limit; a failure changes nothing; success prepends the profile, stores it as current, records its image and resets the form |
| Home.HomePage.AddCreatedProfile | app/page.tsx:192-205 | the created profile goes in front of the list, becomes the stored current profile, its image is recorded when it has one, and the form is reset and closed |
| Home.HomePage.HandleSelectProfile | app/page.tsx:211-214 | the chosen id is stored and reads back |
| EnvLoader.FirstIndexOf | supabase/test-rls.ts:28 | the first occurrence of a character, or the length |
| EnvLoader.SplitLines | supabase/test-rls.ts:27 | `split("\n")` gives at least one line, none holding "\n" |
| EnvLoader.JoinSplit | supabase/test-rls.ts:27 | joining the split lines gives the file back |
| EnvLoader.SplitJoin | supabase/test-rls.ts:27 | splitting joined lines without "\n" gives them back |
| EnvLoader.MatchLine | supabase/test-rls.ts:28-29 | a line matches exactly when its first '=' is neither first nor absent and no line terminator follows it; group 1 holds no '=' and the groups rebuild the line |
| EnvLoader.ParseEnvLine | supabase/test-rls.ts:28-31 | a matching line yields its trimmed groups |
| EnvLoader.ParseWrittenEntry | supabase/test-rls.ts:28-31 | parsing `key=value` gives the trimmed pair back, so values may contain '=' |
| EnvLoader.CrLfLineSkipped | supabase/test-rls.ts:28-29 | a line that keeps its '\r' is skipped |
| EnvLoader.MalformedLinesSkipped | supabase/test-rls.ts:28-29 | a line with no '=' or starting with '=' is skipped |
| EnvLoader.ApplyLine | supabase/test-rls.ts:32-34 | a matching line sets its key unless it holds a non-empty value; other keys are untouched |
| EnvLoader.FirstNonEmpty | supabase/test-rls.ts:32-34 | the first non-empty value, nothing only when all are empty |
| EnvLoader.ApplyLinesPicksWinner | supabase/test-rls.ts:27-35 | every key ends with the first non-empty value among its previous value and the file's values; it holds "" if it had or was given only empty values, and stays unset otherwise |
| EnvLoader.NonEmptyValueKept | supabase/test-rls.ts:32-34 | a non-empty value set before loading is never overwritten |
| EnvLoader.FirstNonEmptyInFileWins | supabase/test-rls.ts:32-34 | an unset key ends with the first non-empty value the file gives |
| EnvLoader.Env.LoadEnvFile | supabase/test-rls.ts:25-39 | an unreadable file changes nothing; otherwise the loop leaves `process.env` as the lines applied in order |

## Left out

- Rendering: JSX, animation variants, toasts, the mobile sheet and sidebar, modal visibility,
  the displayed character name and image, and the `notesLoading` spinner flag
  (app/character/page.tsx:293-333). They do not influence the modelled state.
- Timers: the animation delays are modelled as a separate "timer fired" step, with no
  duration. The guest prompt and toast dismissal are left out.
- Time and randomness: the clock (`Date.now`, `performance.now`) and `Math.random` are
  arguments. Date formatting depends on locale and the current date, so it is left out.
- CharacterSteps.MapRows, Home.MapAll: one `now` stands for every `Date.now()` fallback of a
  load, where the code calls the clock once per row across awaits. The fallback applies only
  to a row whose `created_at` is null, and a stored profile always carries its creation time.
- The shown image (`setImage`, app/character/page.tsx:588-590): display state only. The lazy
  image load itself, with its table and list updates, is modelled (`LoadCurrentImage`).
- `navigator.share` and the clipboard, and `FileReader` on the character page: browser APIs.
  On the home page the upload is two steps, `StartImageUpload` and `ImageLoaded`, because
  its in-progress flag gates creation.
- Auth, login and navigation plumbing (`AuthProvider`, `Navbar`, the login page, layout):
  these are outside the state logic. The user is a constant of each page object.
- Row-level security and every server-side rule: the store is represented only by the
  outcomes it returns.
- Cache write failures: a failing `localStorage.setItem` is logged and ignored, so the model
  always writes.
- Interleavings: each Begin/Complete pair captures what the JavaScript closure captured, so a
  stale list is written back exactly as the page does. No other concurrency is modelled.
- Home.HomePage.HandleCreateProfile: treated as one atomic step. The list it prepends to is
  the list at the time of the call.
- The `localStorage` store is a map keyed by a `Key` datatype, not by text. The key text is
  injective for one user (`Storage.KeyTextInjective`), and users whose ids hold no ':' never
  share a key (`Storage.KeysSeparateUsers`).
- JSON parsing is only as detailed as the pages need:
  - an entry holds a typed value or unparsable text;
  - the pointer is raw text.
- A parsed cache entry of the right JavaScript type but the wrong shape (e.g. an array of
  non-profiles) is not modelled.
- EnvLoader.Env: `process.env` is a plain string map. Case-insensitive variable names (on
  Windows) and Node's string conversion are left out.

## Where the code differs from its evident intent

In each case the model follows the code. Each bullet names the code that shows what was
evidently intended.

- **Repeat enrolment.** `ensureCollaborator` looks for an existing row before it inserts
  (app/character/page.tsx:357-364), so one row per visitor is intended. Enrolment is
  idempotent only while that lookup works.
  - A failed lookup inserts a second row (`Sharing.FailedLookupDuplicates`).
  - With two rows, `maybeSingle` errors on every later visit, so each visit inserts another
    (`Sharing.DuplicatesKeepGrowing`).
- **Ignored delete results.** `handleDeleteNote` reads the remote delete's error and rolls back
  on failure (app/character/page.tsx:971-985). `handleRemoveCollaborator` (1066-1074) and
  `handleDeleteProfile` (617-643) ignore the result and update the page whatever the remote
  delete returned.
- **Note saves.** The button that opens the note editor is disabled while `noteSaving` or a
  profile switch is running (app/character/page.tsx:1519-1521), and every interaction refuses
  to start during a save (764, 791, 818), so a save was meant to run alone. `handleSaveNote`
  itself does not check `noteSaving` or the animation flags. Two saves may overlap, and a
  save may start during an animation.
- **Name and description lengths.** The character page refuses a name over 30 characters and
  a description over 50 (app/character/page.tsx:656-665), and its inputs set `maxLength` 30
  and 50 (1158, 1168). The home page's create handler checks neither limit
  (`Home.HomeSkipsLengthLimit`).
- **CRLF files.** The loader trims each key and value (supabase/test-rls.ts:30-31), so
  surrounding whitespace was meant to be dropped. But `.` in `(.*)$` does not match '\r', so
  in a `.env.local` with CRLF line endings every line is skipped (`EnvLoader.CrLfLineSkipped`).

One related behaviour matches the code's intent but is easy to miss:

- **Private links.** A shared link to a private profile is refused to every non-owner,
  collaborators included. The link check never consults the collaborator table
  (`Sharing.PrivateLinkRefusedToCollaborators`). This agrees with the edit path, which deletes
  every collaborator row when a profile is made private (app/character/page.tsx:688-690).
