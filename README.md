# chokko-RN2 client state, modelled in Dafny

chokko-RN2 is a React Native pet diary. This project models the client-side state it keeps and the small list and string rules inside its components.

The stores:

- **Pet store.** It holds the pets, the selected pet id, and the record categories of each pet. Record edits are mirrored into the profile saved under the `userInfo` key.
- **Todo and event stores.** They hold lists mirrored from the server and run a `loading`/`error` protocol around every call.
- **Auth store.** It holds the signed-in user and token, persisted under the `authToken` and `userInfo` keys so that a restart restores them.

The component rules:

- the record history list (`graphDataId` edits and the signed difference shown on each row);
- the community post form (tags, field edits, the upload file name and MIME type);
- the year/month/day picker;
- the last-seven window and colours of the bar and line charts;
- the pet profile panel (which pet is shown, selecting and adding profiles).

## How the model is built

- **Stores are classes.** Each store is a class whose `seq` fields the methods reassign, as the store's `set` calls do.
- **Server replies are inputs.** Each reply is a `Reply<T>`, either `Ok(value)` or `Err(error)`, passed in by the caller.
- **Secure storage is a map.** It is one shared `Storage` object holding a `map<string, Value>`. Writing a user to storage and reading it back gives the same user (the JSON round trip is taken to be the identity).
- **Storage failures are inputs.** A `StorageFault` names the storage call, within one store method, that throws. This exposes the non-atomic two-key writes.
- **Published states are traced.** The todo and event stores record, in a ghost trace, every state their `set` calls publish. This states the `loading`/`error` protocol as a property of the whole call.
- **`String(id)` is modelled.** `String(petId)` becomes `IntToString`, with `"undefined"` for a missing id. Lemmas prove it injective, so matching on printed ids is matching on ids.

## Model

| member | source | states |
|---|---|---|
| Pets.PetStore.constructor | stores/usePetStore.ts:60-61 | no pets, no selected pet, no requests |
| Pets.PetStore.SetPets | stores/usePetStore.ts:63 | `pets` becomes the given list; nothing else changes |
| Pets.PetStore.SetSelectedPetId | stores/usePetStore.ts:64 | `selectedPetId` becomes the given id; nothing else changes |
| Pets.PetStore.LoadPetsFromStorage | stores/usePetStore.ts:67-77 | `pets` becomes the stored profile's pets, or `[]` when the profile has none; a missing key or a read failure leaves `pets` unchanged |
| Pets.PetStore.AddPet | stores/usePetStore.ts:80-97 | with a token and a successful reply, exactly one pet is appended (the draft with the server's `petId`) after the unchanged earlier pets; a missing token or a failed call changes nothing and throws nothing; `POST /users/pets` is sent only with a token |
| Pets.PetStore.UpdatePet | stores/usePetStore.ts:100-118 | on success every pet with the same `petId` becomes `updatedPet` and the rest are untouched; otherwise `pets` is unchanged and nothing is thrown |
| Pets.PetStore.DeletePet | stores/usePetStore.ts:121-139 | on success exactly the pets with that `petId` are dropped; otherwise `pets` is unchanged and nothing is thrown |
| Pets.PetStore.EditRecords | stores/usePetStore.ts:140-193 | shared steps of the record edits: without a token it throws before any change; a server error is rethrown with nothing changed; on success the in-memory edit is applied and then the persisted edit, whose outcome `MirrorEdit` gives |
| Pets.PetStore.AddRecord | stores/usePetStore.ts:140-193 | on success the created record is appended to the pets whose `String(petId)` matches, in memory and in the saved profile; the error cases throw as the source does |
| Pets.PetStore.RemoveRecord | stores/usePetStore.ts:195-245 | on success the record is removed from the matching pets in memory and in the saved profile; `DELETE /records/:id` carries the printed record id |
| Pets.ApplyEdit | stores/usePetStore.ts:157-168 | keeps the length; the pets whose printed id matches receive the edit, the others are untouched |
| Pets.EditTargetsId | stores/usePetStore.ts:159 | matching on `String(pet.petId) === String(petId)` edits exactly the pets carrying that id |
| Pets.RemoveKeepsMissingRecords | stores/usePetStore.ts:212 | a pet without a `records` list keeps it undefined; otherwise only records with an equal `recordId` go |
| Pets.RecordRoundTrip | stores/usePetStore.ts:207-218 | adding a record with a fresh id and removing it again restores the pet (a missing list comes back empty) |
| Pets.ListRecordRoundTrip | stores/usePetStore.ts:157-218 | the same round trip over the whole pet list restores the list |
| Pets.MirrorAbsent | stores/usePetStore.ts:171-172 | with no saved profile the persisted step leaves storage exactly as it was |
| Pets.MirrorFrame | stores/usePetStore.ts:171-188 | the persisted step writes at most `userInfo`, changes only its `pets`, keeps every other key, and completes exactly when no read or write throws and the profile has a pet list |
| Pets.MirrorKeepsInSync | stores/usePetStore.ts:221-240 | a saved pet list equal to the in-memory one is still equal after a completed edit |
| Pets.PetPathInjective | stores/usePetStore.ts:105 | path of the intended `/users/pets/${id}` template: two ids give the same path exactly when they are equal |
| Pets.PetPathsAsWrittenIgnoreId | stores/usePetStore.ts:105 | each single-quoted path is the same for every pet and is never the path naming that pet |
| Pets.PetPathAsWrittenCollides | stores/usePetStore.ts:126 | pets 1 and 2 have different intended paths but the same update path and the same delete path as written |
| Pets.PetPath | stores/usePetStore.ts:105 | the intended path: `/users/pets/` followed by one path segment (no `/`) holding the printed id |
| Pets.UpdatePetPathAsWritten | stores/usePetStore.ts:105 | the path `updatePet` sends: under `/users/pets/`, and no digit appears in it, so no id reaches the server |
| Pets.DeletePetPathAsWritten | stores/usePetStore.ts:126 | the path `deletePet` sends: under `/users/pets/`, and no digit appears in it, so no id reaches the server |
| Pets.WithRecordAdded | stores/usePetStore.ts:160-163 | only `records` changes; it becomes the old list (or `[]` when missing) followed by exactly the created record |
| Pets.WithRecordRemoved | stores/usePetStore.ts:210-213 | only `records` changes and stays missing when missing; a present list keeps exactly the records with a different `recordId` |
| Pets.MirrorEdit | stores/usePetStore.ts:170-188 | the persisted step keeps the set of keys and a well-formed store; a throw (failed storage call, or a profile without `pets`) leaves storage as it was, and storage changes only on a completed edit of a saved profile (`removeRecord` does the same at lines 220-240) |
| Todos.TodoStore.constructor | stores/useTodoStore.ts:25-27 | empty list, not loading, no error |
| Todos.TodoStore.Begin | stores/useTodoStore.ts:31 | the entry `set({ loading: true, error: null })`: the list is kept, `loading` is on, the error cleared, and that state is published |
| Todos.TodoStore.Finish | stores/useTodoStore.ts:37-38 | the `finally` step: the list and error are kept, `loading` is off, and that state is published |
| Todos.TodoStore.FetchTodos | stores/useTodoStore.ts:30-40 | on success the list is replaced wholesale; on failure it is unchanged and `error` holds the caught error; the call publishes entry, outcome and `finally` states |
| Todos.TodoStore.AddTodo | stores/useTodoStore.ts:43-53 | on success the returned todo is appended after the unchanged earlier items |
| Todos.TodoStore.ReplaceById | stores/useTodoStore.ts:56-70 | on success the returned todo replaces every item with that id; otherwise the list is unchanged |
| Todos.TodoStore.UpdateTodo | stores/useTodoStore.ts:56-70 | as `ReplaceById`: length kept, only matching ids replaced, error recorded on failure |
| Todos.TodoStore.DeleteTodo | stores/useTodoStore.ts:73-85 | on success exactly the items with that id are dropped; otherwise the list is unchanged |
| Todos.TodoStore.CompleteTodo | stores/useTodoStore.ts:88-102 | on success the returned todo replaces the items with that id |
| Events.EventStore.constructor | stores/useEventStore.ts:30-32 | empty list, not loading, no error |
| Events.EventStore.Begin | stores/useEventStore.ts:35 | the entry `set({ loading: true, error: null })`: the list is kept, `loading` is on, the error cleared, and that state is published |
| Events.EventStore.Finish | stores/useEventStore.ts:41-42 | the `finally` step: the list and error are kept, `loading` is off, and that state is published |
| Events.EventStore.Refresh | stores/useEventStore.ts:34-44 | on success the list is replaced wholesale; on failure it is unchanged and the error is kept |
| Events.EventStore.FetchEvents | stores/useEventStore.ts:34-44 | replaces the events on success, records the error on failure |
| Events.EventStore.FetchEventById | stores/useEventStore.ts:46-58 | on success the fetched event replaces the items whose id equals the requested `event_id` (no item is inserted); on failure the list is kept and the error set |
| Events.EventStore.ReplaceById | stores/useEventStore.ts:73-87 | on success the returned event replaces every item with that id; otherwise the list is unchanged |
| Events.EventStore.AddEvent | stores/useEventStore.ts:61-71 | on success exactly one event is appended |
| Events.EventStore.UpdateEvent | stores/useEventStore.ts:73-87 | length kept, only items with an equal id replaced |
| Events.EventStore.DeleteEvent | stores/useEventStore.ts:89-101 | on success exactly the items with that id are dropped |
| Events.EventStore.FetchWeeklyEvents | stores/useEventStore.ts:103-113 | replaces the events on success, records the error on failure |
| Events.EventStore.FetchMonthlyEvents | stores/useEventStore.ts:115-125 | replaces the events on success, records the error on failure |
| Events.EventStore.FetchDailyEvents | stores/useEventStore.ts:127-137 | replaces the events on success, records the error on failure |
| Events.FetchByIdNeverInserts | stores/useEventStore.ts:49-52 | the length never changes, and an id not in the list leaves the list unchanged |
| RequestCycle.ErrorOf | stores/useTodoStore.ts:35-37 | an error is left behind exactly when the call failed, and it is the caught one |
| RequestCycle.CycleIsBracketed | stores/useTodoStore.ts:31-39 | every call first publishes `loading` with no error, then its outcome while loading, then lowers `loading` last and keeps the outcome |
| RequestCycle.FailedCycle | stores/useEventStore.ts:35-43 | a failed call publishes the old items throughout, and its error after the entry step |
| SeqOps.ReplaceByKey | stores/useTodoStore.ts:60-64 | same length; each element with the key becomes the replacement, each other stays |
| SeqOps.UpdateByKey | stores/usePetStore.ts:158-166 | same length; each element with the key is transformed, each other stays |
| SeqOps.RemoveByKey | stores/useTodoStore.ts:77-79 | the survivors are the original elements without the key, and every element without the key survives |
| SeqOps.RemoveConcat | stores/useEventStore.ts:93-95 | filtering a concatenation concatenates the filtered parts |
| SeqOps.RemovePlacesSurvivor | stores/usePetStore.ts:130-132 | a surviving element lands right after the survivors that preceded it |
| SeqOps.RemoveKeepsOrder | components/diary/RecordBox.tsx:118-122 | of two survivors the earlier one lands earlier: removal preserves order |
| SeqOps.RemoveAbsent | components/diary/RecordBox.tsx:118-122 | deleting an id nobody has leaves the list unchanged |
| SeqOps.RemoveIdempotent | stores/useTodoStore.ts:76-79 | a second delete of the same id changes nothing |
| SeqOps.ReplaceAbsent | stores/useEventStore.ts:49-52 | replacing an id nobody has changes nothing |
| SeqOps.ReplaceIdempotent | components/diary/RecordBox.tsx:110-116 | applying the same update twice equals applying it once |
| SeqOps.AppendThenRemove | stores/usePetStore.ts:212 | appending an element with a fresh key and removing that key restores the list |
| JsText.NatToString | stores/usePetStore.ts:159 | the numeral is non-empty, all digits, and has no leading zero |
| JsText.IntToString | stores/usePetStore.ts:159 | `String(n)`: non-empty, starting with `-` exactly for a negative number and with a digit otherwise |
| JsText.OptionalIntText | components/diary/PetProfile.tsx:34 | `String(id)`: `"undefined"` exactly for a missing id |
| JsText.ParseNatToString | components/DateButton.tsx:22-24 | reading a printed number back gives the number |
| JsText.NatToStringInjective | stores/usePetStore.ts:159 | two naturals print the same exactly when they are equal |
| JsText.IntToStringInjective | stores/usePetStore.ts:209 | two integers print the same exactly when they are equal |
| JsText.OptionalIntTextInjective | components/diary/PetProfile.tsx:34 | two possibly missing ids print the same exactly when they are equal |
| JsText.PrintedIntNotUndefined | stores/usePetStore.ts:175 | no number prints as `"undefined"` |
| JsText.PrintedTextStart | stores/usePetStore.ts:105 | a printed id is non-empty and starts with `u`, `-` or a digit |
| SecureStorage.HasToken | stores/usePetStore.ts:82-83 | there is a token exactly when `authToken` is stored and not empty |
| Auth.AuthStore.constructor | stores/useAuthStore.ts:55-57 | no user, no token, still loading |
| Auth.SavedSession | stores/useAuthStore.ts:66-67 | storage after both writes: `authToken` holds the token, `userInfo` the user, and every other key is as before |
| Auth.ClearedSession | stores/useAuthStore.ts:100-101 | storage after both deletions: the two keys are gone and every other key is as before |
| Auth.RestoredToken | stores/useAuthStore.ts:120 | the token read back: present exactly when `authToken` is stored, and then that text |
| Auth.RestoredUser | stores/useAuthStore.ts:121-124 | the user read back: present exactly when `userInfo` is stored, and then that user, otherwise `null` |
| Auth.AuthStore.Persist | stores/useAuthStore.ts:66-67 | writes the token and then the profile; a failure at the second write leaves only the token written |
| Auth.AuthStore.Forget | stores/useAuthStore.ts:100-101 | deletes the token and then the profile; a failure at the second step leaves only the token deleted |
| Auth.AuthStore.SignIn | stores/useAuthStore.ts:60-74 | after both writes the store shows the user and token and stops loading; a storage failure is swallowed and the memory keeps its old state |
| Auth.AuthStore.SetUser | stores/useAuthStore.ts:77-91 | as `SignIn`, but `isLoading` is never changed |
| Auth.AuthStore.SignOut | stores/useAuthStore.ts:94-108 | after both deletions the store shows nobody and stops loading; a failure leaves memory unchanged |
| Auth.AuthStore.ClearUser | stores/useAuthStore.ts:132-146 | as `SignOut`, but `isLoading` is never changed |
| Auth.AuthStore.CheckAuth | stores/useAuthStore.ts:111-129 | the user and token become what is stored, and loading stops; a read failure changes nothing |
| Auth.RestoreAfterSave | stores/useAuthStore.ts:111-125 | a saved session reads back as the same user and token |
| Auth.RestoreAfterClear | stores/useAuthStore.ts:111-125 | a cleared session reads back as no user and no token |
| Auth.NoProfileNoUser | stores/useAuthStore.ts:124 | the restored user is missing exactly when `userInfo` is absent |
| Auth.ClearIdempotent | stores/useAuthStore.ts:94-104 | signing out twice leaves storage as signing out once |
| Auth.SaveOverwritesAndClearForgets | stores/useAuthStore.ts:77-87 | a later session overwrites an earlier one; clearing forgets a session entirely |
| Auth.SessionFrame | stores/useAuthStore.ts:66-67 | saving and clearing change no key but `authToken` and `userInfo` |
| Auth.SignInThenRestart | stores/useAuthStore.ts:60-125 | sign in, then a fresh store runs `checkAuth`: it sees the same user and token |
| Auth.SignOutThenRestart | stores/useAuthStore.ts:94-125 | sign out once or twice, then a fresh store runs `checkAuth`: it sees no user and no token |
| RecordBox.SignPrefixedRoundTrip | components/diary/RecordBox.tsx:161-167 | a difference starting with `-` is shown as is and any other gets a `+`, so dropping the `+` gives it back; no difference shows as blank |
| RecordBox.SignPrefixed | components/diary/RecordBox.tsx:161-167 | the shown text is the difference itself with at most one character in front, and that character is `+` |
| RecordBox.Rows | components/diary/RecordBox.tsx:142-176 | one row per record; row `i`'s difference is taken against record `i + 1` and the last row has none; photo rows show no value or unit |
| RecordBox.RecordBox.constructor | components/diary/RecordBox.tsx:45-49 | empty history, nothing selected |
| RecordBox.RecordBox.ReceiveRecords | components/diary/RecordBox.tsx:74 | the fetched, sorted list becomes the history |
| RecordBox.RecordBox.HandleRecordClick | components/diary/RecordBox.tsx:102-104 | the clicked record becomes the selection; the list is unchanged |
| RecordBox.RecordBox.HandleOverlayClose | components/diary/RecordBox.tsx:106-108 | the selection is cleared; the list is unchanged |
| RecordBox.RecordBox.UpdateRecord | components/diary/RecordBox.tsx:110-116 | every entry with the update's `graphDataId` becomes the update, the rest stay in place |
| RecordBox.RecordBox.DeleteRecord | components/diary/RecordBox.tsx:118-122 | exactly the entries with that `graphDataId` go |
| RecordBox.RecordBox.View | components/diary/RecordBox.tsx:141-176 | one row per history entry |
| CommunityForm.TrimStart | components/community/CommunityForm.tsx:61 | the first index from `i` on that is not white space: everything before it is white space |
| CommunityForm.TrimEnd | components/community/CommunityForm.tsx:61 | the index between `lo` and `j` from which only white space runs up to `j`; the character just before it, when above `lo`, is not white space |
| CommunityForm.Trim | components/community/CommunityForm.tsx:61-62 | `s.trim()`, the slice of `s` between `TrimStart` and `TrimEnd`; its properties are stated by `TrimBlank`, `TrimIsInfix` and `TrimLeavesNoEdgeWhitespace` |
| CommunityForm.TrimBlank | components/community/CommunityForm.tsx:61 | the trimmed tag is empty exactly when the typed tag is all white space |
| CommunityForm.TrimIsInfix | components/community/CommunityForm.tsx:62 | the trimmed tag is a contiguous piece of the typed tag, with only white space before and after it |
| CommunityForm.TrimLeavesNoEdgeWhitespace | components/community/CommunityForm.tsx:62 | the trimmed tag neither starts nor ends with white space |
| CommunityForm.TrailingRun | components/community/CommunityForm.tsx:103 | the longest suffix whose characters all satisfy the predicate |
| CommunityForm.FileName | components/community/CommunityForm.tsx:103 | `uri.split('/').pop()`: a suffix of the URI with no `/` in it |
| CommunityForm.Extension | components/community/CommunityForm.tsx:104 | a found extension is non-empty, ends the file name, and follows a `.` |
| CommunityForm.MimeType | components/community/CommunityForm.tsx:105 | `image` when no extension is found, and `image/` followed by the extension otherwise |
| CommunityForm.UploadPart | components/community/CommunityForm.tsx:103-111 | the file part keeps the URI, names it by a `/`-free suffix of it, and types it by that name |
| CommunityForm.FileNameIsLastSegment | components/community/CommunityForm.tsx:103 | the file name has no `/` and follows the last `/` of the URI, or is the whole URI |
| CommunityForm.ExtensionComplete | components/community/CommunityForm.tsx:104-105 | any name ending in `.` and one or more word characters has that extension and MIME type `image/<ext>` |
| CommunityForm.ExtensionSound | components/community/CommunityForm.tsx:104-105 | an extension found is non-empty, made of word characters, and follows a dot at the end of the name |
| CommunityForm.DropIndex | components/community/CommunityForm.tsx:68 | an index inside the list drops exactly that tag, keeping the others in order; an index outside it changes nothing |
| CommunityForm.PostForm.constructor | components/community/CommunityForm.tsx:36-54 | blank fields and the given post's tags (or none); in edit mode with a post its title, category, content and tags are copied in |
| CommunityForm.PostForm.HandleChange | components/community/CommunityForm.tsx:56-58 | exactly the named field changes |
| CommunityForm.PostForm.SetNewTag | components/community/CommunityForm.tsx:187 | only the tag being typed changes |
| CommunityForm.PostForm.HandleTagAdd | components/community/CommunityForm.tsx:60-65 | a blank tag changes nothing; otherwise the trimmed tag is appended and the input cleared |
| CommunityForm.PostForm.HandleTagRemove | components/community/CommunityForm.tsx:67-69 | the tags become `DropIndex` of the old tags; nothing else changes |
| CommunityForm.PostForm.SetImageUri | components/community/CommunityForm.tsx:89-91 | only the image URI changes |
| CommunityForm.PostForm.Submit | components/community/CommunityForm.tsx:94-112 | the tags are sent as they are, and a file part with the derived name and MIME type is added exactly when there is a non-empty image URI |
| DateButton.Options | components/DateButton.tsx:19-32 | `년`: 105 entries, entry `i` the numeral of 2024 - i; `월`: 12 and `일`: 31 entries, entry `i` the numeral of i + 1; any other label: none |
| DateButton.YearsDescend | components/DateButton.tsx:21-24 | the years read back as 2024 down to 1920, one less each step |
| DateButton.MonthsAndDaysAscend | components/DateButton.tsx:25-28 | months and days read back as 1, 2, … in order |
| DateButton.DateButton.constructor | components/DateButton.tsx:11 | nothing selected and nothing reported yet |
| DateButton.DateButton.HandleSelect | components/DateButton.tsx:13-16 | the picked value is shown and exactly it is passed on |
| ChartWindow.Recent | components/diary/BarChart.tsx:26-28 | the last `min(7, n)` entries, in their original order |
| ChartWindow.Max | components/diary/BarChart.tsx:56 | an upper bound of the values that is one of them |
| ChartWindow.AxisMax | components/diary/LineChart.tsx:46 | present exactly for a non-empty window, and then five above its largest value |
| ChartWindow.MaxValue | components/diary/BarChart.tsx:28-56 | present exactly for non-empty data, and then five above the largest of the latest seven values (`LineChart.tsx` lines 18 and 46 compute the same) |
| ChartWindow.WindowsAlign | components/diary/LineChart.tsx:16-24 | with equally long inputs both windows take position `i` from the same original position |
| BarChart.ChartData | components/diary/BarChart.tsx:31-35 | one bar per windowed value, never more than 7; bar `i` has value `i` of the window, label `i` when the label window is long enough, and colour `i mod 7` |
| BarChart.ColorsNeverWrap | components/diary/BarChart.tsx:11-34 | bar `i` has colour `i`: the colour index is always in range |
| BarChart.BarsPairLabelsWithValues | components/diary/BarChart.tsx:31-35 | with as many labels as values, each bar pairs a value with the label recorded beside it |
| LineChart.ChartData | components/diary/LineChart.tsx:21-24 | one point per windowed value, never more than 7; point `i` carries the `i`th windowed value and label |
| LineChart.PointsPairLabelsWithValues | components/diary/LineChart.tsx:21-24 | with as many labels as values, each point pairs a value with the label recorded beside it |
| PetProfile.FindSelectedIndex | components/diary/PetProfile.tsx:33-35 | the first index whose printed id is the selected id, or -1 when there is none |
| PetProfile.SafeIndex | components/diary/PetProfile.tsx:36 | a found index is kept, and 0 is used when there is none; in range whenever there are pets |
| PetProfile.CurrentPet | components/diary/PetProfile.tsx:37 | the pet shown exists exactly when there are pets, and is then the pet at `SafeIndex` |
| PetProfile.Truthy | components/diary/PetProfile.tsx:44-45 | the `if (petId)` test: a present id other than `0` |
| PetProfile.SelectionAt | components/diary/PetProfile.tsx:44-45 | a selection is made exactly when a pet exists at the index with a truthy id, and it is that id printed |
| PetProfile.SelectedIsShown | components/diary/PetProfile.tsx:33-47 | with distinct ids, selecting the profile at `i` makes it the one found and shown |
| PetProfile.NewProfileDraft | components/diary/PetProfile.tsx:53-64 | the draft has no id, is marked new, has an empty record list, blank name, species, registration number and birth date, gender `M`, breed `???`, neutering `N` and the default image |
| PetProfile.StaleSelectionSelectsNothing | components/diary/PetProfile.tsx:68 | index `pets.length` of the pre-add list selects nothing, while the same index of the post-add list selects the new pet |
| PetProfile.PetProfileView.constructor | components/diary/PetProfile.tsx:30 | editor closed, nothing reported |
| PetProfile.PetProfileView.Select | components/diary/PetProfile.tsx:43-49 | sets and reports the selection `SelectionAt` gives, or changes nothing |
| PetProfile.PetProfileView.HandleSelectProfile | components/diary/PetProfile.tsx:43-49 | the store's `selectedPetId` and the callback get `String(petId)` only for an existing pet with a truthy id; otherwise nothing changes |
| PetProfile.PetProfileView.HandleAddProfileAsWritten | components/diary/PetProfile.tsx:52-73 | the add happens as in the store, the selection never changes, and the editor opens |
| PetProfile.PetProfileView.HandleAddProfile | components/diary/PetProfile.tsx:52-73 | corrected: after a successful add with a truthy id the new pet is selected and reported; the editor opens |
| PetProfile.PetProfileView.ToggleEditModal | components/diary/PetProfile.tsx:40 | the editor flips open or closed |
| PetProfile.PetProfileView.HandleSave | components/diary/PetProfile.tsx:76-83 | the store's update takes effect and the editor flips |
| PetProfile.PetProfileView.HandleDeletePet | components/diary/PetProfile.tsx:86-93 | the store's delete takes effect and the editor closes |

## Left out

- HTTP: axios, `apiClient`, the `api/*.ts` wrappers and the Bearer header are not modelled. The reply is an input, and the model keeps only each pet-store request's verb and path. The bodies of `POST`/`PUT`/`PATCH` requests are not modelled, since only the reply changes state.
- Storage I/O: SecureStore, `localStorage` and the `Platform.OS` branch are one abstract map. `JSON.stringify`/`JSON.parse` of the profile are taken as an exact round trip, and a malformed stored profile is not modelled.
- Concurrency: overlapping async calls on one store are out of scope. Each store method is one atomic step, apart from the published states of the todo and event stores.
- `Alert.alert` and `console.error` calls are not modelled: they are user-facing output only.
- Pets.PetStore.UpdatePet: the request log records the intended path `PetPath(updatedPet.petId)`, not the literal `/users/pets/${updatedPet.petId}` that line 105 sends; that path is `UpdatePetPathAsWritten` (see Findings).
- Pets.PetStore.DeletePet: the request log records the intended path `PetPath(Some(petId))`, not the literal `/users/pets/${petId}` that line 126 sends; that path is `DeletePetPathAsWritten` (see Findings).
- Ids: a JavaScript `number` id is an unbounded `int` printed in plain decimal. The exponent form `String` uses from 1e21 up, fractional ids and `NaN` are not modelled; no property here depends on them.
- Pets.PetStore.AddPet: the server's `petId` is assumed to be a number. A reply without one is not modelled.
- RecordBox.Rows: `parseFloat` and `toFixed(2)` are a parameter `diffText`, because the model has no floating point. Only the sign-prefix rule and the neighbour index are stated.
- RecordBox: the fetch effect, its `new Date` sort and the `loading` flag are left out. They are I/O and date arithmetic; the fetched, sorted list enters through `ReceiveRecords`. That fetch reads its token from the `token` key, not `authToken`.
- ChartWindow.AxisMax: the chart values are exact reals. `Math.max()` of an empty window, which is `-Infinity`, becomes `None`, and NaN is not modelled.
- CommunityForm: image picking and its permission prompt are left out as external calls; the picked URI enters through `SetImageUri`. The `POST /community/posts` call and navigation are left out as I/O.
- CommunityForm.Submit: the JSON text of `tags` is not built; the tag list itself is returned.
- Todos and Events: the argument each fetch or edit sends (user id, drafts, patches, `isCompleted`) is not modelled. Only the reply decides the new state.
- PetProfile: rendering, the profile list and `EditPetProfileModal` are left out as UI. `onSelectPet` is the `notified` log.
- PetProfile.PetProfileView.HandleAddProfileAsWritten: the `catch` branch is never taken, because `addPet` catches its own errors.

## Findings

| source | as written | input that shows it | evidently intended | confidence | as-written member | corrected member |
|---|---|---|---|---|---|---|
| components/diary/PetProfile.tsx:68 | after `await addPet(newPet)` the handler calls `handleSelectProfile(pets.length)`, which looks the index up in the `pets` list captured before the add, so `pets[pets.length]` is `undefined` and nothing is selected | any successful add, e.g. no pets and the server replies with `petId` 5 | select the profile just appended at index `pets.length` of the updated list | not executed | PetProfile.StaleSelectionSelectsNothing | PetProfile.PetProfileView.HandleAddProfile |
| stores/usePetStore.ts:105 | the `updatePet`/`deletePet` paths are single-quoted strings (`'/users/pets/${updatedPet.petId}'`, line 126 likewise), so `${...}` is not interpolated and every pet is sent to the same literal path | pets with ids 1 and 2 both request `/users/pets/${...}` | a template literal giving `/users/pets/<id>` | not executed | Pets.PetPathAsWrittenCollides | Pets.PetPathInjective |

The store model uses the corrected path (`Pets.PetPath`) in its request log. `Pets.PetPathsAsWrittenIgnoreId` also shows that the literal path never equals the intended one.
