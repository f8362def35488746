# aas-edge-client digital-twin sync core, in Dafny

This project models the part of the aas-edge-client backend that keeps an
edge device's Asset Administration Shell (AAS) in step with a remote AASX
registry, and the frontend helpers that turn submodel names into labels and
routes. The modelled code has five parts:

- **Submodel value view** (`transform.dfy`, module `TransformValueSubmodel`).
  A typed submodel is flattened into its value view: `{idShort: value}` at
  every depth. A value view is then merged back into the typed submodel.
- **Local store and remote PATCH/GET** (`aas_interfaces.dfy`, module
  `AasInterfaces`).
  - Submodels are stored in MongoDB under `"{aasIdShort}:{submodelIdShort}"`.
  - The recursive `merge_documents`.
  - Patching a submodel locally and on the registry.
  - Polling one submodel back from the registry.
- **Onboarding** (`onboarding.dfy`, module `Onboarding`). The shell is fetched
  and its submodel UIDs are extracted. Every submodel is fetched and stored,
  together with the idShort -> UID dictionary. Then the thumbnail is fetched
  and the device is marked ONBOARDED.
- **Scheduler ticks** (`scheduler.dfy`, module `SchedulerTask`).
  - The push tick stores the system information, reads `BoardingStatus` and
    `LastUpdate`, and dispatches on them: offboard, wait, re-onboard, or
    push system information.
  - The poll tick re-fetches a list of submodels.
- **Frontend helpers** (`utils.dfy`, module `FrontendUtils`):
  `camelCaseToSpaces`, `nameToPath`, `submodelNameToEndpoint`, `findByKey`
  and `findDirectValueByKey`.

Supporting modules model the libraries these parts lean on:

- `Json` (`json.dfy`): serde_json values and bson documents. A document is a
  sequence of fields. Inserting an existing key replaces it in place, and a
  new key goes at the end.
- `Http` (`http.dfy`): requests and responses.
- `MongoStore` (`store.dfy`): a collection as a class whose `docs` map the
  methods update in place.
- `Base64Url` (`base64url.dfy`): `base64::encode_config(_, URL_SAFE_NO_PAD)`
  over UTF-8 bytes, which is base64url without padding as in section 5 of
  RFC 4648.

The environment becomes parameters:

- The registry is a function `respond: Request -> Response`. Every operation
  that talks to it returns the requests it sent, in order.
- A database that fails is modelled by the collection's `failures`: one map
  gives the error the server reports when reading an `_id`, another the
  error it reports when writing it. The two are independent, so a write can
  fail after a read of the same document succeeded.
- The clock is `now` (seconds), `nowText` (its RFC 3339 text) and `parse`
  (RFC 3339 parsing).
- The `sysInfo.sh` probe becomes `probe` and `reprobe`.
- The thumbnail file write becomes `imageWrite`.

Where a comment or a test in the repository says otherwise, the model follows
the code:

- A merged value-view entry creates a value for a property that had none,
  even for a `null` entry, which becomes the text `"null"`
  (`ValuelessPropertyBecomesNullText`).
- A failed thumbnail download makes onboarding return an error. The shell,
  the submodels and the dictionary have already been written by then.
- Polling replaces the local document with the registry's `$value` body
  wholesale. It does not upsert, so a missing document stays missing.
- The PATCH URL is formatted as `"{server}shells/..."` with no slash. The
  polling GET is formatted as `"{server}/shells/..."`.
- `extract_submodels_id` does not check the reference's `type`
  (`TypeIgnored`). Only the first key of each reference counts
  (`LaterKeysIgnored`).
- The first regular expression of `camelCaseToSpaces` is redundant: the
  second one already performs its split (`LeadingAcronymRedundant`).
- In `findByKey`, a key found with the value `null` cannot be told apart
  from a key not found: the search goes on past it (`NullMatchExamples`).

## Model

| member | source | states |
|---|---|---|
| TransformValueSubmodel.SubmodelElementsToValue | backend/src/functions/transform_value_submodel.rs:5-52 | the loop over the elements builds exactly the value view `FlattenElements`, recursing into valued collections |
| TransformValueSubmodel.SubmodelToSubmodelValue | backend/src/functions/transform_value_submodel.rs:4-62 | the value view of a submodel; `{}` when it has no elements |
| TransformValueSubmodel.FlattenKeys | backend/src/functions/transform_value_submodel.rs:11-44 | a key appears in the value view iff some element contributes it (a property or a valued collection with that idShort) |
| TransformValueSubmodel.FlattenLastWins | backend/src/functions/transform_value_submodel.rs:5-52 | the entry under a key is written by the last element contributing that key |
| TransformValueSubmodel.FlattenProperty | backend/src/functions/transform_value_submodel.rs:11-19 | a property appears with its value as a string, or as an explicit null when it has none |
| TransformValueSubmodel.FlattenCollection | backend/src/functions/transform_value_submodel.rs:37-44 | a valued collection appears as the value view of its children; one without a value produces no key |
| TransformValueSubmodel.MergeValueIntoElements | backend/src/functions/transform_value_submodel.rs:65-111 | the in-place loop leaves the array equal to the element-wise merge of its old contents |
| TransformValueSubmodel.MergeValueAt | backend/src/functions/transform_value_submodel.rs:70-105 | one element takes the patch: a property gets the entry's text, a valued collection recurses; nothing else in the array changes |
| TransformValueSubmodel.MergeSubmodelValueToSubmodel | backend/src/functions/transform_value_submodel.rs:64-124 | the merged submodel; a submodel without elements is returned unchanged |
| TransformValueSubmodel.MergeKeepsShape | backend/src/functions/transform_value_submodel.rs:65-111 | merging changes only property values: kinds, idShorts, attributes and the number of children stay |
| TransformValueSubmodel.MergeSetsProperty | backend/src/functions/transform_value_submodel.rs:72-94 | a property named in the patch takes the entry as it is if a string, else its JSON text, whether or not it had a value |
| TransformValueSubmodel.MergeKeepsUnnamed | backend/src/functions/transform_value_submodel.rs:69-108 | an element without an idShort, or one the patch does not name, is left unchanged |
| TransformValueSubmodel.MergeCollection | backend/src/functions/transform_value_submodel.rs:97-105 | a collection without a value, or one whose entry is not an object, is left unchanged |
| TransformValueSubmodel.MergeNonObject | backend/src/functions/transform_value_submodel.rs:74 | a patch that is not an object changes nothing |
| TransformValueSubmodel.MergeIdempotent | backend/src/functions/transform_value_submodel.rs:65-111 | merging the same value view twice is merging it once |
| TransformValueSubmodel.RoundTripElements | backend/src/functions/transform_value_submodel.rs:4-124 | merging a list's own value view back into it gives it back when every property has a value and sibling idShorts are unique |
| TransformValueSubmodel.RoundTrip | backend/src/functions/transform_value_submodel.rs:4-124 | the same round trip for a whole submodel |
| TransformValueSubmodel.ValuelessPropertyBecomesNullText | backend/src/functions/transform_value_submodel.rs:16 | a valueless property does not round-trip: it flattens to null and merges back as the text "null" |
| TransformValueSubmodel.PatchTextExamples | backend/src/functions/transform_value_submodel.rs:76-90 | a string entry is stored as is; a number, null or boolean is stored as its JSON text |
| Json.LookupInsert | backend/src/functions/aas_interfaces.rs:128-131 | after inserting `k`, `k` maps to the new value and every other key to what it held |
| Json.InsertAt | backend/src/functions/aas_interfaces.rs:128-131 | inserting an existing key of a document replaces that field in place |
| Json.Remove | backend/src/functions/aas_interfaces.rs:30 | after removing `_id` the key is absent and every other key keeps its value |
| MongoStore.Collection.FindOne | backend/src/functions/aas_interfaces.rs:26-34 | the read error for a failing `_id`; otherwise the stored document exactly when one exists |
| MongoStore.Collection.UpdateOne | backend/src/functions/aas_interfaces.rs:45-61 | a `$set` of each field on an existing document; with upsert a new document; without it nothing; a changed `_id` or a failing write is an error and writes nothing |
| MongoStore.Collection.ReplaceOne | backend/src/functions/aas_interfaces.rs:242-248 | the stored body becomes the new one (its own `_id` dropped) when the document exists or upsert is set; otherwise nothing; a failing write or a changed `_id` is an error and writes nothing |
| MongoStore.SetFieldsStored | backend/src/functions/aas_interfaces.rs:50 | a `$set` that keeps the `_id` keeps a stored document well formed, with its `_id` first |
| MongoStore.SetFieldsOverwrite | backend/src/functions/aas_interfaces.rs:50 | a `$set` naming exactly the body's keys, in order, makes the document `_id` followed by the update |
| Base64Url.Encode | backend/src/functions/aas_interfaces.rs:178-179 | the unpadded encoding has ceil(4n/3) characters |
| Base64Url.EncodeRoundTrip | backend/src/functions/aas_interfaces.rs:178-179 | decoding the encoding gives the bytes back |
| Base64Url.EncodeUrlSafe | backend/src/functions/aas_interfaces.rs:178-179 | every character of the encoding is a letter, a digit, '-' or '_' |
| Base64Url.Utf8RoundTrip | backend/src/functions/aas_interfaces.rs:178-179 | the UTF-8 encoding of an identifier decodes back to it |
| Base64Url.SegmentInjective | backend/src/functions/aas_interfaces.rs:175-180 | distinct UIDs give distinct URL segments |
| Base64Url.Utf8Ascii | backend/src/functions/onboarding.rs:197-201 | an ASCII identifier's UTF-8 is its characters, one byte each |
| AasInterfaces.SubmodelKeyInjective | backend/src/functions/aas_interfaces.rs:92 | with ':'-free shell idShorts, the store key determines the shell and the submodel |
| AasInterfaces.SubmodelKeysDiffer | backend/src/functions/aas_interfaces.rs:92 | different submodel idShorts of one shell never share a key |
| AasInterfaces.DictionaryKeyShape | backend/src/functions/aas_interfaces.rs:165 | the dictionary lives at `"{aas}:submodels_dictionary"`, which no other submodel idShort reaches |
| AasInterfaces.AasFindOne | backend/src/functions/aas_interfaces.rs:17-36 | Ok exactly when the read does not fail and the document exists; then the stored document minus its `_id`; otherwise "Error finding document: " and the store's error, or "Document not found" |
| AasInterfaces.AasUpdateOne | backend/src/functions/aas_interfaces.rs:38-63 | Ok exactly when the write does not fail and keeps the `_id`; the source's messages: "Document updated successfully", `Document upserted with id: String("<id>")` (the `{:?}` form of the upserted id, `UpsertedText`), or "Error upserting document: ..." with nothing written |
| AasInterfaces.DebugQuotedPlain | backend/src/functions/aas_interfaces.rs:56 | an id with no backslash, quote, tab, carriage return, newline or NUL is printed by `{:?}` between quotes as it is |
| AasInterfaces.GetSubmodelDatabase | backend/src/functions/aas_interfaces.rs:65-80 | the stored submodel, or "Error getting submodel: " and the store's error |
| AasInterfaces.ReadManagedDevice | backend/src/functions/aas_interfaces.rs:263-274 | the ManagedDevice submodel, or "Failed to find managed device: " and the error |
| AasInterfaces.StatusPatch | backend/src/functions/scheduler_task.rs:62-65 | the patch `{BoardingStatus, LastUpdate}` is a well-formed object |
| AasInterfaces.MergeDocuments | backend/src/functions/aas_interfaces.rs:118-138 | the loop over the clone produces `Merged`: the old keys in the old order, a nested merge where both are documents, the patch's value elsewhere |
| AasInterfaces.MergedLookup | backend/src/functions/aas_interfaces.rs:118-138 | keys only the patch has are dropped; keys the patch lacks keep their value; two documents merge recursively; otherwise the patch's value wins |
| AasInterfaces.MergedWellFormed | backend/src/functions/aas_interfaces.rs:118-138 | merging well-formed documents gives a well-formed document |
| AasInterfaces.MergeSelf | backend/src/functions/aas_interfaces.rs:118-138 | merging a document into itself changes nothing |
| AasInterfaces.MergeIdempotent | backend/src/functions/aas_interfaces.rs:118-138 | applying the same patch twice is applying it once |
| AasInterfaces.PatchSubmodelDatabase | backend/src/functions/aas_interfaces.rs:82-116 | each error path with its message and nothing written: a failed read, a patch that is not an object, and a failed write ("Error patching submodel: Error upserting document: ..."); otherwise the stored submodel becomes the merge of the patch into it; in every case the store is `PatchedDocs`, so no other document changes |
| AasInterfaces.WriteMerged | backend/src/functions/aas_interfaces.rs:106-115 | after a successful read, the merged document is written back: a failing write is reported with both prefixes and writes nothing; otherwise the stored body becomes the merge |
| AasInterfaces.MergedKeepsId | backend/src/functions/aas_interfaces.rs:106-110 | the merge into a stored body is a well-formed document without `_id`, and `$set` of it leaves exactly `_id` followed by the merge |
| AasInterfaces.PatchedDocs | backend/src/functions/aas_interfaces.rs:82-116 | the store after a local object patch differs from the old one at most under the patched key, and has the same keys |
| AasInterfaces.DictionaryUid | backend/src/functions/aas_interfaces.rs:165-170 | a UID is found only when the dictionary exists and holds the idShort as a string |
| AasInterfaces.DictionaryUidFound | backend/src/functions/aas_interfaces.rs:165-170 | conversely, when the readable dictionary holds the idShort as a string, that string is the UID found (a stored document has distinct keys) |
| AasInterfaces.PatchSubmodelServer | backend/src/functions/aas_interfaces.rs:141-194 | the error for each missing piece with no request sent; otherwise one PATCH of the merged document to the `$value` URL; success only on 204 |
| AasInterfaces.RemotePatch | backend/src/functions/aas_interfaces.rs:141-194 | the PATCH is sent exactly when the submodel can be read, the patch is an object and the dictionary holds a UID; it goes to the `$value` URL with the merged body |
| AasInterfaces.FetchSingleSubmodelFromServer | backend/src/functions/aas_interfaces.rs:197-261 | the dictionary errors with no request; otherwise one GET; on success the local document is replaced by the body, and no other document changes |
| AasInterfaces.ReplaceWithResponse | backend/src/functions/aas_interfaces.rs:226-258 | each failure gives its error with nothing written: a failed send "Error sending GET request: Failed to send request to fetch submodel value from URL: " and the URL, a non-2xx status, a body that is not JSON "Error parsing JSON response: Failed to parse JSON response", a body that is not an object, and a failing replace "Error replacing submodel in the database: Failed to replace submodel in the database"; Ok exactly when none of these happens, and then a replace without upsert |
| Onboarding.ExtractSubmodelsId | backend/src/functions/onboarding.rs:359-386 | the loop collects exactly `ShellSubmodelIds`: the first key's `value` of every reference that has one, in order |
| Onboarding.ReadEntryId | backend/src/functions/onboarding.rs:370-380 | one reference's id: a document whose `keys` array starts with a document holding a string `value` |
| Onboarding.EntryIdsAppend | backend/src/functions/onboarding.rs:368-383 | the ids of two lists of references are the ids of each, concatenated |
| Onboarding.EntryIdsLength | backend/src/functions/onboarding.rs:368-383 | there are never more ids than references |
| Onboarding.EntryIdsSound | backend/src/functions/onboarding.rs:368-383 | every extracted id is the id of some reference |
| Onboarding.EntryIdsComplete | backend/src/functions/onboarding.rs:368-383 | every reference with an id contributes it |
| Onboarding.TypeIgnored | backend/src/functions/onboarding.rs:371-372 | a reference's `type` does not matter |
| Onboarding.LaterKeysIgnored | backend/src/functions/onboarding.rs:375 | only the first element of `keys` counts |
| Onboarding.ReferenceId | backend/src/functions/onboarding.rs:374-378 | a well-formed reference yields its id |
| Onboarding.EmptyKeysSkipped | backend/src/functions/onboarding.rs:375 | a reference with an empty `keys` array is skipped |
| Onboarding.ExtractSkips | backend/src/functions/onboarding.rs:363-383 | a shell with one good reference, one non-document and one with empty keys yields just the good id |
| Onboarding.FetchSucceedsIff | backend/src/functions/onboarding.rs:56-124 | one fetch succeeds exactly when both GETs succeed, the metadata holds a string idShort, the value is an object and the store accepts it |
| Onboarding.FetchSingleSubmodel | backend/src/functions/onboarding.rs:18-127 | the value GET first, then the metadata GET; on success the body is stored with upsert and the dictionary gets idShort -> UID; on failure the source's message with nothing written |
| Onboarding.Outcomes | backend/src/functions/onboarding.rs:143-169 | one outcome per UID, each that UID's fetch |
| Onboarding.DictionarySound | backend/src/functions/onboarding.rs:171-186 | every dictionary key is the idShort of a successful fetch |
| Onboarding.DictionaryComplete | backend/src/functions/onboarding.rs:171-186 | every successful fetch's idShort is a dictionary key |
| Onboarding.DictionaryValue | backend/src/functions/onboarding.rs:171-186 | the key maps to the UID of the last fetch that produced that idShort |
| Onboarding.DictionaryWellFormed | backend/src/functions/onboarding.rs:171-186 | the dictionary is a well-formed document |
| Onboarding.DocsAfterKeys | backend/src/functions/onboarding.rs:130-188 | after the fetches a key holds a document exactly when it held one before or some successful fetch targets it |
| Onboarding.DocsAfterLast | backend/src/functions/onboarding.rs:130-188 | a targeted key holds the `$value` body of the last successful fetch that targets it: when UIDs share an idShort, the last one wins |
| Onboarding.DocsAfterUntouched | backend/src/functions/onboarding.rs:130-188 | a key no successful fetch targets keeps its document |
| Onboarding.FetchAllSubmodels | backend/src/functions/onboarding.rs:130-188 | every UID is fetched whatever the others do; the store is `DocsAfter` of the outcomes (see the three lemmas above), plus the dictionary written with upsert; Ok exactly when that write succeeds |
| Onboarding.OnboardingManagedDevice | backend/src/functions/onboarding.rs:309-357 | the store is `PatchedDocs` of the ONBOARDED patch: the device is merged with ONBOARDED and the time when it can be read and written, and nothing else changes; the PATCH (`StatusRequests`) is sent exactly when the local write succeeded and the dictionary holds the device's UID, to its `$value` URL, with the document now stored |
| Onboarding.EdgeDeviceOnboarding | backend/src/functions/onboarding.rs:190-250 | the shell GET comes first; a failed GET or a body that is not an object is an error with nothing written; a failed shell write is an error with nothing written; a failed dictionary write is an error, with the shell stored and the submodels collection `DocsAfter` the fetches; once the shell and the dictionary are stored, the submodels collection is the fetched store (`FetchedDocs`), with the device marked ONBOARDED exactly when the thumbnail step succeeded; Ok only when the shell and the dictionary were stored and the thumbnail was fetched and written |
| Onboarding.OnboardShell | backend/src/functions/onboarding.rs:208-249 | after the shell GET: the error for a failed send, a non-2xx status or a body that is not an object, with nothing written; then the same shell-write, dictionary-write and thumbnail cases as the whole onboarding |
| Onboarding.StoreShell | backend/src/functions/onboarding.rs:213-249 | a failing shell write stores nothing anywhere; otherwise the shell is stored with upsert; a failing dictionary write is an error with the submodels collection `DocsAfter` the fetches and no further request; once the dictionary is written the submodels collection is the fetched store, device marked only on success |
| Onboarding.SubmodelsAndDevice | backend/src/functions/onboarding.rs:224-249 | a failed dictionary write ends onboarding with only the fetched submodels written and no thumbnail GET; otherwise the thumbnail step decides the result and the device is marked only on success |
| Onboarding.ThumbnailAndDevice | backend/src/functions/onboarding.rs:240-247 | the thumbnail GET decides the result (its send error, "Failed to retrieve image" on a non-2xx status, or the file error); on failure nothing is written and nothing more sent; on success the device is patched with ONBOARDED (`PatchedDocs`) and its PATCH follows the GET |
| SchedulerTask.Dispatch | backend/src/functions/scheduler_task.rs:142-160 | each action is chosen exactly under its arm: OFFBOARDING_REQUESTED offboards, ONBOARDED pushes system information, OFFBOARDED waits before the offboarding time and onboards from then on |
| SchedulerTask.DispatchTime | backend/src/functions/scheduler_task.rs:142-160 | only OFFBOARDED depends on the elapsed time, and only between waiting and onboarding; an unknown status is ignored, and only that |
| SchedulerTask.OnboardMonotone | backend/src/functions/scheduler_task.rs:148-149 | once an offboarded device is due for onboarding it stays due as time passes |
| SchedulerTask.StatusOf | backend/src/functions/scheduler_task.rs:129 | the `BoardingStatus` string, or "UNKNOWN" when it is missing or not a string |
| SchedulerTask.LastUpdateOf | backend/src/functions/scheduler_task.rs:130 | the `LastUpdate` string, or "UNKNOWN" |
| SchedulerTask.MissingStatusIgnored | backend/src/functions/scheduler_task.rs:129-159 | a device without a status is never acted on |
| SchedulerTask.UpdateSubmodelDatabase | backend/src/functions/scheduler_task.rs:25-34 | Ok exactly when the submodel can be read and written and the patch is an object; the store is `PatchedDocs`: the submodel becomes the merge and nothing else changes |
| SchedulerTask.UpdateSubmodelServer | backend/src/functions/scheduler_task.rs:37-54 | sends exactly `RemotePatch` or nothing; Ok exactly on a 204 answer |
| SchedulerTask.WriteStatus | backend/src/functions/scheduler_task.rs:61-68 | the status is merged locally (`PatchedDocs`), then pushed exactly when the local write succeeded (`StatusRequests`: the `$value` URL, the stored document); Ok exactly on a 204 |
| SchedulerTask.HandleOffboarding | backend/src/functions/scheduler_task.rs:56-71 | the device becomes OFFBOARDED at the current time locally, and then remotely exactly when the local write succeeded; Ok exactly on a 204 |
| SchedulerTask.HandleOnboarding | backend/src/functions/scheduler_task.rs:73-90 | the device becomes ONBOARDED locally; the status PATCH is sent exactly when that write succeeded, and the fresh system information exactly when the status PATCH got a 204 and the probe ran (`OnboardingRequests`); Ok exactly when that second PATCH gets a 204 |
| SchedulerTask.PushReprobe | backend/src/functions/scheduler_task.rs:84-89 | the system-information PATCH (`RemotePatch` of the probe) follows the earlier requests exactly when it can be built, and succeeds exactly on its own 204 |
| SchedulerTask.HandleOnboardedStatus | backend/src/functions/scheduler_task.rs:92-99 | sends exactly `RemotePatch` of the probe's system information, or nothing; Ok exactly on a 204 |
| SchedulerTask.ChosenAction | backend/src/functions/scheduler_task.rs:129-160 | an action is chosen exactly when the device is readable and its LastUpdate parses |
| SchedulerTask.MissingLastUpdateIdle | backend/src/functions/scheduler_task.rs:130-138 | a device without a LastUpdate string is never acted on, since "UNKNOWN" does not parse |
| SchedulerTask.ServerPushing | backend/src/functions/scheduler_task.rs:101-161 | acts exactly when the probe is an object, the system information can be read and written and the device is readable; the action is `Dispatch` of status and elapsed time; a missing LastUpdate never acts; the store is `TickDocs` (the probe merged into SystemInformation, then the action's status patch); the requests are exactly the action's (`ActionRequests`) |
| SchedulerTask.StoreSystemInformation | backend/src/functions/scheduler_task.rs:116-119 | succeeds exactly when SystemInformation can be read and written and the probe is an object; the probe is merged into it (`PatchedDocs`), and the ManagedDevice is never altered |
| SchedulerTask.RunAction | backend/src/functions/scheduler_task.rs:142-160 | offboard and onboard patch the device's status at the current time (`ActionDocs`); wait, ignore and push leave the whole store as it was; the requests are exactly the handler's (`ActionRequests`) |
| SchedulerTask.ServerPolling | backend/src/functions/scheduler_task.rs:184-205 | every id is polled; no document is created or removed, and only polled documents change |
| SchedulerTask.PollManagedDevice | backend/src/functions/scheduler_task.rs:189 | polling the ManagedDevice alone changes at most that document |
| FrontendUtils.SplitLowerUpperSeparates | frontend/src/utils.js:9 | after the split no lowercase letter is directly followed by an uppercase one |
| FrontendUtils.SplitLowerUpperInserts | frontend/src/utils.js:9 | the split only inserts separators |
| FrontendUtils.CamelCaseToSpaces | frontend/src/utils.js:2-14 | the label is empty exactly when the input is, and starts with the input's first character as `/^./` with `toUpperCase` leaves it |
| FrontendUtils.CamelCaseOnlyInsertsSpaces | frontend/src/utils.js:2-14 | besides capitalising the first letter, the label only inserts spaces |
| FrontendUtils.CamelCaseSeparatesWords | frontend/src/utils.js:2-14 | no lowercase letter of the label is followed directly by an uppercase one |
| FrontendUtils.CamelCaseTwoWords | frontend/src/utils.js:2-14 | "word" + "Word" becomes "Word Word" |
| FrontendUtils.CamelCaseAcronymWord | frontend/src/utils.js:5-7 | an acronym followed by a capitalised word is split between them |
| FrontendUtils.LeadingAcronymRedundant | frontend/src/utils.js:5-7 | the leading-acronym replacement never changes the result of the general one |
| FrontendUtils.ToLower | frontend/src/utils.js:18 | `toLowerCase` maps each ASCII letter, keeping length |
| FrontendUtils.NameToPath | frontend/src/utils.js:17-19 | a path contains no uppercase letter |
| FrontendUtils.NameToPathIdempotent | frontend/src/utils.js:17-19 | a path maps to itself |
| FrontendUtils.NameToPathInsertsHyphens | frontend/src/utils.js:17-19 | a path is the lowercased name with hyphens inserted |
| FrontendUtils.NameToPathTwoWords | frontend/src/utils.js:17-19 | "word" + "Word" becomes "word-word" |
| FrontendUtils.HyphenateWhitespace | frontend/src/utils.js:22 | replacing whitespace runs by '-' leaves no whitespace and never lengthens the text |
| FrontendUtils.SubmodelNameToEndpoint | frontend/src/utils.js:21-23 | the endpoint starts with "/submodel/" and is never longer than that prefix plus the name |
| FrontendUtils.EndpointShape | frontend/src/utils.js:21-23 | the endpoint is "/submodel/" followed by the lowercased name with whitespace runs hyphenated (the trim is a no-op) |
| FrontendUtils.EndpointClean | frontend/src/utils.js:21-23 | after "/submodel/" there is no whitespace and no uppercase letter |
| FrontendUtils.EndpointOfWord | frontend/src/utils.js:21-23 | a name without whitespace becomes "/submodel/" + its lowercase |
| FrontendUtils.EndpointOfTwoWords | frontend/src/utils.js:21-23 | two words separated by whitespace are joined by one hyphen |
| FrontendUtils.FindByKey | frontend/src/utils.js:25-49 | only an object or an array can give a non-null result |
| FrontendUtils.FindByKeySound | frontend/src/utils.js:25-49 | a non-null result is held under the key somewhere in the value |
| FrontendUtils.FindByKeyAbsent | frontend/src/utils.js:25-49 | when no object or array holds the key, the result is null |
| FrontendUtils.FindByKeyComplete | frontend/src/utils.js:25-49 | conversely, when some object or array holds the key and no holder has the value null, the result is not null: the search misses no holder |
| FrontendUtils.FindByKeyOwnFirst | frontend/src/utils.js:32-34 | an own key wins over nested ones; an array's `length` is found |
| FrontendUtils.NullMatchExamples | frontend/src/utils.js:40-43 | a key found with null is passed over, and a later sibling's match is returned |
| FrontendUtils.FindDirectValueByKey | frontend/src/utils.js:52-76 | a non-null result comes only from an object or an array, and is never itself an object or an array |
| FrontendUtils.FindDirectSound | frontend/src/utils.js:52-76 | a non-null result is a non-object value held under the key somewhere |
| FrontendUtils.FindDirectComplete | frontend/src/utils.js:52-76 | conversely, when the key holds a value that is neither null nor an object or array somewhere, and no holder of a non-object value has null, the result is not null |
| FrontendUtils.DirectDescendsIntoMatch | frontend/src/utils.js:59 | when the key holds an object, the search descends into it, unlike `findByKey` |

## Left out

- Concurrency and locking: the `Arc<Mutex<...>>` guards and the parallel fan-out of submodel fetches. The fetches are modelled sequentially, in UID order; with a real race the dictionary's last-wins order would be the completion order.
- The scheduler timers of `submodels_scheduler` (every 5 s and every 10 s), `tokio::spawn`, and all logging.
- The clock and RFC 3339 parsing and formatting. They are parameters: `now`, `nowText` and `parse`. `num_seconds` is taken to be the difference of the parsed seconds.
- `run_script` and the `sysInfo.sh` script (bash_command.rs is not part of this model). Their outcome is the `probe`/`reprobe` parameter.
- The thumbnail's directory creation, file creation and chunked write. Their outcome is the `imageWrite` parameter.
- Floating-point JSON numbers. Numbers are integers.
- Case mapping beyond ASCII in `toLowerCase`/`toUpperCase`. Unicode whitespace beyond the characters listed in `Whitespace`.
- The ordering of integer-like keys in JavaScript's `Object.keys`. Keys are visited in insertion order.
- Duplicate keys in a JSON object. Objects have distinct keys.
- The key order of `serde_json::Map`. Without the `preserve_order` feature it sorts keys; the crate's manifest is not part of this model, so value views and JSON texts keep insertion order.
- Integer widths. JSON numbers and status codes are unbounded integers, not `i64`/`u64`/`u16`.
- AasInterfaces.AasUpdateOne: `DebugQuoted` escapes a backslash, a quote, a tab, a carriage return, a newline and NUL; Rust's `{:?}` also escapes other control and non-printable characters as `\u{...}`, which the model prints as they are.
- FrontendUtils.FindByKey: an object on the search path with an own key `hasOwnProperty` shadows the method, so `obj.hasOwnProperty(keyToFind)` throws a TypeError; the model treats that key like any other and returns a value.
- FrontendUtils.FindDirectValueByKey: the same `hasOwnProperty` TypeError is not modelled, for the same reason.
- Onboarding.EdgeDeviceOnboarding: its request list leaves out the GETs of the individual submodel fetches, which `FetchSingleSubmodel` states one by one.
- `typeof v === 'object'` and `instanceof Object` are modelled on JSON values as "an object or an array".
- The text of errors produced by library code: the reason phrase of a status code, `Debug`-formatted responses, bson's `to_document` message (the constant `NotADocument`), and MongoDB's own error texts (the `failures` map). The messages the repository formats itself are kept; where an error is wrapped by anyhow's `with_context`, its `{}` prints only the context message, and that is the text kept.
- The HTTP handlers, routes, OpenAPI document and application state, which call into this core.
- SchedulerTask.ServerPolling: states framing only (every id visited, no document created or removed, only polled documents changed), not each id's result, because each id is one `FetchSingleSubmodelFromServer` whose own contract states that.
- SchedulerTask.PollManagedDevice: states only that nothing but the ManagedDevice document can change, for the same reason.
