# mlo-client core, modelled in Dafny

mlo-client is the Java client of the MLO (multi-layer orchestrator) slice-management server. This project models four parts of its control layer and proves properties of them:

- **The slice driver** (`SliceMultiRequestImpl`). It synthesises slice and flow requests: names `slice%08d` and `flow%08d`, CE ports from 100 upwards, the node names `tokyo`/`osaka` with a `123` suffix unless the source component is `OTHER`, and default bandwidth and delay. It runs the three bulk workflows (create, update-all, delete-all) against a `SliceDataManager`, and it chooses among them from the command line in `doProcess`.
- **The configuration provider** (`ClientConfigProviderImpl`). It loads a properties map once and caches it: the bundled defaults first, then the user file on top. It serves raw, boolean, integer, comma-split and prefix-filtered lookups. Its `main` writes the default definitions as a properties file under a fixed header.
- **The typed configuration** (`ClientConfigImpl`). The server URI, timeouts, source component, dummy-invoker flag and topology-view URI are read through the provider. The topology-view URI falls back to the page under the base URI.
- **The information view controller** (`MloInfoViewController`), without its JavaFX widgets. It holds three pieces of state:
  - the slice on display;
  - the name-to-id `LinkedHashMap` of listed slices;
  - the selected name.

  It also builds the JavaScript call `window.APP.api.setFlowListItems(name, [flows])` and the id-only request DTOs for delete and read.

Modules:

| file | module | contents |
|---|---|---|
| wrappers.dfy | Wrappers | `Option`, `Result` |
| decimal.dfy | Decimal | `%08d` formatting, `Integer.toString`, `Integer.parseInt` within 32 bits |
| dtos.dfy | Dtos | `FlowDto`, `SliceDto`, with every nullable field an `Option` |
| tabulate.dfy | Tabulation | sequence comprehensions with their one-step-longer lemmas |
| config_keys.dfy | ConfigKeys | the property keys and client-type names |
| slice_requests.dfy | SliceRequests | request synthesis: `createRequestFlowDto`, `createSliceDtos`, `updateSliceDto` |
| batch_workflows.dfy | BatchWorkflows | the task runner, the three workflows, `doProcess` |
| config_provider.dfy | ConfigProvider | property lookups, loading and merging, the cached provider class, `storeProps`, `defineProps` |
| client_config.dfy | ClientConfig | the typed getters and the class that reads through a provider |
| linked_map.dfy | LinkedMaps | an insertion-ordered map with the puts of `LinkedHashMap` |
| info_view.dfy | InfoView | the topology script, the slice map and the controller class |

The model takes these forms:

- Java `null` is `None`.
- A `NullPointerException` or rethrown exception is an explicit result: `Aborted`, `Crashed`, or `None` from a getter.
- The remote `SliceDataManager` is a datatype of the answers it gives.
- `Random.nextBoolean` is a sequence of given bits.
- The two file inputs of the loader are a `FileSystem` value.

Two details of the request builders:

- **The update flow type.** `updateSliceDto` tags each rebuilt flow with the type `"mod"`.
- **The delete request.** `doDeleteAllSlices` submits each listed slice DTO as it was listed, with its id, name and flows.

## Model

| member | source | states |
|---|---|---|
| Decimal.Pad8Value | mlo-client/src/main/java/org/o3project/mlo/client/impl/control/SliceMultiRequestImpl.java:282 | the digits of `%08d` read back as the number formatted |
| Decimal.Pad8Injective | mlo-client/src/main/java/org/o3project/mlo/client/impl/control/SliceMultiRequestImpl.java:231-234 | two `%08d` texts are equal exactly when the numbers are (so distinct indices give distinct names) |
| Decimal.Pad8Width | mlo-client/src/main/java/org/o3project/mlo/client/impl/control/SliceMultiRequestImpl.java:282 | below 10^8 the `%08d` text is exactly eight digits |
| Decimal.ParseInt | mlo-client/src/main/java/org/o3project/mlo/client/impl/control/ClientConfigProviderImpl.java:101 | a parsed value lies within 32-bit `int` and the text starts with a digit or a sign |
| Decimal.ParseIntSpec | mlo-client/src/main/java/org/o3project/mlo/client/impl/control/ClientConfigProviderImpl.java:101 | `parseInt` succeeds exactly on digits, or one sign then at least one digit, whose signed value fits in 32 bits, and gives that signed value |
| Decimal.ParseIntPlusSign | mlo-client/src/main/java/org/o3project/mlo/client/impl/control/ClientConfigProviderImpl.java:101 | a leading `+` does not change what a digit string parses to |
| Decimal.ParseIntLeadingZeros | mlo-client/src/main/java/org/o3project/mlo/client/impl/control/ClientConfigProviderImpl.java:101 | leading zeros do not change what a non-empty digit string parses to |
| Decimal.ParseIntRejects | mlo-client/src/main/java/org/o3project/mlo/client/impl/control/ClientConfigProviderImpl.java:101 | the empty text, a bare sign and texts with a non-digit are rejected |
| Decimal.ParseIntAccepts | mlo-client/src/main/java/org/o3project/mlo/client/impl/control/ClientConfigProviderImpl.java:101 | "+5" reads 5, "007" reads 7, "-12" reads -12 |
| Decimal.ParseShow | mlo-client/src/main/java/org/o3project/mlo/client/impl/control/ClientConfigProviderImpl.java:97-106 | `parseInt` of the decimal text of any 32-bit value gives that value back |
| SliceRequests.NodeNameSuffix | mlo-client/src/main/java/org/o3project/mlo/client/impl/control/SliceMultiRequestImpl.java:278-281 | the node-name suffix is empty exactly when the source component name equals `OTHER` |
| SliceRequests.CreateRequestFlowDto | mlo-client/src/main/java/org/o3project/mlo/client/impl/control/SliceMultiRequestImpl.java:277-299 | the method builds the request flow of the specification function `RequestFlow` |
| SliceRequests.RequestFlowFields | mlo-client/src/main/java/org/o3project/mlo/client/impl/control/SliceMultiRequestImpl.java:277-299 | name as given; src and dst port both the `%08d` of the port number; bandwidth given or 1; delay given or 9999/10; protection "0"; tokyo/osaka nodes, with "123" unless the component is OTHER; id and type unset |
| SliceRequests.CreateSliceDtos | mlo-client/src/main/java/org/o3project/mlo/client/impl/control/SliceMultiRequestImpl.java:225-242 | the nested loop yields exactly `CreateBatch(max(nSlice,0), max(nFlow,0))` |
| SliceRequests.BatchFlowsAt | mlo-client/src/main/java/org/o3project/mlo/client/impl/control/SliceMultiRequestImpl.java:233-238 | the k flows of a slice are the flows at global positions base..base+k-1 |
| SliceRequests.CreateBatchAt | mlo-client/src/main/java/org/o3project/mlo/client/impl/control/SliceMultiRequestImpl.java:228-241 | slice s of the batch starts at global flow index s*m |
| SliceRequests.SliceBaseIsProduct | mlo-client/src/main/java/org/o3project/mlo/client/impl/control/SliceMultiRequestImpl.java:236 | the running flow counter at slice s equals s*m |
| SliceRequests.SliceBaseMonotone | mlo-client/src/main/java/org/o3project/mlo/client/impl/control/SliceMultiRequestImpl.java:236 | the running flow counter never decreases across slices |
| SliceRequests.GlobalIndexOrdered | mlo-client/src/main/java/org/o3project/mlo/client/impl/control/SliceMultiRequestImpl.java:236-237 | (slice, flow) positions in lexicographic order get strictly increasing global indices |
| SliceRequests.CreateBatchShape | mlo-client/src/main/java/org/o3project/mlo/client/impl/control/SliceMultiRequestImpl.java:225-242 | n slices, each with no id, name `slice%08d(s)`, m flows named `flow%08d(s*m+k)` on port `%08d(100+s*m+k)` at both ends |
| SliceRequests.CreateBatchSliceNamesDistinct | mlo-client/src/main/java/org/o3project/mlo/client/impl/control/SliceMultiRequestImpl.java:231 | different slices of one batch have different names |
| SliceRequests.BatchFlowNamesDistinct | mlo-client/src/main/java/org/o3project/mlo/client/impl/control/SliceMultiRequestImpl.java:234 | flows at different global indices have different names |
| SliceRequests.CreateBatchFlowNamesDistinct | mlo-client/src/main/java/org/o3project/mlo/client/impl/control/SliceMultiRequestImpl.java:233-237 | any two different flow positions of a batch carry different flow names |
| SliceRequests.BatchFlowPort | mlo-client/src/main/java/org/o3project/mlo/client/impl/control/SliceMultiRequestImpl.java:227-282 | the flow at global index g has CE port 100+g |
| SliceRequests.CreateBatchFlowAt | mlo-client/src/main/java/org/o3project/mlo/client/impl/control/SliceMultiRequestImpl.java:233-238 | flow k of slice s is the flow built for global index s*m+k |
| SliceRequests.CreateBatchPortsIncrease | mlo-client/src/main/java/org/o3project/mlo/client/impl/control/SliceMultiRequestImpl.java:227-237 | CE ports strictly increase over the batch, in slice order and then flow order |
| SliceRequests.UpdateSliceDto | mlo-client/src/main/java/org/o3project/mlo/client/impl/control/SliceMultiRequestImpl.java:251-267 | no result (the NullPointerException) exactly when the registered slice has no flow list; otherwise the rebuilt slice `UpdatedSlice` |
| SliceRequests.UpdateFlowsAt | mlo-client/src/main/java/org/o3project/mlo/client/impl/control/SliceMultiRequestImpl.java:257-265 | rebuilt flow i is the request flow for index i carrying the registered flow's id |
| SliceRequests.UpdatedSliceKeepsIdentity | mlo-client/src/main/java/org/o3project/mlo/client/impl/control/SliceMultiRequestImpl.java:251-267 | the update keeps the slice id and each flow id, leaves the slice name unset, keeps the flow count, tags flows "mod", renumbers names from flow00000000 and ports from 100 |
| SliceRequests.SliceNameDigit | mlo-client/src/main/java/org/o3project/mlo/client/impl/control/SliceMultiRequestImpl.java:231 | `slice%08d` of a digit d is "slice0000000d" |
| SliceRequests.FlowNameDigit | mlo-client/src/main/java/org/o3project/mlo/client/impl/control/SliceMultiRequestImpl.java:234 | `flow%08d` of a digit d is "flow0000000d" |
| SliceRequests.PortDigit | mlo-client/src/main/java/org/o3project/mlo/client/impl/control/SliceMultiRequestImpl.java:282 | `%08d` of 100+d is "0000010d" |
| SliceRequests.ExampleStrings | mlo-client/src/main/java/org/o3project/mlo/client/impl/control/SliceMultiRequestImpl.java:231-282 | concrete names and port texts for indices 0, 1, 3, 5 and ports 100, 105 |
| SliceRequests.CreateBatchExample | mlo-client/src/main/java/org/o3project/mlo/client/impl/control/SliceMultiRequestImpl.java:225-242 | 2 slices of 3 flows: names slice00000000/01, flows 00..05 continuing across slices, ports 00000100..00000105, bandwidth 1, protection "0" |
| SliceRequests.UpdateExample | mlo-client/src/main/java/org/o3project/mlo/client/impl/control/SliceMultiRequestImpl.java:251-267 | updating two flows with ids 1 and 2 keeps the ids, names them flow00000000/01, tags "mod", applies bandwidth 50 and delay 20 |
| BatchWorkflows.Outcomes | mlo-client/src/main/java/org/o3project/mlo/client/impl/control/SliceMultiRequestImpl.java:459-468 | one outcome per task, outcome i being task i's operation applied to its request |
| BatchWorkflows.OutcomesAppend | mlo-client/src/main/java/org/o3project/mlo/client/impl/control/SliceMultiRequestImpl.java:102-110 | gathering a concatenation of task lists is gathering each in turn |
| BatchWorkflows.GatherEnd | mlo-client/src/main/java/org/o3project/mlo/client/impl/control/SliceMultiRequestImpl.java:308-320 | the position of the first null response (logging a null response throws), or the whole length when there is none |
| BatchWorkflows.GatheredCases | mlo-client/src/main/java/org/o3project/mlo/client/impl/control/SliceMultiRequestImpl.java:102-110 | the gather completes with every outcome exactly when no response is null; otherwise it stops with the outcomes before the first null response |
| BatchWorkflows.RunBatch | mlo-client/src/main/java/org/o3project/mlo/client/impl/control/SliceMultiRequestImpl.java:102-110 | the gather loop reports the `Outcomes` of the submitted tasks in submission order, up to the first null response, which throws out of the loop |
| BatchWorkflows.DoCreateSlices | mlo-client/src/main/java/org/o3project/mlo/client/impl/control/SliceMultiRequestImpl.java:84-114 | submits one create task per slice of `CreateBatch` and gathers their outcomes, stopping at a null response |
| BatchWorkflows.PlanUpdates | mlo-client/src/main/java/org/o3project/mlo/client/impl/control/SliceMultiRequestImpl.java:136-153 | the update submit loop queues at most one task per slice visited, and exactly one each when it is not stopped |
| BatchWorkflows.DoUpdateAllSlices | mlo-client/src/main/java/org/o3project/mlo/client/impl/control/SliceMultiRequestImpl.java:120-167 | list error or null list: aborted with nothing submitted; otherwise aborted with the tasks queued before the first failing slice, or every update submitted and gathered up to a null response |
| BatchWorkflows.PlanStaysStopped | mlo-client/src/main/java/org/o3project/mlo/client/impl/control/SliceMultiRequestImpl.java:138-143 | once the update loop has thrown, later slices change nothing |
| BatchWorkflows.PlanUpdatesCompletes | mlo-client/src/main/java/org/o3project/mlo/client/impl/control/SliceMultiRequestImpl.java:136-153 | the loop gets through k slices exactly when all k read back with flows; task i is then the update of slice i's read-back, named after listed slice i |
| BatchWorkflows.PlanUpdatesStops | mlo-client/src/main/java/org/o3project/mlo/client/impl/control/SliceMultiRequestImpl.java:136-153 | a stopped loop stopped at the first slice whose read failed (with that error) or had no flows; all earlier slices were queued |
| BatchWorkflows.DoDeleteAllSlices | mlo-client/src/main/java/org/o3project/mlo/client/impl/control/SliceMultiRequestImpl.java:174-214 | list error or null list: aborted with nothing submitted; otherwise one delete per listed slice, all submitted and gathered up to a null response |
| BatchWorkflows.ParseAll | mlo-client/src/main/java/org/o3project/mlo/client/impl/control/SliceMultiRequestImpl.java:380-394 | all arguments parse exactly when each does, and the values are theirs, in order |
| BatchWorkflows.DispatchCases | mlo-client/src/main/java/org/o3project/mlo/client/impl/control/SliceMultiRequestImpl.java:378-403 | nothing runs without a leading "-m"; create takes 4 or 6 arguments, update 2 or 4, delete exactly 2, and the numbers come from the fixed columns; the short create and update forms leave both bandwidth and latency null; every other "-m" line prints usage |
| BatchWorkflows.DispatchParses | mlo-client/src/main/java/org/o3project/mlo/client/impl/control/SliceMultiRequestImpl.java:380-394 | a create or update line fails with a number-format error exactly when one of its numeric columns does not parse |
| BatchWorkflows.DoProcess | mlo-client/src/main/java/org/o3project/mlo/client/impl/control/SliceMultiRequestImpl.java:375-408 | each dispatch outcome leads to its result: idle, the three usage lines, the uncaught format error, or the chosen workflow's outcome as above |
| ConfigProvider.BooleanValueSpelled | mlo-client/src/main/java/org/o3project/mlo/client/impl/control/ClientConfigProviderImpl.java:88-91 | true exactly for a present value spelling "true" in any mix of letter case |
| ConfigProvider.IntegerValue | mlo-client/src/main/java/org/o3project/mlo/client/impl/control/ClientConfigProviderImpl.java:97-106 | a value only for a present property, within 32 bits |
| ConfigProvider.IntegerValueSpec | mlo-client/src/main/java/org/o3project/mlo/client/impl/control/ClientConfigProviderImpl.java:97-106 | a present property gives a number exactly when it is a numeral within 32 bits, and then its signed value; a leading `+` changes nothing |
| ConfigProvider.IntegerValueRoundTrip | mlo-client/src/main/java/org/o3project/mlo/client/impl/control/ClientConfigProviderImpl.java:97-106 | the text of any int reads back as that int; a missing property gives no value |
| ConfigProvider.Fields | mlo-client/src/main/java/org/o3project/mlo/client/impl/control/ClientConfigProviderImpl.java:116 | splitting at every comma gives at least one field |
| ConfigProvider.FieldsJoin | mlo-client/src/main/java/org/o3project/mlo/client/impl/control/ClientConfigProviderImpl.java:116 | the fields join back with commas to the text; no field holds a comma; one field exactly when there is no comma |
| ConfigProvider.FieldsLast | mlo-client/src/main/java/org/o3project/mlo/client/impl/control/ClientConfigProviderImpl.java:116 | the last field is empty exactly when the text is empty or ends with a comma |
| ConfigProvider.DropTrailingEmpty | mlo-client/src/main/java/org/o3project/mlo/client/impl/control/ClientConfigProviderImpl.java:116 | a prefix of the fields; all dropped fields empty; the kept last field non-empty |
| ConfigProvider.CommaSplitSpec | mlo-client/src/main/java/org/o3project/mlo/client/impl/control/ClientConfigProviderImpl.java:112-119 | `String.split(",")`: a comma-free text is itself; pieces are comma-free; trailing empty pieces removed and no others; joins back when the text does not end in a comma |
| ConfigProvider.CommaSplitPieces | mlo-client/src/main/java/org/o3project/mlo/client/impl/control/ClientConfigProviderImpl.java:116 | no piece of a split holds a comma |
| ConfigProvider.CommaSplitRejoin | mlo-client/src/main/java/org/o3project/mlo/client/impl/control/ClientConfigProviderImpl.java:116 | a non-empty text not ending in a comma is the comma-join of its pieces |
| ConfigProvider.CommaSplitValue | mlo-client/src/main/java/org/o3project/mlo/client/impl/control/ClientConfigProviderImpl.java:112-119 | an array exactly when the property is present |
| ConfigProvider.FieldsLead | mlo-client/src/main/java/org/o3project/mlo/client/impl/control/ClientConfigProviderImpl.java:116 | splitting a comma-free lead, a comma and a tail gives the lead, then the tail's fields |
| ConfigProvider.CommaSplitPlain | mlo-client/src/main/java/org/o3project/mlo/client/impl/control/ClientConfigProviderImpl.java:116 | "a,b" gives ["a","b"] and "" gives [""] |
| ConfigProvider.CommaSplitLoneComma | mlo-client/src/main/java/org/o3project/mlo/client/impl/control/ClientConfigProviderImpl.java:116 | "," gives the empty array |
| ConfigProvider.FieldsTwoCommas | mlo-client/src/main/java/org/o3project/mlo/client/impl/control/ClientConfigProviderImpl.java:116 | "b,," has the fields "b", "", "" |
| ConfigProvider.FieldsTrailingEmpties | mlo-client/src/main/java/org/o3project/mlo/client/impl/control/ClientConfigProviderImpl.java:116 | "a,,b,," has five fields |
| ConfigProvider.CommaSplitTrailing | mlo-client/src/main/java/org/o3project/mlo/client/impl/control/ClientConfigProviderImpl.java:116 | "a,,b,," gives ["a","","b"]: inner empty pieces stay, trailing ones go |
| ConfigProvider.SubProperties | mlo-client/src/main/java/org/o3project/mlo/client/impl/control/ClientConfigProviderImpl.java:125-135 | key s is in the result exactly when s is non-empty and prefix+s is configured, with that value |
| ConfigProvider.PutAll | mlo-client/src/main/java/org/o3project/mlo/client/impl/control/ClientConfigProviderImpl.java:218-225 | putting every loaded entry yields the old map overridden by the loaded one |
| ConfigProvider.PutStep | mlo-client/src/main/java/org/o3project/mlo/client/impl/control/ClientConfigProviderImpl.java:221-224 | one put extends the already-merged part by that key |
| ConfigProvider.LoadConfigMap | mlo-client/src/main/java/org/o3project/mlo/client/impl/control/ClientConfigProviderImpl.java:137-162 | the loaded map is the defaults overridden by the user file (`MergedConfig`) |
| ConfigProvider.MergeOrder | mlo-client/src/main/java/org/o3project/mlo/client/impl/control/ClientConfigProviderImpl.java:137-162 | a key in the user file has the file's value; any other key has its default or is absent |
| ConfigProvider.NoFileGivesDefaults | mlo-client/src/main/java/org/o3project/mlo/client/impl/control/ClientConfigProviderImpl.java:146-159 | a null path, or one that is not a readable file, leaves exactly the defaults |
| ConfigProvider.Provider.constructor | mlo-client/src/main/java/org/o3project/mlo/client/impl/control/ClientConfigProviderImpl.java:42-56 | records the path; nothing is loaded yet |
| ConfigProvider.Provider.EnsureLoaded | mlo-client/src/main/java/org/o3project/mlo/client/impl/control/ClientConfigProviderImpl.java:62-69 | loads once: the cache becomes the merged map if it was empty and is otherwise kept |
| ConfigProvider.Provider.GetProperties | mlo-client/src/main/java/org/o3project/mlo/client/impl/control/ClientConfigProviderImpl.java:62-69 | returns the cached map, loading it on the first call |
| ConfigProvider.Provider.GetProperty | mlo-client/src/main/java/org/o3project/mlo/client/impl/control/ClientConfigProviderImpl.java:75-82 | the cached value for the key, or null |
| ConfigProvider.Provider.GetBooleanProperty | mlo-client/src/main/java/org/o3project/mlo/client/impl/control/ClientConfigProviderImpl.java:88-91 | `"true".equalsIgnoreCase` of the cached value |
| ConfigProvider.Provider.GetIntegerProperty | mlo-client/src/main/java/org/o3project/mlo/client/impl/control/ClientConfigProviderImpl.java:97-106 | the parsed cached value; null when absent or not a number |
| ConfigProvider.Provider.GetCommaSplitedProperty | mlo-client/src/main/java/org/o3project/mlo/client/impl/control/ClientConfigProviderImpl.java:112-119 | the comma split of the cached value; null when absent |
| ConfigProvider.Provider.GetSubProperties | mlo-client/src/main/java/org/o3project/mlo/client/impl/control/ClientConfigProviderImpl.java:125-135 | the entries under the prefix with the prefix stripped, from the cached map |
| ConfigProvider.LoadsOnce | mlo-client/src/main/java/org/o3project/mlo/client/impl/control/ClientConfigProviderImpl.java:62-82 | two lookups on a fresh provider both answer from the first load, whatever the files hold at the second |
| ConfigProvider.StoreProps | mlo-client/src/main/java/org/o3project/mlo/client/impl/control/ClientConfigProviderImpl.java:249-297 | the written lines are the fixed header, then `key=value` for each non-null entry in order |
| ConfigProvider.PropLinesAppend | mlo-client/src/main/java/org/o3project/mlo/client/impl/control/ClientConfigProviderImpl.java:274-280 | the entry lines of a concatenation are the concatenation of the entry lines |
| ConfigProvider.PropLinesSingle | mlo-client/src/main/java/org/o3project/mlo/client/impl/control/ClientConfigProviderImpl.java:275-279 | one entry gives `key=value` if its value is set, and no line if null |
| ConfigProvider.PropLineParts | mlo-client/src/main/java/org/o3project/mlo/client/impl/control/ClientConfigProviderImpl.java:277 | a `key=value` line starts with the key, has '=' after it, and ends with the value |
| ConfigProvider.StoredLineCount | mlo-client/src/main/java/org/o3project/mlo/client/impl/control/ClientConfigProviderImpl.java:254-280 | the file has 7 header lines plus one per non-null entry |
| ConfigProvider.PropLinesAllPresent | mlo-client/src/main/java/org/o3project/mlo/client/impl/control/ClientConfigProviderImpl.java:274-280 | with no null values, line i is entry i's `key=value` |
| ConfigProvider.EntriesMapLookup | mlo-client/src/main/java/org/o3project/mlo/client/impl/control/ClientConfigProviderImpl.java:311-332 | with distinct keys, each put key maps to its value and no other key appears |
| ConfigProvider.DefinedKeysDistinct | mlo-client/src/main/java/org/o3project/mlo/client/impl/control/ClientConfigProviderImpl.java:311-332 | the eight default definitions use eight different keys |
| ConfigProvider.DefinedMapValues | mlo-client/src/main/java/org/o3project/mlo/client/impl/control/ClientConfigProviderImpl.java:311-332 | the defaults: base URI http://127.0.0.1:8080/DEMO, both timeouts "600", component HITACHI, flag "false", topology URI "" |
| ConfigProvider.GenerateDefaultFile | mlo-client/src/main/java/org/o3project/mlo/client/impl/control/ClientConfigProviderImpl.java:231-241 | the definitions put into a `LinkedHashMap` and stored through its key set give the 7 header lines, then the 8 definitions as `key=value` lines in definition order |
| ClientConfig.TopologyViewUriConfigured | mlo-client/src/main/java/org/o3project/mlo/client/impl/control/ClientConfigImpl.java:73-83 | a configured non-empty topology URI is used as is |
| ClientConfig.TopologyViewUriFallback | mlo-client/src/main/java/org/o3project/mlo/client/impl/control/ClientConfigImpl.java:73-83 | an absent or empty one becomes base URI + "/client/index.html", and "null/client/index.html" without a base URI |
| ClientConfig.TopologyViewUriNonEmpty | mlo-client/src/main/java/org/o3project/mlo/client/impl/control/ClientConfigImpl.java:73-83 | the topology URI is never empty |
| ClientConfig.DefaultConfigValues | mlo-client/src/main/java/org/o3project/mlo/client/impl/control/ClientConfigImpl.java:33-83 | over the default definitions: base URI, timeouts 600, HITACHI, flag false, topology URI http://127.0.0.1:8080/DEMO/client/index.html |
| ClientConfig.ShowSixHundred | mlo-client/src/main/java/org/o3project/mlo/client/impl/control/ClientConfigProviderImpl.java:321-322 | the default timeout text "600" is the decimal text of 600 |
| ClientConfig.Config.constructor | mlo-client/src/main/java/org/o3project/mlo/client/impl/control/ClientConfigImpl.java:19-27 | the configuration reads through the given provider |
| ClientConfig.Config.GetServerBaseUri | mlo-client/src/main/java/org/o3project/mlo/client/impl/control/ClientConfigImpl.java:33-35 | the base-URI property of the provider's (loaded) map |
| ClientConfig.Config.GetConnectionTimeoutSec | mlo-client/src/main/java/org/o3project/mlo/client/impl/control/ClientConfigImpl.java:41-43 | the integer connection-timeout property |
| ClientConfig.Config.GetReadTimeoutSec | mlo-client/src/main/java/org/o3project/mlo/client/impl/control/ClientConfigImpl.java:49-51 | the integer read-timeout property |
| ClientConfig.Config.GetSrcComponentName | mlo-client/src/main/java/org/o3project/mlo/client/impl/control/ClientConfigImpl.java:57-59 | the source-component property |
| ClientConfig.Config.GetDummyInvokerSetFlag | mlo-client/src/main/java/org/o3project/mlo/client/impl/control/ClientConfigImpl.java:65-67 | the boolean dummy-invoker property |
| ClientConfig.Config.GetTopologyViewUri | mlo-client/src/main/java/org/o3project/mlo/client/impl/control/ClientConfigImpl.java:73-83 | the topology URI with its fallback |
| LinkedMaps.FirstIndex | mlo-client/src/main/java/org/o3project/mlo/client/impl/control/MloInfoViewController.java:298-303 | the position of a key's first occurrence |
| LinkedMaps.LastIndex | mlo-client/src/main/java/org/o3project/mlo/client/impl/control/MloInfoViewController.java:298-303 | the position of a key's last occurrence |
| LinkedMaps.PutAllKeys | mlo-client/src/main/java/org/o3project/mlo/client/impl/control/MloInfoViewController.java:298-303 | a run of `LinkedHashMap.put` lists each key once, exactly the keys put |
| LinkedMaps.PutAllValues | mlo-client/src/main/java/org/o3project/mlo/client/impl/control/MloInfoViewController.java:298-303 | each key holds the value of its last put |
| LinkedMaps.PutAllOrder | mlo-client/src/main/java/org/o3project/mlo/client/impl/control/MloInfoViewController.java:298-303 | keys are listed in the order of their first put |
| LinkedMaps.EntriesOfPutAllKeys | mlo-client/src/main/java/org/o3project/mlo/client/impl/control/ClientConfigProviderImpl.java:274-278 | walking the key set of a put-built map meets every key put, with the value of its last put |
| LinkedMaps.EntriesOfPutAllValues | mlo-client/src/main/java/org/o3project/mlo/client/impl/control/ClientConfigProviderImpl.java:274-278 | every entry met on that walk is a key that was put, holding its last-put value |
| LinkedMaps.EntriesOfPutAllOrder | mlo-client/src/main/java/org/o3project/mlo/client/impl/control/ClientConfigProviderImpl.java:274-278 | the walk meets the keys in the order of their first put, each once |
| LinkedMaps.PutAllDistinct | mlo-client/src/main/java/org/o3project/mlo/client/impl/control/ClientConfigProviderImpl.java:311-332 | puts of pairwise different keys list the keys in put order, each holding its one value |
| InfoView.ElementNonEmpty | mlo-client/src/main/java/org/o3project/mlo/client/impl/control/MloInfoViewController.java:388-389 | each flow item is a non-empty `{...}` text |
| InfoView.JoinedSnoc | mlo-client/src/main/java/org/o3project/mlo/client/impl/control/MloInfoViewController.java:390-394 | appending an item adds it, after a comma unless it is the first |
| InfoView.JoinedEmpty | mlo-client/src/main/java/org/o3project/mlo/client/impl/control/MloInfoViewController.java:390-394 | the joined text is empty exactly when there are no items |
| InfoView.ElementsSnoc | mlo-client/src/main/java/org/o3project/mlo/client/impl/control/MloInfoViewController.java:378-396 | the items of i+1 flows are those of i, then flow i numbered i+1 |
| InfoView.JoinedStep | mlo-client/src/main/java/org/o3project/mlo/client/impl/control/MloInfoViewController.java:390-394 | one loop step: a "," prefix exactly when the builder is non-empty |
| InfoView.FlowListStep | mlo-client/src/main/java/org/o3project/mlo/client/impl/control/MloInfoViewController.java:378-396 | one pass of the loop body extends the builder to one more flow |
| InfoView.FlowListItems | mlo-client/src/main/java/org/o3project/mlo/client/impl/control/MloInfoViewController.java:376-404 | the builder loop produces the comma-joined items, each numbered from 1 |
| InfoView.TopologyScript | mlo-client/src/main/java/org/o3project/mlo/client/impl/control/MloInfoViewController.java:366-414 | the script is `Script(slice)` |
| InfoView.ClearScript | mlo-client/src/main/java/org/o3project/mlo/client/impl/control/MloInfoViewController.java:416-418 | clearing sends `setFlowListItems(null, null);` |
| InfoView.NameArgCases | mlo-client/src/main/java/org/o3project/mlo/client/impl/control/MloInfoViewController.java:370-374 | the name argument is "null" exactly when there is no slice or no name, otherwise the name in single quotes |
| InfoView.ListArgCases | mlo-client/src/main/java/org/o3project/mlo/client/impl/control/MloInfoViewController.java:376-404 | the list argument is "null" exactly when there is no slice or no flow list |
| InfoView.ElementsAt | mlo-client/src/main/java/org/o3project/mlo/client/impl/control/MloInfoViewController.java:380-389 | item i is flow i's item numbered i+1; an unnamed flow is "Flow-(i+1)", an untyped one "== UNKNOWN ==" |
| InfoView.JoinedAppend | mlo-client/src/main/java/org/o3project/mlo/client/impl/control/MloInfoViewController.java:390-394 | joining two non-empty runs is joining each with a comma between |
| InfoView.JoinedEnds | mlo-client/src/main/java/org/o3project/mlo/client/impl/control/MloInfoViewController.java:390-394 | with items that neither start nor end with a comma, the joined text is empty exactly for no items, and otherwise begins with the first item, ends with the last, and has no comma at either end |
| InfoView.FlowListShape | mlo-client/src/main/java/org/o3project/mlo/client/impl/control/MloInfoViewController.java:376-403 | the list body is empty exactly for no flows, and otherwise begins with '{' and ends with '}' |
| InfoView.BuildSliceMap | mlo-client/src/main/java/org/o3project/mlo/client/impl/control/MloInfoViewController.java:298-303 | the put loop builds `SliceMapOf`, empty for a null list |
| InfoView.SliceMapSpec | mlo-client/src/main/java/org/o3project/mlo/client/impl/control/MloInfoViewController.java:298-303 | the slice map is well-formed, holds exactly the listed names, each with the id of its last listing, in order of first listing |
| InfoView.SliceMapDuplicateExample | mlo-client/src/main/java/org/o3project/mlo/client/impl/control/MloInfoViewController.java:298-303 | a repeated name keeps its first position and takes the later id |
| InfoView.Controller.constructor | mlo-client/src/main/java/org/o3project/mlo/client/impl/control/MloInfoViewController.java:89-91 | no slice on display, no map, no selection |
| InfoView.Controller.OnSlicesListed | mlo-client/src/main/java/org/o3project/mlo/client/impl/control/MloInfoViewController.java:291-315 | the map is replaced by the map of the listed slices; the topology list is cleared |
| InfoView.Controller.SelectSlice | mlo-client/src/main/java/org/o3project/mlo/client/impl/control/MloInfoViewController.java:112 | the selection changes and nothing else |
| InfoView.Controller.OnSliceRead | mlo-client/src/main/java/org/o3project/mlo/client/impl/control/MloInfoViewController.java:336-360 | a non-empty result puts its first slice on display; the script shows that slice, or nulls when nothing came back; a first slice with null flows throws in the flows panel, so no script is sent |
| InfoView.Controller.GetDeleteSliceData | mlo-client/src/main/java/org/o3project/mlo/client/impl/control/MloInfoViewController.java:226-230 | a DTO holding only the displayed slice's id; none (the NullPointerException) with no slice on display |
| InfoView.Controller.GetReadSliceDto | mlo-client/src/main/java/org/o3project/mlo/client/impl/control/MloInfoViewController.java:236-241 | a DTO holding only the id mapped to the selected name (null when unmapped); none before any list arrived |
| InfoView.ListThenRead | mlo-client/src/main/java/org/o3project/mlo/client/impl/control/MloInfoViewController.java:236-303 | after listing slices and selecting slice i's name, the read request carries the id of the last listed slice with that name |
| Tabulation.TabulateSnoc | mlo-client/src/main/java/org/o3project/mlo/client/impl/control/SliceMultiRequestImpl.java:233-238 | a tabulation one longer appends the next element |
| Tabulation.MapIndexedSnoc | mlo-client/src/main/java/org/o3project/mlo/client/impl/control/MloInfoViewController.java:378-396 | an indexed map one longer appends the next element |

## Left out

- Concurrency. The fixed thread pool, `shutdownNow` and `awaitTermination` are replaced by a submit loop and a gather loop. Tasks run sequentially, in submission order. `InterruptedException` is not modelled.
- Logging (`LOG.*`, the JAXB dump of DTOs) and `handleExecutionException` are not modelled as output. One effect of `log` is modelled: logging a null response throws, which ends the gather loop (`BatchWorkflows.Interrupted`). The tasks still queued in the pool keep running, and `shutdownNow` is skipped.
- A `RuntimeException` thrown by `JAXB.marshal` inside `log` for a non-null DTO is not modelled.
- `BatchWorkflows.DoUpdateAllSlices`: a null element of the listed slices is not modelled. In the source, `listSliceDto.name` throws on it in the submit loop, after the updates of earlier slices were submitted.
- `InfoView.Controller.OnSlicesListed`: a null element of the listed slices is not modelled. In the source, `sliceDto.name` throws on it while the new map is filled, so the old map stays and no clear script is sent.
- `InfoView.Controller.OnSliceRead`: a null first element of the read result is not modelled. In the source it does not throw: nothing is put on display (`targetSlice` becomes null) and the script `setFlowListItems(null, null);` is sent.
- `BatchWorkflows.DoDeleteAllSlices`: a null element of the listed slices is not modelled. In the source, `log("Request", …)` throws on it in the submit loop.
- `Random` seeded by the clock: the random bits are given as a sequence. Bits past its end read as false.
- `SliceMultiRequestImpl.main` is not modelled. It builds a Seasar container and calls `doProcess`.
- File I/O in the loader (`File.exists`, `isFile`, `Properties.load`, `ResourceUtil.getResource`) is not modelled. What the defaults resource and each user-file path yield is given as a `FileSystem` value. An unreadable source is `None`.
- The bundled default resource is the one `main` generates. The model does not derive this: `DefaultConfigValues` is stated over `DefinedMap`.
- `Collections.unmodifiableMap` is not modelled. The configuration map is a value.
- The `synchronized (oMutex)` lock of the provider is not modelled.
- `storeProps` writing through a `FileOutputStream` in ISO-8859-1 is not modelled. The lines are returned instead. An `IOException` while writing is not modelled.
- `ClientConfigConstants` is not part of this model. The key strings and client-type names are stand-ins with distinct texts. The model depends only on their being distinct.
- JavaFX: the widgets, the button state, the `MloClient` singleton, task submission, error dialogs, and `executeScript` itself are not modelled. The script is only returned. Only the controller's three state fields and its script and DTO builders are modelled.
- `Decimal.ParseInt` covers ASCII digits only. `Integer.parseInt` is not modelled for non-ASCII Unicode digits.
- `ConfigProvider.BooleanValueSpelled`: `equalsIgnoreCase` is compared over ASCII letter case only. Other Unicode case pairs are not modelled.
- `SliceRequests.CreateSliceDtos`: the 32-bit `int` counters are unbounded. Flow and port counters beyond 2^31-1, which wrap in Java, are not modelled.
- `SliceRequests.UpdateSliceDto`: a null registered slice, and a null flow inside a flow list, are not modelled. The collaborator always answers with a slice value.
- A null `keyPrefix` in `getSubProperties` is not modelled. Neither is a null `FlowDto` inside a displayed slice's flow list.
- `BatchWorkflows.DoUpdateAllSlices`: the collaborator answers from the request alone. Server state that changes between calls is not modelled.
- `BatchWorkflows.DoCreateSlices`: the collaborator answers from the request alone. Server state that changes between calls is not modelled.
- `BatchWorkflows.DoDeleteAllSlices`: the collaborator answers from the request alone, so two equal listed DTOs get equal outcomes. A server that fails the second delete of the same slice is not modelled.
- `BatchWorkflows.DoProcess`: `nSlice`/`nFlowForSlice` are never null when they come from the command line, so only the parsed values are modelled.
