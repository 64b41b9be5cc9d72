# FlowForge core, modelled in Dafny

FlowForge is a workflow engine. A JSON configuration declares named
workflows. Each workflow has an ordered list of actions (an action is a
plugin type plus a params string) and an optional rule. Running a workflow
first evaluates its rule against the host. When the rule holds, the engine
loads each action's plugin from a shared library and calls it with the
action's params. A failing step is reported for that step only.

This project models the sequential logic of that engine and proves
properties of it:

- **`RuleEngine`** (`rule_engine.dfy`): the rule evaluator. It covers the
  `and` / `or` / `not` nodes, the leaf objects `disk`, `cpu`, `memory`,
  `file` and `time`, and the legacy string conditions. The three regular
  expressions are deterministic matchers, and `std::regex_search` is a
  leftmost search over them. The host readings form an environment record.
- **`Workflows`** (`workflow.dfy`): `Workflow::execute` and
  `executeWithOverrides`. A run is a trace of events: console lines, load
  requests, plugin calls and per-step reports.
- **`PluginLoader`** (`plugin_loader.dfy`): the candidate paths and the
  first-success search, including its error message.
- **`WorkflowManager`** (`workflow_manager.dfy`): a `Manager` class that
  holds the registry. It covers loading with entry-by-entry validation,
  lookup by name, the name list and the action summaries.
- **`CrcBits`, `CrcTable`, `Crc32`** (`crc32.dfy`): the table-driven CRC-32
  of the ZIP writer. Each table entry is checked against the bit-level
  definition with the reflected polynomial 0xEDB88320.
- **`Zip`** (`compress_action.dfy`): the ZIP writer's bookkeeping. It covers
  MS-DOS time and date packing, local and central headers, the
  end-of-central-directory record, offsets, entry names and the archive
  name. These follow sections 4.3.7, 4.3.12, 4.3.16 and 4.4.6 of the PKWARE
  ZIP APPNOTE. A `ZipWriter` class holds the state that `addFileToZip`
  updates by reference.
- **`EmailPlugin`** (`email_plugin.dfy`): the libcurl read callback. It is
  modelled over an `array<char>` buffer and an `EmailPayload` cursor object.
  The module also covers the message text (shaped as in section 2.1 of RFC
  5322), the SMTP envelope, the credential checks and the parameter
  defaults.
- **`Cli`** (`cli.dfy`): `parseSelectionList`, the choice of configuration
  file, the exit codes of `main`, and the override prompt.
- **`PathUtils`** (`path_utils.dfy`): tilde expansion within
  `expandAndNormalizePath`.
- **`Basics`** and **`Json`**: shared vocabulary. `Basics` has `Option`,
  `Result`, C-locale digits and spaces, `std::stoi`, and the `int`
  conversion. `Json` is the part of `nlohmann::json` the engine relies on.

The outside world appears as parameters:

- the rule environment: disk and memory usage percentages (or none when the
  stat call fails), the set of existing paths, and the local hour;
- `dlopen`/`dlsym`, as a function from a path to its probe outcome;
- what each plugin's `execute` does with its params;
- nlohmann's `dump()`;
- `fs::exists` and the parsed configuration file;
- the curl handle and the SMTP transfer;
- deflate output and file modification times;
- `std::filesystem` normalisation.

Exceptions become explicit outcomes (`Raised`, `Err`, `None`) wherever the
source lets them propagate or catches them. A rule exception that escapes
`Workflow::execute` is recorded in the `Run` (`escaped`); nothing on the
direct-mode path of `main` catches it, so that path then ends in `Terminated`
(`std::terminate`) instead of an exit code.

## Model

| member | source | states |
|---|---|---|
| Basics.ToInt32 | src/main.cpp:38 | `static_cast<int>` of a `size_t` lands in the `int` range, is the identity there, and never grows a non-negative value |
| Basics.ToInt32Wraps | src/main.cpp:38 | the conversion keeps the value modulo 2^32 |
| Basics.Stoi | src/main.cpp:37 | `std::stoi` yields only values in the 32-bit `int` range (`None` for both exceptions) |
| Basics.StoiNoDigits | src/main.cpp:37 | `stoi` throws on text containing no digit |
| Basics.StoiDecimal | src/RuleEngine.cpp:66 | `stoi` of a number's decimal digits, followed by anything that is not a digit, gives the number back |
| Basics.DecimalValue | src/RuleEngine.cpp:66 | the decimal spelling of `n` denotes `n` |
| Basics.DropSpacesOver | src/RuleEngine.cpp:78 | `\s*` skips a run of white space as a whole |
| Basics.DigitsOver | src/RuleEngine.cpp:78 | `\d+` takes exactly a digit run that is followed by a non-digit |
| Basics.Substr | src/RuleEngine.cpp:124 | `substr(i)` succeeds iff `i <= size()`, and then returns the rest after `i` |
| Basics.LastIndexOf | src/PluginLoader.cpp:19 | `find_last_of` of one char finds the last occurrence, or -1 when there is none |
| Basics.ReplaceChar | plugins/CompressAction.cpp:205 | `std::replace` keeps the length and swaps exactly the matching characters |
| Json.KeyIndex | src/RuleEngine.cpp:23 | finds the first member with that key, or -1 exactly when there is none |
| Json.Get | src/RuleEngine.cpp:24 | `v[k]` on a contained key is the value of a member named `k`, and is smaller than `v` |
| Json.AsString | src/WorkflowManager.cpp:27 | `get<std::string>()` succeeds exactly on strings and returns their text |
| Json.Items | src/RuleEngine.cpp:24 | range-for visits an array's elements, an object's values in order, nothing for null, and a primitive value once |
| RuleEngine.Evaluate | src/RuleEngine.cpp:11-15 | a rule without `"if"` is satisfied |
| RuleEngine.DefaultRuleSatisfied | src/RuleEngine.cpp:12 | the null rule and the empty object evaluate true |
| RuleEngine.Negate | src/RuleEngine.cpp:34 | `!` flips a value and lets an exception through |
| RuleEngine.AllIsConj | src/RuleEngine.cpp:24-27 | the `and` loop computes the left-to-right conjunction of its children's outcomes |
| RuleEngine.All | src/RuleEngine.cpp:24-27 | the `and` loop from item `i` yields true iff every remaining child is true |
| RuleEngine.Any | src/RuleEngine.cpp:28-32 | the `or` loop from item `i` yields false iff every remaining child is false |
| RuleEngine.AnyIsDisj | src/RuleEngine.cpp:29-32 | the `or` loop computes the left-to-right disjunction of its children's outcomes |
| RuleEngine.ConjTrue | src/RuleEngine.cpp:23-27 | `and` is true iff every child is true |
| RuleEngine.ConjFirstNotTrue | src/RuleEngine.cpp:25 | `and` stops at the first child that is not true, and that child decides |
| RuleEngine.DisjFalse | src/RuleEngine.cpp:28-32 | `or` is false iff every child is false |
| RuleEngine.DisjFirstNotFalse | src/RuleEngine.cpp:30 | `or` stops at the first child that is not false, and that child decides |
| RuleEngine.AndNode | src/RuleEngine.cpp:23-27 | an object with `and` evaluates to the conjunction of its children |
| RuleEngine.OrNode | src/RuleEngine.cpp:28-32 | an object with `or` and without `and` evaluates to the disjunction of its children |
| RuleEngine.EmptyJunctions | src/RuleEngine.cpp:23-32 | the empty (or null) `and` is true; the empty (or null) `or` is false |
| RuleEngine.AndPrecedes | src/RuleEngine.cpp:23 | with an `and` key every other key is ignored |
| RuleEngine.Condition | src/RuleEngine.cpp:17-41 | a condition that is neither a string nor an object is true, and a legacy string condition can only throw `stoi`'s out_of_range |
| RuleEngine.OrPrecedes | src/RuleEngine.cpp:28 | without `and`, an `or` key overrides `not` and the leaf keys |
| RuleEngine.NotNegates | src/RuleEngine.cpp:33-34 | without `and`/`or`, `not` negates its child and overrides the leaf keys |
| RuleEngine.DoubleNegation | src/RuleEngine.cpp:33-34 | `not` of `not x` behaves as `x` |
| RuleEngine.OtherNodesTrue | src/RuleEngine.cpp:40 | a condition that is neither a string nor an object is true |
| RuleEngine.LeafPrecedence | src/RuleEngine.cpp:43-56 | the first present key in the order disk, cpu, memory, file, time decides alone; with none, the object is true |
| RuleEngine.Single | src/RuleEngine.cpp:43-56 | an object with none of the leaf keys is true; a `disk` key throws the not-a-string error iff its value is not a string; that error only arises from a present leaf key whose value is not a string |
| RuleEngine.FirstHit | src/RuleEngine.cpp:80 | a found index is at or after the start and is a hit |
| RuleEngine.FirstHitLeftmost | src/RuleEngine.cpp:80 | the found hit is the leftmost one, and none is found iff there is no hit |
| RuleEngine.FirstHitFinds | src/RuleEngine.cpp:80 | a hit with none before it is the one found |
| RuleEngine.Search | src/RuleEngine.cpp:80 | `regex_search` reports a position where the pattern matches |
| RuleEngine.SearchLeftmost | src/RuleEngine.cpp:80 | `regex_search` reports the leftmost match, and no match exactly when there is none |
| RuleEngine.SearchFinds | src/RuleEngine.cpp:80 | a match with none before it is the one reported |
| RuleEngine.GtMatchOf | src/RuleEngine.cpp:78 | `>\s*(\d+)%?` reads `> ws N` as N |
| RuleEngine.GtValueAt | src/RuleEngine.cpp:78-81 | the threshold is N from the first `>` followed by optional spaces and digits |
| RuleEngine.NoGtValue | src/RuleEngine.cpp:78-84 | a text without `>` has no threshold, in either pattern |
| RuleEngine.ThresholdLeaves | src/RuleEngine.cpp:73-119 | CPU is true iff N < 60; disk and memory are true iff their reading is available and strictly above N |
| RuleEngine.Cpu | src/RuleEngine.cpp:87-100 | no `>` threshold gives false; the only exception is `stoi` out of range; true iff a threshold is present and below 60 |
| RuleEngine.Memory | src/RuleEngine.cpp:102-119 | an unreadable reading or no threshold gives false; the only exception is `stoi` out of range; true iff the reading is available, the threshold fits an `int` and the usage is above it |
| RuleEngine.Disk | src/RuleEngine.cpp:73-85 | false when `statvfs` fails or no `> N` is found; true exactly when N fits an `int` and the usage percentage is above it; the only exception is `stoi`'s out_of_range |
| RuleEngine.ThresholdOverflow | src/RuleEngine.cpp:81 | a threshold beyond `INT_MAX` makes `stoi` throw out of the leaf |
| RuleEngine.NoThresholdFalse | src/RuleEngine.cpp:84 | disk, CPU and memory texts without a threshold are false |
| RuleEngine.LegacyDiskWithoutThreshold | src/RuleEngine.cpp:58-85 | a legacy `disk` string without a threshold is true, where the object form is false |
| RuleEngine.LegacyWithoutDisk | src/RuleEngine.cpp:70 | a legacy string not mentioning `disk` is true |
| RuleEngine.DiskGtValueAt | src/RuleEngine.cpp:63-66 | `disk ws > ws N` reads N |
| RuleEngine.LegacySimple | src/RuleEngine.cpp:58-68 | a legacy `disk > N` string is true iff the disk can be read and its usage is above N |
| RuleEngine.Simple | src/RuleEngine.cpp:58-71 | a string without `disk` is true; with `disk` and no reading it is false; with a reading and no threshold it is true; the only exception is `stoi` out of range |
| RuleEngine.LegacyDiskThreshold | src/RuleEngine.cpp:58-68 | the legacy `disk > N` compares the disk usage with N |
| RuleEngine.FileLeafMeaning | src/RuleEngine.cpp:121-128 | the file leaf is true iff the text starts with `exists` and its path from index 7 exists; exactly `exists` throws |
| RuleEngine.File | src/RuleEngine.cpp:121-128 | a text not starting with `exists` is false; the only exception is `substr` out of range; true only when the path from index 7 exists |
| RuleEngine.FileExists | src/RuleEngine.cpp:123-125 | `exists <path>` tests that path |
| RuleEngine.ClockOver | src/RuleEngine.cpp:136 | `(\d+):(\d+)` reads the hour of `H:M` |
| RuleEngine.WindowHours | src/RuleEngine.cpp:136-140 | `between A:B and C:D` yields the hours A and C |
| RuleEngine.TimeOfWindow | src/RuleEngine.cpp:138-141 | a parsed window is true iff start <= hour <= end |
| RuleEngine.TimeWindow | src/RuleEngine.cpp:130-144 | `between A:B and C:D` is true iff A <= hour <= C, so the minutes play no part and A > C is never true |
| RuleEngine.Time | src/RuleEngine.cpp:130-145 | false without a `between` window; true only when the hour lies between the two parsed hours; the only exception is `stoi`'s out_of_range |
| RuleEngine.NoWindowFalse | src/RuleEngine.cpp:143 | a time text without `between` is false |
| PluginLoader.BaseName | src/PluginLoader.cpp:19 | the base is the suffix after the last `/` (so it holds no `/`), or all of the path |
| PluginLoader.BuildCandidates | src/PluginLoader.cpp:11-31 | the `push_back` sequence builds exactly the candidate list |
| PluginLoader.CandidateList | src/PluginLoader.cpp:11-31 | five fixed paths, then the three `lib` variants iff the base has no `lib` prefix, then the three `.dylib` variants iff it ends in `.so`; 5 to 11 entries |
| PluginLoader.Candidates | src/PluginLoader.cpp:11-31 | between 5 and 11 candidates, the first being the requested path itself |
| PluginLoader.PluginsPathRepeats | src/PluginLoader.cpp:13-16 | for `plugins/<b>` the fourth and fifth candidates repeat the second and third |
| PluginLoader.ErrorsStep | src/PluginLoader.cpp:39 | the message after one more candidate is the old message plus that candidate's error line |
| PluginLoader.ErrorsSilent | src/PluginLoader.cpp:38-48 | failures without a `dlerror` text add nothing to the message |
| PluginLoader.ErrorLineOf | src/PluginLoader.cpp:36-50 | a candidate that fails to open or lacks `create_action` adds `<path>: <dlerror text>` and a newline when `dlerror` gave a text, and nothing otherwise |
| PluginLoader.FirstLoaded | src/PluginLoader.cpp:34-53 | a found index is a candidate that loads, with none before it; none is found iff no candidate loads |
| PluginLoader.Attempts | src/PluginLoader.cpp:34-53 | the search hands `dlopen` the candidates up to and including the first that loads, and none after it |
| PluginLoader.Outcome | src/PluginLoader.cpp:33-55 | loading succeeds iff some candidate loads, yielding one that does; otherwise the error is the fixed prefix naming the path, then every reported failure in order |
| PluginLoader.FirstLoadedAt | src/PluginLoader.cpp:52 | loading stops at the first candidate that loads |
| PluginLoader.OutcomeLoadedAt | src/PluginLoader.cpp:34-52 | when candidate `i` is the first that loads, loading returns it after `i + 1` `dlopen` calls |
| PluginLoader.OutcomeNoneLoaded | src/PluginLoader.cpp:34-55 | when no candidate loads, every candidate is tried and the error is the prefix naming the path, then every reported failure |
| PluginLoader.Search | src/PluginLoader.cpp:33-55 | the candidate loop computes the outcome and the number of `dlopen` calls |
| PluginLoader.Load | src/PluginLoader.cpp:8-56 | `load(p)` searches the candidate list of `p` |
| Workflows.Workflow.Execute | src/Workflow.cpp:8-26 | `execute` announces, evaluates the rule, then runs every action with its declared params and announces completion |
| Workflows.Workflow.RunWith | src/Workflow.cpp:8-26 | every run starts with its `Starting` line (in the run's mode); a rule exception escapes iff the rule check raised, and then nothing follows that line |
| Workflows.Workflow.ExecuteWithOverrides | src/Workflow.cpp:28-48 | `executeWithOverrides` does the same with the effective params |
| Workflows.ExecuteSteps | src/Workflow.cpp:15-24 | the action loop emits each step's events in declared order |
| Workflows.ExecuteStepsWithOverrides | src/Workflow.cpp:35-46 | the override loop emits each step's events with its effective params |
| Workflows.RunAction | src/Workflow.cpp:17-23 | one step: announce, load, call when loaded, report |
| Workflows.StepsEventsSnoc | src/Workflow.cpp:15-24 | the trace of one more step is the old trace plus that step's events |
| Workflows.LoadsAppend | src/Workflow.cpp:15-24 | load requests of a concatenated trace are concatenated |
| Workflows.CallsAppend | src/Workflow.cpp:15-24 | plugin calls of a concatenated trace are concatenated |
| Workflows.ReportsAppend | src/Workflow.cpp:15-24 | reports of a concatenated trace are concatenated |
| Workflows.StepReport | src/Workflow.cpp:19-22 | a step reports "completed" iff its plugin loaded and `execute` returned; otherwise it reports "failed" |
| Workflows.StepParts | src/Workflow.cpp:16-22 | a step's events are announce, load, call (only when loaded), report |
| Workflows.StepEvents | src/Workflow.cpp:16-23 | a step is four events when the plugin loads and three otherwise: announce, load, the call when loaded, and one report, which is completion exactly when the plugin loaded and did not throw |
| Workflows.StepLoads | src/Workflow.cpp:18 | a step makes exactly one load request, for `plugins/<type>.so` |
| Workflows.StepCalls | src/Workflow.cpp:19 | a step calls the plugin once, with its params, iff the plugin loaded |
| Workflows.StepReports | src/Workflow.cpp:20-22 | a step gives exactly one report |
| Workflows.PluginPaths | src/Workflow.cpp:18 | entry `i` is the plugin path of action `i` |
| Workflows.OwnReports | src/Workflow.cpp:19-22 | entry `i` is the report step `i` gives on its own (plugin outcomes not depending on earlier steps) |
| Workflows.LoadsInOrder | src/Workflow.cpp:15-24 | every step is attempted, in order: one load request per action, for its plugin path |
| Workflows.ReportsInOrder | src/Workflow.cpp:17-23 | one report per action, in order, each the one its step gives on its own (plugin outcomes not depending on earlier steps), so failures stay with their step |
| Workflows.CallsAtMostOne | src/Workflow.cpp:19 | at most one plugin call per step |
| Workflows.CallsInOrder | src/Workflow.cpp:19-41 | when every plugin loads, the calls pass exactly the chosen params, in order |
| Workflows.RuleFalseRunsNothing | src/Workflow.cpp:10-33 | a false rule ends the run before any load or call, in both modes |
| Workflows.RuleTrueCompletes | src/Workflow.cpp:25-47 | a true rule ends the run with "Workflow completed" and nothing escapes |
| Workflows.RuleTrueEvents | src/Workflow.cpp:9-47 | a true rule gives the "Starting" line, every step's events in order, then "Workflow completed" |
| Workflows.RuleTrueLoadsAll | src/Workflow.cpp:15-46 | a true rule loads every action's plugin path, in order |
| Workflows.RuleTrueReportsAll | src/Workflow.cpp:17-45 | a true rule yields one report per action, each its step's own |
| Workflows.RuleErrorEscapes | src/Workflow.cpp:10-30 | a rule exception escapes right after the "Starting" line, before any step |
| Workflows.EffectiveParamsChoice | src/Workflow.cpp:37 | step `i` gets a present non-empty `overrides[i]`, else its declared params |
| Workflows.EffectiveParams | src/Workflow.cpp:37 | one params string per step, each the declared one or that step's override; an empty string is passed only where the declared params are empty |
| Workflows.ExtraOverridesIgnored | src/Workflow.cpp:37 | overrides past the last step change nothing |
| Workflows.BlankOverrides | src/Workflow.cpp:37 | no overrides, or only empty ones, give the declared params |
| Workflows.ModesDifferInFirstLine | src/Workflow.cpp:9-29 | for the same params, the two modes differ only in their first line, and escape alike |
| Workflows.NoOverridesIsExecute | src/Workflow.cpp:8-48 | with no or only empty overrides both modes give the same trace after the first line, and the same escape |
| WorkflowManager.ParamsString | src/WorkflowManager.cpp:54-67 | params are stored as the string itself, `""` when absent, else `dump()` of the value, and `""` when `dump` throws |
| WorkflowManager.ParseAction | src/WorkflowManager.cpp:39-69 | an action is kept iff it is an object with a string `type`, and then carries that type and its params string |
| WorkflowManager.ParseActions | src/WorkflowManager.cpp:39-70 | at most one action per element, and every kept action is what some element parses to |
| WorkflowManager.ParseWorkflow | src/WorkflowManager.cpp:20-73 | an entry is kept only when it is an object with `name` and `actions`, and then carries that name |
| WorkflowManager.FirstNamed | src/WorkflowManager.cpp:110-111 | a found index is a workflow with that name; none is found iff no workflow has it |
| WorkflowManager.Manager.constructor | src/WorkflowManager.h:16 | a new registry is empty |
| WorkflowManager.Manager.LoadWorkflows | src/WorkflowManager.cpp:9-75 | loading appends the document's valid workflows after those already registered |
| WorkflowManager.Manager.StartWorkflow | src/WorkflowManager.cpp:109-117 | runs the first workflow with exactly that name, once; an unknown name runs nothing |
| WorkflowManager.Manager.StartWorkflowWithOverrides | src/WorkflowManager.cpp:119-127 | the same with overrides |
| WorkflowManager.Manager.ListWorkflowNames | src/WorkflowManager.cpp:129-136 | gives one name per registered workflow, in registry order |
| WorkflowManager.Manager.GetActionSummaries | src/WorkflowManager.cpp:138-150 | gives `type: params` per action of the first match, or nothing for an unknown name |
| WorkflowManager.LoadActions | src/WorkflowManager.cpp:39-70 | the action loop keeps the valid actions, in order |
| WorkflowManager.EntriesAppend | src/WorkflowManager.cpp:18-74 | entries are kept in document order |
| WorkflowManager.ActionsAppend | src/WorkflowManager.cpp:39-70 | actions are kept in document order |
| WorkflowManager.EntrySkipped | src/WorkflowManager.cpp:20-37 | a malformed entry is skipped on its own; its neighbours are kept as if it were absent |
| WorkflowManager.ActionDropped | src/WorkflowManager.cpp:40-51 | a malformed action is dropped on its own; the others are kept in order |
| WorkflowManager.EntriesAtMost | src/WorkflowManager.cpp:18-74 | never more workflows than entries |
| WorkflowManager.EntriesAllKept | src/WorkflowManager.cpp:18-74 | when every entry is valid, every entry is registered |
| WorkflowManager.EntriesOrigin | src/WorkflowManager.cpp:73 | every registered workflow comes from some valid entry |
| WorkflowManager.DuplicatesKept | src/WorkflowManager.cpp:73 | a repeated name is registered again |
| WorkflowManager.MissingRuleSatisfied | src/WorkflowManager.cpp:72 | a workflow without a rule gets the null rule, which always holds |
| WorkflowManager.NoWorkflowsArray | src/WorkflowManager.cpp:13-16 | a document without a `workflows` array (such as the empty object) registers nothing |
| WorkflowManager.ParseWorkflows | src/WorkflowManager.cpp:9-75 | nothing without a `workflows` array, and never more workflows than entries |
| WorkflowManager.EarlierShadowsLater | src/WorkflowManager.cpp:110-114 | loading more workflows never changes which workflow a name starts |
| CrcBits.RoundIsConditional | plugins/CompressAction.cpp:290-323 | the bit step is `(c & 1) ? 0xEDB88320 ^ (c >> 1) : c >> 1` |
| CrcTable.TableAt | plugins/CompressAction.cpp:290-323 | each of the 256 table entries is eight bit steps from its index |
| CrcTable.Entry128 | plugins/CompressAction.cpp:307 | entry 128 is the polynomial 0xEDB88320 |
| CrcTable.Lookup | plugins/CompressAction.cpp:122 | a table lookup gives the defined entry |
| Crc32.RegisterStep | plugins/CompressAction.cpp:121-123 | one more byte is one more table-driven step |
| Crc32.Fold | plugins/CompressAction.cpp:120-123 | the loop folds every byte into the register, from the left |
| Crc32.CalculateCrc32 | plugins/CompressAction.cpp:119-125 | preset to 0xFFFFFFFF, fold, final XOR with 0xFFFFFFFF |
| Crc32.Crc | plugins/CompressAction.cpp:119-125 | the CRC of no bytes is 0 |
| Crc32.CrcEmpty | plugins/CompressAction.cpp:119-125 | the empty input has CRC 0 |
| Crc32.RegisterAppend | plugins/CompressAction.cpp:121-123 | the register after `a ++ b` is the register after `b`, started from the register after `a` |
| Crc32.CheckValue | plugins/CompressAction.cpp:119-125 | the CRC of ASCII `123456789` is the standard check value 0xCBF43926 |
| Zip.Low16 | plugins/CompressAction.cpp:71 | conversion to `uint16_t` stays below 2^16 and keeps values already in range |
| Zip.Low32 | plugins/CompressAction.cpp:183 | conversion to `uint32_t` stays below 2^32 and keeps values already in range |
| Zip.Low32Add | plugins/CompressAction.cpp:183 | adding to a `uint32_t` offset wraps as adding first and converting last |
| Zip.BitOrDisjoint | plugins/CompressAction.cpp:71-76 | OR-ing a value below 2^k into a multiple of 2^k is addition |
| Zip.DosTimeFields | plugins/CompressAction.cpp:69-72 | for a time of day, `dos_time` is the sum of its fields, and hour, minute and seconds / 2 come back by shifting and masking |
| Zip.DosTime | plugins/CompressAction.cpp:69-72 | `dos_time` fits its `uint16_t` for any time |
| Zip.DosDate | plugins/CompressAction.cpp:74-77 | `dos_date` fits its `uint16_t` for any date |
| Zip.DosDateFields | plugins/CompressAction.cpp:74-77 | for the years 1980 to 2107, `dos_date` is the sum of its fields and year, month and day round-trip |
| Zip.StreamSizeAppend | plugins/CompressAction.cpp:163-167 | the size of concatenated records is the sum of their sizes |
| Zip.LocalChunks | plugins/CompressAction.cpp:154-167 | one local record per item, and nothing else |
| Zip.LocalChunksNames | plugins/CompressAction.cpp:160-164 | each local record carries its item's name |
| Zip.CentralChunks | plugins/CompressAction.cpp:220-227 | one central record per local record |
| Zip.ConsistentAppend | plugins/CompressAction.cpp:169-183 | an added entry's central header copies its local header's fields and records the pre-entry offset; the offset grows by 30 + name + data |
| Zip.CentralStep | plugins/CompressAction.cpp:220-227 | the central-directory loop writes header `k` and name `k` at step `k` |
| Zip.ZipWriter.constructor | plugins/CompressAction.cpp:194-196 | the writer starts with no headers, no names and an empty stream |
| Zip.ZipWriter.AddFileToZip | plugins/CompressAction.cpp:131-184 | a failing file changes nothing; otherwise the stream gains the entry's local record, its central header (copying the local fields and holding the pre-entry offset) and its name are appended, and the offset grows by 30 + name + compressed size, as a `uint32_t` |
| Zip.ZipWriter.WriteCentralDirectory | plugins/CompressAction.cpp:218-227 | appends the central directory of the records written, leaving headers, names and offset as they were |
| Zip.AddDirectoryFiles | plugins/CompressAction.cpp:199-208 | the directory loop adds every regular file in order, or stops with the first failure |
| Zip.DirectoryStep | plugins/CompressAction.cpp:201-207 | one turn of the directory loop keeps its invariant, or ends with the first failure |
| Zip.FailureIsFirst | plugins/CompressAction.cpp:199-208 | a regular file that fails after entries that all succeeded is the directory's first failure |
| Zip.AddEntry | plugins/CompressAction.cpp:202-206 | a regular file is added under its entry name; anything else is skipped |
| Zip.Finish | plugins/CompressAction.cpp:217-236 | writes the central directory and the end record after the local records |
| Zip.CreateZipFile | plugins/CompressAction.cpp:187-246 | `createZipFile` produces exactly the archive of the source's files, or the first failure, or no archive |
| Zip.ZipFileOutcome | plugins/CompressAction.cpp:187-246 | no archive iff the file cannot be created; an archive iff the source is a file or directory and no file fails, holding two records per item and the end record; otherwise the failure of a file or directory source is its first file failure |
| Zip.DirectoryItemsStep | plugins/CompressAction.cpp:201-207 | one more directory entry adds one item iff it is a regular file |
| Zip.LocalChunksStep | plugins/CompressAction.cpp:154-167 | one more item adds its local record |
| Zip.FirstErrorSticks | plugins/CompressAction.cpp:241-244 | once an item fails, later items do not change the failure |
| Zip.DirectoryItemsAppend | plugins/CompressAction.cpp:201-207 | the items of concatenated entries are concatenated |
| Zip.NamesLengthZero | plugins/CompressAction.cpp:224 | the names add no bytes iff every name is empty |
| Zip.CentralSize | plugins/CompressAction.cpp:220-227 | the central directory takes 46 bytes per entry plus the names |
| Zip.ArchiveLayout | plugins/CompressAction.cpp:154-236 | local records, then their central headers in the same order (each carrying its record's fields and stream position), then the end record |
| Zip.Archive | plugins/CompressAction.cpp:154-236 | the local records unchanged, then as many central records, then the end record |
| Zip.ArchiveEnd | plugins/CompressAction.cpp:230-234 | both end-record entry counts are the number of entries as a `uint16_t`, and the directory offset is the size of the local records as a `uint32_t` |
| Zip.CentralDirSizeOmitsNames | plugins/CompressAction.cpp:233 | the recorded directory size is 46 per entry, so it equals the real size exactly when every name is empty |
| Zip.DirectoryEntryNames | plugins/CompressAction.cpp:201-207 | a directory source's entries are its regular files, each under its relative path with `\` replaced by `/` |
| Zip.SingleFileEntry | plugins/CompressAction.cpp:209-212 | a single-file source is the only entry, under its file name, at offset 0 |
| Zip.SingleFileItems | plugins/CompressAction.cpp:211-212 | a single-file source adds one item, which fails iff the file does |
| Zip.Pad2 | plugins/CompressAction.cpp:270 | a two-digit field is two digits denoting its value |
| Zip.DecimalLength | plugins/CompressAction.cpp:270 | a number between 10^(k-1) and 10^k has k digits |
| Zip.TimestampFields | plugins/CompressAction.cpp:266-274 | the timestamp is 14 digits from which year, month, day, hour, minute and second read back; the archive name is base, `_`, timestamp, `.zip` |
| Zip.Timestamp | plugins/CompressAction.cpp:266-270 | the timestamp is the decimal year followed by ten more characters |
| Zip.ArchiveName | plugins/CompressAction.cpp:266-274 | the archive name is the base name, `_`, the timestamp and `.zip`, in that order |
| Zip.Execute | plugins/CompressAction.cpp:249-286 | the expanded and normalised path is checked; an exception while preparing the backups directory is reported; a missing source is reported; otherwise the archive is named from the base name and time, and the zip outcome is reported |
| EmailPlugin.EmailPayload.constructor | plugins/EmailPlugin.cpp:35 | a new payload holds the message with its cursor at 0 |
| EmailPlugin.Requested | plugins/EmailPlugin.cpp:46 | `size * nitems` as a `size_t`: the product when it fits |
| EmailPlugin.Chunk | plugins/EmailPlugin.cpp:45-47 | the chunk is as many bytes as requested, or all that is left, and continues the message from the cursor |
| EmailPlugin.EmailReadCallback | plugins/EmailPlugin.cpp:39-55 | null userdata gives 0 and touches nothing; otherwise the next chunk lands in the buffer, the cursor advances by its length (staying within the message), and the rest of the buffer is unchanged |
| EmailPlugin.Uploaded | plugins/EmailPlugin.cpp:51-52 | what successive callbacks have handed over is a prefix of the message |
| EmailPlugin.UploadedLength | plugins/EmailPlugin.cpp:45-54 | the callbacks hand over min(message length, total requested) bytes |
| EmailPlugin.Drained | plugins/EmailPlugin.cpp:49 | when a positive request returns 0, the chunks joined are exactly the message |
| EmailPlugin.DeliversAll | plugins/EmailPlugin.cpp:45-54 | enough requested bytes deliver the whole message |
| EmailPlugin.AtEndNothing | plugins/EmailPlugin.cpp:45-49 | at the end of the message a call returns nothing |
| EmailPlugin.Envelope | plugins/EmailPlugin.cpp:101-102 | the envelope address is the raw address in `<`...`>` |
| EmailPlugin.FindBlankLine | plugins/EmailPlugin.cpp:90-95 | finds a CRLF CRLF at or after the start, or reports that there is none |
| EmailPlugin.FindBlankLineAt | plugins/EmailPlugin.cpp:90-95 | the first CRLF CRLF is the one found |
| EmailPlugin.LineBefore | plugins/EmailPlugin.cpp:91-93 | a single header line in front of the rest moves the first empty line along |
| EmailPlugin.LastLine | plugins/EmailPlugin.cpp:93-94 | the last header line is followed by the first empty line |
| EmailPlugin.FieldOneLine | plugins/EmailPlugin.cpp:91-93 | a field name with a single-line value is one line |
| EmailPlugin.PayloadNesting | plugins/EmailPlugin.cpp:90-95 | the message is the three header lines, each ended by CRLF, then the empty line and the body |
| EmailPlugin.Payload | plugins/EmailPlugin.cpp:90-95 | the message starts with the header block, ends with CRLF, and is four characters longer than header block and body |
| EmailPlugin.PayloadSections | plugins/EmailPlugin.cpp:90-95 | with single-line fields, the first empty line of the message ends the `To`, `From`, `Subject` header block, and the body plus CRLF follows it |
| EmailPlugin.SendEmail | plugins/EmailPlugin.cpp:59-150 | a transfer happens iff there is a handle, both credentials are non-empty and the recipient list exists; it carries the message, the envelope, the credentials, the Gmail URL and a 30 s timeout |
| EmailPlugin.CredentialsRequired | plugins/EmailPlugin.cpp:82-87 | an empty `SMTP_USER` or `SMTP_PASS` fails before anything is sent |
| EmailPlugin.AsInt | plugins/EmailPlugin.cpp:159 | `get<int>()` succeeds exactly on numbers and booleans |
| EmailPlugin.Required | plugins/EmailPlugin.cpp:156-158 | a required string field succeeds iff present and a string |
| EmailPlugin.StringOr | plugins/EmailPlugin.cpp:157 | a missing key gives the default; a present one must be a string |
| EmailPlugin.IntOr | plugins/EmailPlugin.cpp:159 | a missing key gives the default; a present one must convert to `int` |
| EmailPlugin.Execute | plugins/EmailPlugin.cpp:153-178 | an attempt needs an object configuration, and waits exactly the delay when it is positive and not at all otherwise |
| EmailPlugin.ExecuteSends | plugins/EmailPlugin.cpp:155-167 | a well-formed configuration is sent to its recipient with its own subject and delay |
| EmailPlugin.ExecuteDefaults | plugins/EmailPlugin.cpp:157-165 | without `subject` and `delay`, the subject is "Message from FlowForge" and there is no wait |
| EmailPlugin.ExecuteRejects | plugins/EmailPlugin.cpp:174-177 | a parse error or a non-object configuration ends in the error report |
| Cli.ItemEnd | src/main.cpp:35 | the first item ends at the first comma, or at the end |
| Cli.NextItem | src/main.cpp:35 | one `getline` step splits off a comma-free item and the rest after its comma |
| Cli.PickStep | src/main.cpp:35-42 | one turn of the selection loop appends the first item's pick |
| Cli.ParseSelectionList | src/main.cpp:31-44 | the loop computes the selection of the items with limit `static_cast<int>(max)` |
| Cli.Fields | src/main.cpp:33-35 | the `getline` loop reads no item iff the text is empty, at most one item per character, and no item holds a comma |
| Cli.Pick | src/main.cpp:36-41 | an item contributes one index iff it reads as a number in `1..limit`, and then the index is that number minus one |
| Cli.Picks | src/main.cpp:35-42 | at most one index per item |
| Cli.Selection | src/main.cpp:31-44 | at most one index per character of the text |
| Cli.PicksBounds | src/main.cpp:37-39 | each picked index is in `0..limit` and is one less than some item's number |
| Cli.SelectionBounds | src/main.cpp:38-39 | each returned index is a valid position among `max` names |
| Cli.NothingToSelect | src/main.cpp:38 | with limit <= 0 nothing is selected |
| Cli.SelectionFromNone | src/main.cpp:38 | with `max = 0` the result is empty |
| Cli.PicksAppend | src/main.cpp:35-40 | kept items appear in input order |
| Cli.PicksAll | src/main.cpp:35-40 | items that all read in range are each kept, in order, duplicates included |
| Cli.Dropped | src/main.cpp:36-41 | items that fail `stoi` or fall outside `1..max` are dropped silently |
| Cli.FieldsOfJoin | src/main.cpp:35 | the `getline` loop reads back the comma-free items a list was typed from |
| Cli.FirstExisting | src/main.cpp:78-80 | the chosen file is an existing candidate; nothing is chosen iff none exists |
| Cli.FindConfig | src/main.cpp:71-80 | the candidate loop picks the first existing of the four configuration paths |
| Cli.NamedRun | src/main.cpp:90-98 | no run iff no loaded workflow has the name; otherwise the run is that of the first workflow with the name, its rule evaluated and its declared params used, carrying any escaped rule error |
| Cli.RunLoaded | src/main.cpp:90-98 | the name check and start over the loaded registry |
| Cli.RunDirect | src/main.cpp:66-102 | the direct mode: find, load, check the name, run; exit 1 without a configuration or with an unknown name, `Terminated` when the rule exception escapes, else exit 0 |
| Cli.DirectRun | src/main.cpp:66-102 | the direct mode never reaches the menu, exits only with 0 or 1, and terminates only with a run whose rule exception escaped |
| Cli.Launch | src/main.cpp:58-126 | `main` up to the menu: direct mode on `run`/`r` with a name (which may end in `Terminated`), else the interactive configuration choice |
| Cli.LaunchOutcome | src/main.cpp:58-126 | only the direct mode can terminate; the menu is reached iff the mode is interactive and a configuration exists; an interactive start without one exits 0 |
| Cli.DirectRunExitCode | src/main.cpp:71-101 | the direct mode exits 1 without a configuration or with an unknown name; it exits 0 iff the first workflow with that name from the first existing configuration ran without an escaping rule error, and ends in `Terminated` with that run iff the error escaped |
| Cli.RuleErrorTerminates | src/main.cpp:97-101 | a rule that throws in the named workflow terminates the program after only the `Starting` event |
| Cli.NoConfig | src/main.cpp:81-124 | without a configuration the direct mode exits 1 and the interactive mode exits 0 |
| Cli.RootConfigFirst | src/main.cpp:72-110 | `config/workflows.json` wins whenever it exists |
| Cli.CollectOverrides | src/main.cpp:206-212 | one override per action, a missing line reading as blank |
| Cli.CollectedOverridesApply | src/main.cpp:206-215 | a typed line replaces that action's params, and a blank one keeps them |
| PathUtils.HomeDir | src/PathUtils.h:14-18 | `HOME` when set, else the password database entry |
| PathUtils.ExpandTilde | src/PathUtils.h:13-22 | a path not starting with `~`, or with no home directory, is unchanged; `~x…` with `x` not `/` is unchanged; `~` and `~/…` become the home directory followed by the rest |
| PathUtils.ExpandAndNormalizePath | src/PathUtils.h:10-31 | the empty path is returned as it is; otherwise a leading `~` alone or before `/` becomes the home directory when one is known, and the result is the normalisation of that path, or the path itself when normalisation throws |
| PathUtils.EmptyUnchanged | src/PathUtils.h:11 | the empty path is returned unchanged |
| PathUtils.TildeExpands | src/PathUtils.h:20-21 | `~` becomes home, and `~/rest` becomes home + `/rest` |
| PathUtils.OtherUserKept | src/PathUtils.h:19-22 | `~name` is not expanded |
| PathUtils.NoHomeKept | src/PathUtils.h:14-19 | without a home directory the tilde stays |
| PathUtils.NoTildeOnlyNormalised | src/PathUtils.h:13-28 | input without a leading `~` only goes through normalisation |
| PathUtils.NormaliseFailureKeepsExpansion | src/PathUtils.h:29-30 | when normalisation throws, the tilde-expanded path is returned |
| PathUtils.ExpansionShape | src/PathUtils.h:13-22 | the expansion is the input, or home followed by the input minus its leading `~` |
| PathUtils.ExpandIdempotent | src/PathUtils.h:13-22 | expanding twice is expanding once, when the home directory does not start with `~` |

Notes on the form the model takes:

- `Workflow` is an immutable datatype. Its constructor and `getName`
  (src/Workflow.cpp:6-7, 49) are the datatype's constructor and its `name`
  field, so running a workflow cannot change its name, actions or rule.
- The `PluginLoader` is re-created for each run in the source. It holds no
  state, so it is modelled as functions of the probe.
- A plugin is identified by the path it was loaded from.

## Left out

- `WorkflowManager::startAll` and its thread pool: concurrency, which is not part of this model. `ThreadPool.h` is not part of this model.
- `Logger` (mutex and file I/O) and `Storage`: side effects only. Log lines that the runner prints appear as trace events. The logging in the e-mail plugin is not modelled.
- `JSONParser::parseFile` and file reading: the parsed document is an input, and a file that cannot be opened or parsed arrives as the empty object.
- `plugins/MessagePlugin.cpp`: string glue around a foreign URL-escaping call and a network client.
- zlib deflate (`compressData`), the raw struct writes, `recursive_directory_iterator`, `fs::relative`, `fs::last_write_time`, `localtime` and `fs::create_directories`: they are inputs (compressed bytes, entry lists, relative paths, local times, and the exception that preparing the backups directory may throw).
- Byte strings: every `string` in `Zip` and `EmailPlugin` stands for the bytes of the C++ `std::string`, one `char` per byte of the encoded text. So `|name|` is the byte count behind `filename_length` and the stream offsets (plugins/CompressAction.cpp:160, 183), and the payload length is the byte count behind the upload callback's `available` (plugins/EmailPlugin.cpp:45). Decoding multi-byte characters is not modelled.
- The on-disk byte encoding of the three records: the stream is a sequence of records with their struct sizes (30, 46 and 22 bytes), not bytes.
- `dlopen`/`dlsym`/`create_action`: an oracle from a path to its probe outcome.
- `statvfs`, mach `host_statistics` and `access`: environment inputs. The floating-point usage ratios are an input percentage (a `real`), not computed.
- nlohmann `dump()`: an uninterpreted function that may throw.
- `std::filesystem::absolute` and `lexically_normal`: an oracle `normalize` in `PathUtils`.
- JSON numbers are unbounded integers, and floating-point JSON numbers are not modelled. `EmailPlugin.AsInt` wraps them to `int`.
- The curl transfer and its TLS options: the transfer is an oracle from the request to success. `curl_global_init` and cleanup in `main` are not modelled.
- The `sleep_for` of the e-mail plugin is recorded as the minutes waited (`waitedMinutes`).
- The interactive menu loop of `main` (printing, stdin dispatch, the `running` flag) is not modelled beyond the configuration choice, `parseSelectionList` and the override prompt. In particular, the menu's own `stoi(input) - 1` index checks are not modelled.
- Exceptions not derived from `std::exception`, thrown by a plugin, are not modelled (the runner only catches `std::exception`).
- Plugin outcomes are modelled as independent of earlier steps: the host oracles `run` and `probe` are functions of the plugin and its params (or the path) alone, so the file-system and network effects of earlier actions are not seen by later ones. `Workflows.OwnReports` and `Workflows.ReportsInOrder` give each step the report it would give on its own under that assumption.
- The `filesystem_error` that `fs::exists` (plugins/CompressAction.cpp:260) or `fs::is_directory` (plugins/CompressAction.cpp:199) can throw, for instance on a permission error: the source's existence and kind are inputs that cannot fail.
- JSON objects are member sequences taken in nlohmann's iteration order, that is with keys sorted and unique; a sequence with unsorted or repeated keys is not normalised (nlohmann would sort them and keep the last duplicate).
- Crc32.Crc: its own contract states only the empty case; the CRC's relation to the table-driven register is stated by `Crc32.CalculateCrc32` and `Crc32.CheckValue`.
- Cli.SelectionBounds: states only the range `0..max`; that each index is one less than some item's number is stated in `Cli.PicksBounds` for the generic limit.
- Zip.Timestamp, Zip.ArchiveName, Zip.Execute: require a `localtime`-shaped time (`ValidTime`), which is what the C library returns.
- Cli.ParseSelectionList: requires `max` to be a 64-bit `size_t`, as its C++ type is.
- RuleEngine.Evaluate: its own contract covers only the rule without `"if"`; the meaning of conditions is stated by the lemmas after it.
