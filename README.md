# A verified model of the localLLM tool relay

localLLM's `chatcall.py` drives small local language models through the
`llama-completion` binary. `PiAiRelaySystem` asks an "architect" model for a
JSON plan: a theme, a list of tool calls (`tasks`) and an optional
`remaining_plan`. It then runs each task through the tool registry of
`llm_call_tools/common.py` and does one of three things:

- records the exchange in a history of the last 15 entries on disk;
- relays, calling itself again with the remaining plan;
- treats the reply as chat when it holds no plan.

The tools come from two packages:

- `fileio`: text_reader, code_analyzer, write_code, chatter, and the helpers `get_possible_request` and `repair_and_parse_json`.
- `projectio`: project_reader, code_searcher, code_modifier.

A tool handler receives the task's parameters and the relay object. It may
read and replace `context`, the text shared between tools, and it may read
and write files.

## Modules

| file | module | what it holds |
|---|---|---|
| pystr.dfy | `PyStr` | Python `str` semantics the core relies on: `strip`, `find`/`rfind`, `replace(t, "")`, `splitlines`, `readlines`, `join`, slicing, `int()` and `str()` of integers |
| json.dfy | `Json` | JSON values (a dict is a list of pairs in insertion order), truthiness, `dict.get`, `str()`/`repr()` |
| world.dfy | `World` | the file system (file texts and `os.walk` listings), and a `Host` record standing for the services the core calls without implementing them |
| gateway.dfy | `Gateway` | `strip_noise` and `call_llm` |
| registry.dfy | `Registry` | the registry: a class with the handler table, the prompt table and the key order of the handler table; `execute_tool` |
| fileio.dfy | `FileIO` | the `fileio` package |
| projectio.dfy | `ProjectIO` | the `projectio` package |
| builtins.dfy | `Builtins` | what importing `llm_call_tools` registers |
| relay.dfy | `Relay` | `PiAiRelaySystem`: history, schema, plan classification, the task loop, a round, and the relay |

## How state is modelled

The relay object is the class `Relay.RelaySystem`. Its fields are those of
`PiAiRelaySystem`, plus the file system the relay sees. Each method is
proved to perform a pure function of a snapshot of those fields:

| method | pure function |
|---|---|
| `Round` | `RoundSpec` |
| `RunPlan` | `ToolRound` |
| `Finish` | `Conclude` |
| `RecordExchange` | `Record` |
| `RunPlanTasks` | `RunTasks` |
| `RunRelay` | `RelaySpec` |

The lemmas about the relay are stated on those functions.

A tool handler is a function value `(params, Env, Host) -> Reply`.
- `Env` holds the two parts of the relay it may change: `context` and the file system.
- A `Reply` either returns the result text with the new `Env`, or raises. A Python exception that nothing catches becomes `Raised` or `Crashed`, with the state as it stood at the raise.

The relay writes each handler's `Env` back into its own fields before the next task runs.

Loops in the source are methods with loops, each proved equal to a specification function:
- `GetPossibleRequest` equals `PossibleRequest`.
- `BuildTree` equals `TreeLines`.
- `CallModel` and its `RemoveEach` loop equal `CallLlm` and `RemoveTags`.
- `RegisterAll` equals `OrderAfter`.

Where the repository's description and its code differ, the model follows the code:
- The relay may call itself any number of times; nothing caps the number of continuations.
- A task naming an unregistered tool is not filtered out. It yields the error text of `execute_tool`, and the later tasks still run.
- text_reader replaces `context` with the file's text rather than appending to it.
- The registry stores no tags. The decorators pass tags, but `register_ai_tool` has no parameter for them (see Findings).
- A state file that parses to any JSON value becomes the history. A later append to a history that is not a list raises, which the model records as `Crashed("AttributeError")`.

## Model

| member | source | states |
|---|---|---|
| `PyStr.Strip` | bin/chatcall.py:75 | `str.strip()`: the result is no longer than the input and neither starts nor ends with whitespace |
| `PyStr.StripSpec` | bin/chatcall.py:75 | the stripped text is a contiguous piece of the input, and everything cut off on either side is whitespace |
| `PyStr.SplitLines` | bin/chatcall.py:73 | `str.splitlines()`: no line holds a line break, and only the empty text has no lines |
| `PyStr.SplitLinesRebuild` | bin/chatcall.py:73 | on text whose only line boundaries are `\n`, the lines joined by `\n`, with a final `\n` put back when the text ends with one, are the text again |
| `PyStr.ReadLines` | bin/llm_call_tools/projectio/__init__.py:25 | `readlines()`: the lines concatenate back to the text, none is empty, every line but the last ends with `\n`, and no line holds a `\n` before its last character |
| `PyStr.IntRoundTrip` | bin/llm_call_tools/projectio/__init__.py:12 | `int()` reads back every integer from the text `str()` gives for it, negative ones included |
| `PyStr.ParseInt` | bin/llm_call_tools/projectio/__init__.py:12 | `int(text)` succeeds only when the stripped text holds a digit |
| `PyStr.BraceSpan` | bin/chatcall.py:146 | the span that the dot-all pattern `\{.*\}` matches: from the first `{` to the last `}` when that `}` comes later, and no span otherwise |
| `PyStr.RemoveAll` | bin/chatcall.py:100-101 | `replace(t, "")` never lengthens the text and leaves it unchanged when `t` does not occur |
| `PyStr.RemoveAllKeepsCount` | bin/llm_call_tools/projectio/__init__.py:16 | removing a text that holds no separator keeps the number of separators |
| `PyStr.Take` | bin/llm_call_tools/projectio/__init__.py:26 | `s[:n]` is a prefix of length `min(n, len)`, and for negative `n` it drops `-n` elements from the end |
| `PyStr.LastN` | bin/chatcall.py:69 | `s[-15:]` is the suffix of length `min(15, len)` |
| `Json.Get` | bin/llm_call_tools/fileio/__init__.py:14 | `dict.get` finds a value exactly when the key is present, and the value is one stored under that key |
| `Json.GetDistinct` | bin/llm_call_tools/fileio/__init__.py:12-14 | with distinct keys, looking up the key at position i gives the value at position i |
| `Json.GetOr` | bin/llm_call_tools/projectio/__init__.py:11 | `dict.get(k, default)` gives the default exactly for a missing key, and the stored value otherwise |
| `World.Write` | bin/llm_call_tools/fileio/__init__.py:120-121 | a write puts the text at the path and leaves every other file alone; the model keeps its `os.walk` listings as they were (see `World.Write` under Left out) |
| `World.WriteText` | bin/llm_call_tools/fileio/__init__.py:129-130 | opening a directory for writing fails, and any other path afterwards is a regular file holding the text |
| `Gateway.CleanLines` | bin/chatcall.py:74 | keeps exactly the lines carrying no noise marker |
| `Gateway.CleanLinesAppend` | bin/chatcall.py:74 | filtering works line by line, so the order of the kept lines is the original order |
| `Gateway.StripNoise` | bin/chatcall.py:71-75 | the result is the kept lines joined by `\n` and stripped of surrounding whitespace |
| `Gateway.SplitJoinBound` | bin/chatcall.py:71-75 | removing noise never lengthens the output |
| `Gateway.RemoveTags` | bin/chatcall.py:100-101 | removing the tags never lengthens the text and leaves it unchanged when no tag occurs in it |
| `Gateway.MissingModelMessage` | bin/chatcall.py:80 | the missing-model reply starts with `Error:` |
| `Gateway.Command` | bin/chatcall.py:84-95 | the argument vector: binary, model path and prompt in their places; `-sys` and the system prompt follow the prompt when the system prompt is non-empty, and otherwise nothing or `-j` does |
| `Gateway.CallLlm` | bin/chatcall.py:77-104 | with no model file, an `Error:` message and no process started; a failed run gives `Error: ` and the exception's message; a completed run gives cleaned output no longer than the raw output, with no whitespace at either end |
| `Gateway.CallModel` | bin/chatcall.py:77-104 | the method with the tag-removal loop computes `CallLlm` |
| `Gateway.RemoveEach` | bin/chatcall.py:100-101 | the loop over the sentinel tags computes `RemoveTags` |
| `Gateway.MissingModelRunsNothing` | bin/chatcall.py:78-80 | with no model file, the result does not depend on the inference process |
| `Registry.UnregisteredMessageNamesTool` | bin/llm_call_tools/common.py:37 | the unregistered-tool message names the tool that was asked for |
| `Registry.AppendNew` | bin/llm_call_tools/common.py:15 | a dict's key order: a new key goes at the end, and a re-registered key keeps its place |
| `Registry.OrderAfterSpec` | bin/llm_call_tools/common.py:15 | after any sequence of registrations, the key list has no duplicates, starts with the keys it had before, and holds exactly the old and the registered names |
| `Registry.FirstRegistrationOrder` | bin/llm_call_tools/common.py:24-26 | a name first registered after another is listed after it, however often either is registered again |
| `Registry.OrderSplit` | bin/llm_call_tools/common.py:15 | registering `a` and then `b` gives the same key list as registering `a + b` |
| `Registry.ExecuteTool` | bin/llm_call_tools/common.py:28-37 | a registered name runs its handler on the parameters and the relay; any other name gives the error text and leaves the state untouched |
| `Registry.ToolRegistry.constructor` | bin/llm_call_tools/common.py:6-7 | both tables start empty |
| `Registry.ToolRegistry.Register` | bin/llm_call_tools/common.py:9-19 | the decorator stores the handler under the name and the prompt when one is given, places the name by `AppendNew`, and hands the handler back unchanged; the registry invariant (no duplicate names, the handler keys are the names, and every prompt belongs to a handler) is kept |
| `Registry.ToolRegistry.GetToolNames` | bin/llm_call_tools/common.py:24-26 | the registered names, each exactly once, in the registry's key order, which `Register` keeps as first registration (`FirstRegistrationOrder`) |
| `Registry.ToolRegistry.GetToolPrompts` | bin/llm_call_tools/common.py:21-22 | the prompt table itself, every name in it a registered tool |
| `FileIO.FirstKeyIn` | bin/llm_call_tools/fileio/__init__.py:12-15 | the position of the first wanted key, with no wanted key before it; or none, when no key is wanted |
| `FileIO.PossibleRequest` | bin/llm_call_tools/fileio/__init__.py:6-20 | a non-empty context is always the answer; the call raises exactly when there is no context and the parameters are not a dict |
| `FileIO.GetPossibleRequest` | bin/llm_call_tools/fileio/__init__.py:6-20 | the method with the loop over `p.items()` computes `PossibleRequest` |
| `FileIO.RequestFromFirstKey` | bin/llm_call_tools/fileio/__init__.py:12-15 | without a context, the first wanted key with a truthy value supplies the request |
| `FileIO.RequestFallsBackToPreviousKey` | bin/llm_call_tools/fileio/__init__.py:16-19 | a first wanted key with a falsy value is passed over for the key just before it |
| `FileIO.RequestFallsBackToEmptyKey` | bin/llm_call_tools/fileio/__init__.py:10-19 | a falsy value under the dict's first key, a wanted one, is passed over for the key `""`, which gives `""` when the dict has no such key |
| `FileIO.RequestFromLastKey` | bin/llm_call_tools/fileio/__init__.py:16-19 | when no key is wanted, the last key's value is the request |
| `FileIO.RequestOfEmptyParams` | bin/llm_call_tools/fileio/__init__.py:11-19 | empty parameters with no context give the empty text, not an error |
| `FileIO.RepairAndParseJson` | bin/llm_call_tools/fileio/__init__.py:22-43 | text that parses once stripped is returned as parsed |
| `FileIO.ParseRepaired` | bin/llm_call_tools/fileio/__init__.py:27-43 | parseable text is returned as parsed; text with no `{` is never repaired |
| `FileIO.RepairUnwrapsObject` | bin/llm_call_tools/fileio/__init__.py:33-37 | an object wrapped in prose is recovered: what is parsed is exactly the text between the prose |
| `FileIO.RepairClosesTruncated` | bin/llm_call_tools/fileio/__init__.py:38-40 | a reply cut off before its closing brace is closed with `"}` and parsed |
| `FileIO.TextReader` | bin/llm_call_tools/fileio/__init__.py:52-68 | files are never changed; the context changes only on success, and then to the text of an existing file; a falsy path, a missing path and a directory are each reported in the returned text with nothing changed; the call raises exactly when there is no context and the parameters are not a dict, or the path is truthy but not a string |
| `FileIO.TextReaderLoadsFile` | bin/llm_call_tools/fileio/__init__.py:60-65 | reading an existing file loads exactly its text as the context, and the report starts with `【讀取成功】` |
| `FileIO.TextReaderIgnoresParamsOnceLoaded` | bin/llm_call_tools/fileio/__init__.py:8-9 | once a context is loaded, text_reader gives the same result whatever its parameters |
| `FileIO.CodeAnalyzer` | bin/llm_call_tools/fileio/__init__.py:75-86 | nothing changes; the call raises exactly when the parameter lookup does; a falsy request gives the no-code message; a truthy one (the context when there is one, otherwise the value found in the parameters) is analysed by the coder model under the analysis heading |
| `FileIO.ReaderFeedsAnalyzer` | bin/llm_call_tools/fileio/__init__.py:52-86 | the file text_reader loads is the code code_analyzer analyses next, whatever parameters the analyser is given |
| `FileIO.WriteCodePrompt` | bin/llm_call_tools/fileio/__init__.py:98-99 | without a context, the prompt is just the task description |
| `FileIO.LookupCode` | bin/llm_call_tools/fileio/__init__.py:117-118 | code is found exactly when the parsed reply is a dict with a `code` key |
| `FileIO.SaveGenerated` | bin/llm_call_tools/fileio/__init__.py:118-122 | saving parsed code leaves the context and the model's directory listings alone |
| `FileIO.WriteCode` | bin/llm_call_tools/fileio/__init__.py:94-133 | write_code never changes the context or the model's directory listings, and raises for parameters that are not a dict |
| `FileIO.SaveReply` | bin/llm_call_tools/fileio/__init__.py:115-133 | saving the model's reply never changes the context or the model's directory listings |
| `FileIO.SaveLookedUp` | bin/llm_call_tools/fileio/__init__.py:117-133 | each outcome of the code lookup leaves the context and the model's directory listings alone |
| `FileIO.SaveFallback` | bin/llm_call_tools/fileio/__init__.py:124-133 | the fallback leaves the context and the model's directory listings alone |
| `FileIO.SaveReplyWritesCode` | bin/llm_call_tools/fileio/__init__.py:117-122 | a reply with string `code` and `filename` writes exactly that code to that file and changes nothing else |
| `FileIO.SaveReplyDefaultFile` | bin/llm_call_tools/fileio/__init__.py:119 | without a file name, or with a falsy one, the code goes to `generated_code.txt` |
| `FileIO.SaveReplyEmptiesOnBadCode` | bin/llm_call_tools/fileio/__init__.py:120-121 | non-string code raises TypeError after the target file has been opened, and so emptied |
| `FileIO.SaveReplyParsed` | bin/llm_call_tools/fileio/__init__.py:115-122 | a parsed reply with code is handled by `SaveGenerated` |
| `FileIO.SaveReplyShortFails` | bin/llm_call_tools/fileio/__init__.py:124-133 | a reply of 30 characters or fewer with no code (not JSON, or JSON without a `code` key) is reported, and nothing is written |
| `FileIO.SaveReplyFallsBack` | bin/llm_call_tools/fileio/__init__.py:124-131 | a longer reply with no code (not JSON, or JSON without a `code` key) is cleaned up and saved to `fallback_code.txt` |
| `FileIO.Chatter` | bin/llm_call_tools/fileio/__init__.py:140-151 | nothing changes; the call raises exactly when the parameter lookup does; a falsy request gives the no-content message; a truthy one is answered by the chatter model, whose reply is returned as it is |
| `ProjectIO.Indent` | bin/llm_call_tools/projectio/__init__.py:17 | four spaces per level |
| `ProjectIO.Basename` | bin/llm_call_tools/projectio/__init__.py:18 | `os.path.basename`: the part after the last separator |
| `ProjectIO.FileLines` | bin/llm_call_tools/projectio/__init__.py:19-21 | one line per file, in order, indented one level below the directory |
| `ProjectIO.EntryLines` | bin/llm_call_tools/projectio/__init__.py:16-21 | a directory's heading line followed by its files |
| `ProjectIO.TreeLinesAppend` | bin/llm_call_tools/projectio/__init__.py:15-21 | the tree is built entry by entry: the tree of `a + b` is the tree of `a` followed by the tree of `b` |
| `ProjectIO.TreeShowsEveryFile` | bin/llm_call_tools/projectio/__init__.py:15-21 | every walked directory and every file in it appears in the tree, each file one level below its directory |
| `ProjectIO.LevelCountsSeparators` | bin/llm_call_tools/projectio/__init__.py:16 | when the requested path holds no separator, a directory's level is the number of separators in its path |
| `ProjectIO.BuildTree` | bin/llm_call_tools/projectio/__init__.py:14-21 | the loops over `os.walk` and its files compute `TreeLines` |
| `ProjectIO.AddFileLines` | bin/llm_call_tools/projectio/__init__.py:19-21 | the inner loop appends `FileLines` |
| `ProjectIO.IntOf` | bin/llm_call_tools/projectio/__init__.py:12 | `int()` of an integer is the integer, of a bool 0 or 1, of a string `ParseInt`; `None`, a list and a dict cannot be converted |
| `ProjectIO.PreviewIsPrefix` | bin/llm_call_tools/projectio/__init__.py:25-26 | the preview is the start of the file, at most `max_lines` lines of it, and the whole file when it has no more lines than that |
| `ProjectIO.ProjectReader` | bin/llm_call_tools/projectio/__init__.py:10-29 | nothing changes; parameters that are not a dict raise; for a string path and an integer `max_lines` (default 50): a directory is drawn as a tree, a file is previewed by `FilePreview`, and any other path gives the not-found message; it raises only when `max_lines` or the path is of the wrong kind |
| `ProjectIO.ReaderPreviewsFifty` | bin/llm_call_tools/projectio/__init__.py:11-27 | without `max_lines` a file is previewed by its first 50 lines, and a file of at most 50 lines is shown whole |
| `ProjectIO.KeywordLines` | bin/llm_call_tools/projectio/__init__.py:51 | keeps exactly the lines holding the keyword |
| `ProjectIO.KeywordLinesAppend` | bin/llm_call_tools/projectio/__init__.py:51 | the kept lines keep their order in the file |
| `ProjectIO.SearchReport` | bin/llm_call_tools/projectio/__init__.py:46-54 | when neither paragraphs nor lines match, the keyword is reported as not found |
| `ProjectIO.CodeSearcher` | bin/llm_call_tools/projectio/__init__.py:36-54 | nothing changes; a missing or falsy `file` or `keyword` gives the missing-parameters message; for string ones, a path that is not a file gives the not-found message, and a file gives `SearchReport` of its text; parameters that are not a dict raise AttributeError, and a truthy `file` that is not a string raises TypeError, as does a keyword that is not a string once the file exists |
| `ProjectIO.SearchFallsBackToLines` | bin/llm_call_tools/projectio/__init__.py:50-53 | when no paragraph matches, every line holding the keyword is reported, and the count is their number |
| `ProjectIO.WordRunEnd` | bin/llm_call_tools/projectio/__init__.py:75 | the longest run of `\w` characters from a position |
| `ProjectIO.FenceAt` | bin/llm_call_tools/projectio/__init__.py:75 | a fenced block can only be found where the text holds a fence |
| `ProjectIO.ExtractCode` | bin/llm_call_tools/projectio/__init__.py:73-77 | a reply without a fenced block is taken whole; otherwise the first block's body, stripped |
| `ProjectIO.FirstFence` | bin/llm_call_tools/projectio/__init__.py:75 | `None` only when the pattern matches at no position |
| `ProjectIO.FirstFenceAt` | bin/llm_call_tools/projectio/__init__.py:75 | `re.search` finds the match at the least position where there is one |
| `ProjectIO.FenceRoundTrip` | bin/llm_call_tools/projectio/__init__.py:75 | a body wrapped in a fence, an optional language word and a line break, after any prose without a backtick, is what the search gives back |
| `ProjectIO.CodeModifier` | bin/llm_call_tools/projectio/__init__.py:61-83 | the context and the model's directory listings never change; a missing or falsy `file` or `instruction` gives the missing-parameters message; for a string `file`, a path that is not a file gives the not-found message, and a file is rewritten by `ApplyRewrite` with the coder model's reply; parameters that are not a dict raise AttributeError, and a truthy `file` that is not a string raises TypeError |
| `ProjectIO.ApplyRewrite` | bin/llm_call_tools/projectio/__init__.py:73-83 | code shorter than ten characters is refused with the model's reply shown and nothing changes; otherwise the extracted code replaces the file and the report shows `OneLinePreview` of it |
| `ProjectIO.OneLinePreview` | bin/llm_call_tools/projectio/__init__.py:82 | the first 100 characters of the code (all of it when shorter), with every line break turned into a space |
| `ProjectIO.RewriteSavesFencedCode` | bin/llm_call_tools/projectio/__init__.py:73-81 | a reply holding a fenced block with enough code, after prose without a backtick, puts exactly that code, stripped, into the file |
| `Builtins.Registered` | bin/llm_call_tools/__init__.py:39-55 | a module registers the prefix of its decorators that run before the first one that raises |
| `Builtins.AsWrittenRegistersNothing` | bin/llm_call_tools/fileio/__init__.py:47-51 | as written, seven tools are declared and none is registered |
| `Builtins.CorrectedRegistersAll` | bin/llm_call_tools/common.py:9-19 | with name and prompt passed, all seven tools register, each once, in module order and then declaration order |
| `Builtins.RegisteredAll` | bin/llm_call_tools/__init__.py:39-55 | when every decorator call is accepted, every declaration registers |
| `Builtins.OrderOfDistinct` | bin/llm_call_tools/common.py:15 | registering new, distinct names appends them in order |
| `Builtins.TableAfter` | bin/llm_call_tools/common.py:15-17 | dict assignment over a run of registrations: the keys are the old ones and the declared names, and a name not declared keeps its value |
| `Builtins.LastWriteWins` | bin/llm_call_tools/common.py:15-17 | the value stored under a name is that of its last registration |
| `Builtins.CorrectedTable` | bin/llm_call_tools/common.py:9-19 | with name and prompt passed, each of the seven tool names holds its own declared handler and prompt, so `text_reader` runs `FileIO.TextReader` and so on |
| `Builtins.ImportPackage` | bin/llm_call_tools/__init__.py:39-55 | the package import leaves the names of its registrations in the registry's key order, and the handler and prompt tables as `TableAfter` gives them |
| `Builtins.RegisterAll` | bin/llm_call_tools/__init__.py:39-55 | running the decorators in turn gives the key order `OrderAfter` and the tables `TableAfter`: every declared name has a handler and a prompt, those of its last declaration, and other names keep what they had |
| `Relay.LoadHistory` | bin/chatcall.py:59-65 | a missing, unreadable or unparseable state file gives an empty history |
| `Relay.SavedDisk` | bin/chatcall.py:67-69 | saving fails exactly when the state file is a directory; otherwise the file holds the last 15 entries |
| `Relay.HistorySurvivesRestart` | bin/chatcall.py:59-69 | what is saved is what the next start loads: the last min(15, n) entries, provided the codec reads back what it writes |
| `Relay.NameList` | bin/chatcall.py:48 | the enum is the registered names, one string each, in order |
| `Relay.SchemaEnumListsTools` | bin/chatcall.py:38-57 | the tool enum of the architect schema lists exactly the registered tool names |
| `Relay.Classify` | bin/chatcall.py:142-152 | a tool plan is a parsed dict with a `tasks` key, whose JSON is the matched span |
| `Relay.ClassifyIff` | bin/chatcall.py:142-152 | a reply is a tool plan exactly when the text from its first `{` to its last `}` parses to a dict whose `tasks` has a length above zero |
| `Relay.NoBraceIsChat` | bin/chatcall.py:146-147 | a reply without a `{` is always chat |
| `Relay.TaskItems` | bin/chatcall.py:173 | `for task in tasks` visits a list's items in order, and as many items as `len(tasks)` counts |
| `Relay.RunTask` | bin/chatcall.py:174-178 | a task that is not a dict raises AttributeError; a task whose tool is a string is dispatched through `execute_tool` with parameters defaulting to `{}`; a missing tool key gives the unregistered message for `None`, a `None`, bool or number tool that for its `repr`, and a list or dict tool raises TypeError (it cannot be a dict key) |
| `Relay.RunTasks` | bin/chatcall.py:172-180 | one result per task unless a task raised, and never more results than tasks |
| `Relay.TasksRunInOrder` | bin/chatcall.py:172-180 | running more tasks only adds results at the end, and once a task has raised no further task runs |
| `Relay.UnregisteredToolChangesNothing` | bin/chatcall.py:178 | a task naming an unregistered tool yields the error text and changes nothing |
| `Relay.Record` | bin/chatcall.py:157-159 | appends exactly the user and assistant entries, saves the history, and keeps the context and the to-do text |
| `Relay.ContinuationOf` | bin/chatcall.py:183 | the relay continues exactly when `remaining_plan` is text longer than five characters once stripped, stops when it is falsy or shorter, and raises exactly when it is truthy but not text |
| `Relay.Conclude` | bin/chatcall.py:182-197 | relays exactly when the plan is long text; a relaying round keeps the history, makes the plan the to-do text and appends the stage summary to the context; a finishing one appends the user entry and `DoneReport`, saves, and clears the to-do text; a plan that is not text raises with nothing changed |
| `Relay.ToolRound` | bin/chatcall.py:163-197 | a tool plan keeps or extends the history by exactly two entries and saves what it records; a relaying round's to-do text is the plan's `remaining_plan`; a finished one clears the to-do text; the theme is the plan's |
| `Relay.RoundSpec` | bin/chatcall.py:106-197 | a round either keeps the history or appends exactly two entries after it, always saving what it records; only a tool plan relays, and its `remaining_plan` becomes the to-do text that the next input asks for; a recorded tool plan clears the to-do text and a chat keeps it |
| `Relay.ChatIsRecorded` | bin/chatcall.py:154-161 | a chat reply is recorded word for word after the user's input, and the context and to-do text are kept |
| `Relay.Final` | bin/chatcall.py:154-197 | a round that does not relay ends the relay: done when recorded, with the exception otherwise |
| `Relay.RelayRecordsOnce` | bin/chatcall.py:106-197 | however many rounds a relay takes, a finished relay has added exactly two entries, after all that was there; a relay that ran out of rounds has added none |
| `Relay.RelayCarriesPlan` | bin/chatcall.py:183-189 | a relaying round's to-do text is the architect's `remaining_plan`, and the relay goes on as a continuation asked to carry it out |
| `Relay.RelayFromKeeps` | bin/chatcall.py:183-189 | a relaying round followed by any number of further rounds keeps that property |
| `Relay.RelaySystem.constructor` | bin/chatcall.py:29-57 | empty context, to-do text and theme; the loaded history; the schema built from the registered names |
| `Relay.RelaySystem.RecordExchange` | bin/chatcall.py:157-159 | performs `Record` on the relay's fields |
| `Relay.RelaySystem.RunPlanTasks` | bin/chatcall.py:172-180 | the task loop performs `RunTasks` on the context and files, and leaves the history, the to-do text and the theme alone |
| `Relay.RelaySystem.Round` | bin/chatcall.py:110-161 | performs `RoundSpec` |
| `Relay.RelaySystem.RunPlan` | bin/chatcall.py:163-180 | performs `ToolRound` |
| `Relay.RelaySystem.Finish` | bin/chatcall.py:182-197 | performs `Conclude` |
| `Relay.RelaySystem.HandOver` | bin/chatcall.py:183-189 | sets the remaining plan as the to-do text and adds the stage summary to the context, as `HandedOver` describes |
| `Relay.RelaySystem.Complete` | bin/chatcall.py:190-197 | records the summary, saves, and clears the to-do text, as `Finished` describes |
| `Relay.RelaySystem.RunRelay` | bin/chatcall.py:106-197 | performs `RelaySpec`, so `RelayRecordsOnce` holds of it |
| `Relay.RelaySystem.Continue` | bin/chatcall.py:189 | the recursive call performs `RelayFrom` |

## Left out

- Process control is left out: the `pkill -9 llama-completion` before each run, the 180-second timeout, and the binary itself. A run is `Host.run`, which returns the captured output or the message of the exception it raised.
- `print`, the progress messages and the command-line entry point (bin/chatcall.py:199-202) are left out because they change no state.
- `json.loads` and `json.dumps` are left abstract as `Host.loads`, `Host.dumpCompact` and `Host.dumpPretty`. JSON floats are not in the value type, and for duplicate keys `Get` returns the first pair.
- Three regular expressions are left abstract because their matching is not modelled: code_searcher's paragraph pattern (`Host.segments`), the write_code fallback cleanup (`Host.cleanupFallback`) and the Unicode `\w` class (`Host.isWordChar`). The `\{.*\}` span and the fence pattern are modelled.
- The RAG keyword extraction (`re.findall` on the lower-cased input, then `set`) is the parameter `Config.keywordTags`, because lower-casing and set order are not modelled.
- `get_weighted_tool_prompts` is imported at bin/chatcall.py:8-13 and called at bin/chatcall.py:118, but common.py does not define it. As shipped, that import raises ImportError before a relay can be built. The model takes the function as the parameter `Config.weightedPrompts`.
- Configuration loading (`ai_config`, `override_ai_config`), module `initialize` hooks and the ignored modules `sample` and `git_tool` are left out; the package import runs no `initialize`.
- upvote_downvote.py is not part of this model.
- `Relay.RelaySystem.RunRelay`: the recursion of `run_relay` is bounded by a `fuel` parameter. When the fuel runs out while a continuation is pending, the outcome is `OutOfFuel`; the source would call itself again.
- `Relay.RelaySystem.constructor`: the handler table is copied from the registry when the relay is built. Tools registered later are not seen; in the source `execute_tool` reads the live table.
- A handler may change only `context` and the files. The source passes the whole relay object, but none of the modelled handlers touches another field.
- Paths that are not strings raise TypeError in the model. Python would accept an integer as a file descriptor.
- `open(..., "w")` failing for any reason other than the path being a directory (for example a missing parent directory or permissions) is not modelled.
- Reads use `errors="ignore"` in projectio and strict UTF-8 in text_reader. The file system holds decoded text, so decoding errors are not modelled.
- `FileIO.TextReader`, `ProjectIO.ProjectReader`, `ProjectIO.CodeSearcher` and `ProjectIO.CodeModifier`: a read of a file returns the stored text as it is, without the newline translation of Python's text mode. A `\r\n` or a lone `\r` is not read back as `\n`, so a `\r` that write_code stores comes back unchanged. The loaded context keeps it, and the preview's `PyStr.ReadLines`, which splits at `\n` only as `readlines()` does on translated text, does not end a line at a lone `\r`.
- `Gateway.CallLlm`: for a completed run, the contract bounds the cleaned text rather than restating the cleaning; `CallModel` is proved equal to it, and the cleaning steps have their own lemmas.
- `World.Write`: the `os.walk` listings are a fixed snapshot of the directories. A file that a write creates is not added to its directory's listing, so a later project_reader tree does not show it, though in the source it would. Paths are not normalized either: `./a.py` and `a.py` are different files in the model.
- `Json.Repr`: quotes a string with `'` and does not escape quotes or backslashes, so `DirectoryError` differs from Python's `str(e)` for a path holding `'` or `\`.
- `PyStr.ParseInt`: `int()` accepts ASCII digits only, with an optional sign and surrounding whitespace. Underscores and non-ASCII digits are rejected.

## Findings

| source | as written | input that shows it | evidently intended | confidence | as-written member | corrected member |
|---|---|---|---|---|---|---|
| bin/llm_call_tools/common.py:9 | every `@register_ai_tool(...)` passes three positional arguments (name, prompt, tag list), for example bin/llm_call_tools/fileio/__init__.py:47-51 and bin/llm_call_tools/projectio/__init__.py:5-9, but `register_ai_tool(name, prompt=None)` accepts at most two. The first decorator of each module raises TypeError, and the package import (bin/llm_call_tools/__init__.py:39-55) catches it, so no tool is registered | importing `llm_call_tools`: the first decorator of `fileio` and of `projectio` each raise, the registry stays empty, and the architect schema's tool enum is `[]` | the seven tools registered, with their names and prompts, in module order | not executed; follows from the Python call rules | `Builtins.AsWrittenRegistersNothing` | `Builtins.CorrectedRegistersAll` |
