/** `PiAiRelaySystem` of bin/chatcall.py: the relay that asks the architect
    model for a plan, runs the plan's tool calls in order, and either
    records the exchange in its history or hands the remaining plan to the
    next round ("relay"). Each round is specified by pure functions over a
    snapshot of the relay's fields; the class's methods are proved to
    perform exactly those functions. */
module Relay {
  import opened PyStr
  import opened Json
  import opened World
  import opened Registry
  import Gateway

  /** `STATE_FILE` of the configuration. */
  const StateFile := "pi_ai_state.json"

  /** How many history entries are saved. */
  const HistoryKept := 15

  // ---------------------------------------------------------------- history

  /** `load_history()`: what the state file holds, or an empty list when it
      is missing, is not a regular file, or does not parse. */
  function LoadHistory(disk: FileSystem, host: Host): (r: Value)
    ensures !IsFile(disk, StateFile) ==> r == Arr([])
    ensures IsFile(disk, StateFile) && host.loads(disk.files[StateFile]).None? ==> r == Arr([])
  {
    if IsFile(disk, StateFile) then
      match host.loads(disk.files[StateFile])
      case Some(v) => v
      case None => Arr([])
    else Arr([])
  }

  /** The text `save_history()` writes: the last 15 entries, pretty-printed. */
  function HistoryText(host: Host, history: seq<Value>): string {
    host.dumpPretty(Arr(LastN(history, HistoryKept)))
  }

  /** `save_history()`; `None` where opening the state file raises. */
  function SavedDisk(disk: FileSystem, host: Host, history: seq<Value>): (r: Option<FileSystem>)
    ensures r.None? <==> IsDir(disk, StateFile)
    ensures r.Some? ==> IsFile(r.value, StateFile) && r.value.files[StateFile] == HistoryText(host, history)
  {
    WriteText(disk, StateFile, HistoryText(host, history))
  }

  /** What is saved is what the next start loads, cut to the last 15
      entries, provided the codec reads back what it writes. */
  lemma HistorySurvivesRestart(disk: FileSystem, host: Host, history: seq<Value>)
    requires !IsDir(disk, StateFile)
    requires var kept := Arr(LastN(history, HistoryKept)); host.loads(host.dumpPretty(kept)) == Some(kept)
    ensures SavedDisk(disk, host, history).Some?
    ensures var loaded := LoadHistory(SavedDisk(disk, host, history).value, host);
      loaded.Arr? && |loaded.items| == Min(HistoryKept, |history|)
      && loaded.items == history[|history| - |loaded.items|..]
  {
  }

  /** One history entry. */
  function Entry(role: string, content: string): Value {
    Obj([("role", Str(role)), ("content", Str(content))])
  }

  // ---------------------------------------------------------------- planning

  /** The schema the architect model's reply is constrained by; the tool
      of every task must be one of the registered names. */
  function ArchitectSchema(names: seq<string>): Value {
    Obj([
      ("type", Str("object")),
      ("properties", PlanProperties(names)),
      ("required", Arr([Str("theme"), Str("tasks")]))])
  }

  function PlanProperties(names: seq<string>): Value {
    Obj([
      ("theme", Obj([("type", Str("string")), ("description", Str("本次任務的核心主題關鍵字"))])),
      ("tags", Obj([("type", Str("array")), ("items", Obj([("type", Str("string"))])),
                    ("description", Str("相關技術標籤"))])),
      ("tasks", Obj([("type", Str("array")), ("items", TaskSchema(names))])),
      ("remaining_plan", Obj([("type", Str("string")),
                              ("description", Str("若任務步數過長，請在此描述接下來還需做的步驟，以便接力執行"))]))])
  }

  function TaskSchema(names: seq<string>): Value {
    Obj([
      ("type", Str("object")),
      ("properties", Obj([
        ("tool", Obj([("type", Str("string")), ("enum", NameList(names))])),
        ("params", Obj([("type", Str("object")), ("additionalProperties", Bool(true))]))])),
      ("required", Arr([Str("tool"), Str("params")]))])
  }

  /** `get_tool_names()` as a JSON list. */
  function NameList(names: seq<string>): (r: Value)
    ensures r.Arr? && |r.items| == |names| && forall i :: 0 <= i < |names| ==> r.items[i] == Str(names[i])
  {
    Arr(seq(|names|, i requires 0 <= i < |names| => Str(names[i])))
  }

  /** The `enum` the schema puts on a task's tool. */
  function ToolEnum(schema: Value): Option<Value> {
    match Field(schema, "properties")
    case None => None
    case Some(props) =>
      match Field(props, "tasks")
      case None => None
      case Some(tasks) =>
        match Field(tasks, "items")
        case None => None
        case Some(items) =>
          match Field(items, "properties")
          case None => None
          case Some(fields) =>
            match Field(fields, "tool")
            case None => None
            case Some(tool) => Field(tool, "enum")
  }

  /** `v[key]` on a dict. */
  function Field(v: Value, key: string): Option<Value> {
    if v.Obj? then Get(v.fields, key) else None
  }

  /** The planner may name exactly the tools that were registered. */
  lemma SchemaEnumListsTools(names: seq<string>)
    ensures ToolEnum(ArchitectSchema(names)) == Some(NameList(names))
  {
    SchemaProperties(names);
    PropertiesTasks(names);
    TaskSchemaTool(names);
  }

  lemma SchemaProperties(names: seq<string>)
    ensures Field(ArchitectSchema(names), "properties") == Some(PlanProperties(names))
  {
    GetDistinct(ArchitectSchema(names).fields, 1);
  }

  lemma PropertiesTasks(names: seq<string>)
    ensures Field(PlanProperties(names), "tasks") == Some(Obj([("type", Str("array")), ("items", TaskSchema(names))]))
    ensures Field(Obj([("type", Str("array")), ("items", TaskSchema(names))]), "items") == Some(TaskSchema(names))
  {
    GetDistinct(PlanProperties(names).fields, 2);
    GetDistinct([("type", Str("array")), ("items", TaskSchema(names))], 1);
  }

  lemma TaskSchemaTool(names: seq<string>)
    ensures var props := Field(TaskSchema(names), "properties");
      props.Some? && Field(props.value, "tool") == Some(Obj([("type", Str("string")), ("enum", NameList(names))]))
    ensures Field(Obj([("type", Str("string")), ("enum", NameList(names))]), "enum") == Some(NameList(names))
  {
    GetDistinct(TaskSchema(names).fields, 1);
    var props := [
        ("tool", Obj([("type", Str("string")), ("enum", NameList(names))])),
        ("params", Obj([("type", Str("object")), ("additionalProperties", Bool(true))]))];
    GetDistinct(props, 0);
    GetDistinct([("type", Str("string")), ("enum", NameList(names))], 1);
  }

  /** The relay state shown to the architect when a round continues a plan. */
  function ContinuationStatus(theme: Value, todo: string): string {
    StatusLead + Text(theme) + StatusMiddle + todo
  }

  const StatusLead := "\n[接力狀態]: 正在執行任務 '"
  const StatusMiddle := "' 的續接步驟。剩餘進度描述: "

  /** The opening of the architect's system prompt, up to the tool descriptions. */
  const ArchitectIntro := "你是一個專業的任務規劃架構師。\n請根據使用者的需求與目前狀態，判斷應執行的工具序列。\n\n**可用工具說明 (含推薦權重標記)：**\n"

  /** The rules that close the architect's system prompt. */
  const ArchitectRules := "**執行規範：**\n1. 必須輸出 JSON 格式。\n2. 若任務複雜，請規劃當前最緊急的 1~3 步，並在 'remaining_plan' 描述後續工作。\n3. 若不需要工具（單純對話），請直接以自然語言回答，不要輸出 JSON（觸發 Chatter 保底）。\n4. 'theme' 應設定為任務的核心主題，'tags' 應包含相關技術關鍵字。"

  /** The architect's system prompt around the tool descriptions and status. */
  function ArchitectPrompt(toolsDescription: string, status: string): string {
    ArchitectIntro + toolsDescription + "\n" + status + "\n\n" + ArchitectRules
  }

  /** The JSON the pattern `\{.*\}` (dot-all) picks out of a reply, parsed. */
  function ParsedSpan(raw: string, host: Host): Option<Value> {
    match BraceSpan(raw)
    case Some((a, b)) => host.loads(raw[a..b + 1])
    case None => None
  }

  /** A reply is either a tool plan or chat. */
  datatype Plan = Chat | ToolPlan(fields: seq<(string, Value)>)

  /** The tool-call test: a dict whose `tasks` has a length above zero. Any
      exception on the way (no match, bad JSON, `in` or `len` on the wrong
      type) is caught, and the reply is then chat. */
  function Classify(raw: string, host: Host): (r: Plan)
    ensures r.ToolPlan? ==> ParsedSpan(raw, host) == Some(Obj(r.fields)) && HasKey(r.fields, "tasks")
  {
    match ParsedSpan(raw, host)
    case Some(Obj(fs)) =>
      (match Get(fs, "tasks")
       case Some(tasks) => if Len(tasks).Some? && Len(tasks).value > 0 then ToolPlan(fs) else Chat
       case None => Chat)
    case _ => Chat
  }

  /** The plan test in full: a reply is a tool plan exactly when the text
      from its first `{` to its last `}` parses to a dict whose `tasks`
      has a length above zero. */
  lemma ClassifyIff(raw: string, host: Host)
    ensures Classify(raw, host).ToolPlan? <==>
      exists a: nat, b: nat :: a < b && IsFirst(raw, '{', a) && IsLast(raw, '}', b) && NonEmptyTasks(host.loads(raw[a..b + 1]))
  {
    if Classify(raw, host).ToolPlan? {
      PlanHasSpan(raw, host);
    }
    if exists a: nat, b: nat :: a < b && IsFirst(raw, '{', a) && IsLast(raw, '}', b) && NonEmptyTasks(host.loads(raw[a..b + 1])) {
      var a: nat, b: nat :| a < b && IsFirst(raw, '{', a) && IsLast(raw, '}', b) && NonEmptyTasks(host.loads(raw[a..b + 1]));
      SpanIsPlan(raw, host, a, b);
    }
  }

  lemma PlanHasSpan(raw: string, host: Host)
    requires Classify(raw, host).ToolPlan?
    ensures var span := BraceSpan(raw); span.Some? && NonEmptyTasks(host.loads(raw[span.value.0..span.value.1 + 1]))
  {
  }

  lemma SpanIsPlan(raw: string, host: Host, a: nat, b: nat)
    requires a < b && IsFirst(raw, '{', a) && IsLast(raw, '}', b)
    requires NonEmptyTasks(host.loads(raw[a..b + 1]))
    ensures Classify(raw, host).ToolPlan?
  {
    var span := BraceSpan(raw);
    assert span.Some? by {
      assert raw[a] == '{' && raw[b] == '}';
    }
    FirstUnique(raw, '{', a, span.value.0);
    LastUnique(raw, '}', b, span.value.1);
  }

  /** `v` is a dict whose `tasks` has a length above zero. */
  predicate NonEmptyTasks(v: Option<Value>) {
    v.Some? && v.value.Obj? && var t := Get(v.value.fields, "tasks");
    t.Some? && Len(t.value).Some? && Len(t.value).value > 0
  }

  lemma FirstUnique(s: string, c: char, i: nat, j: nat)
    requires IsFirst(s, c, i) && IsFirst(s, c, j)
    ensures i == j
  {
  }

  lemma LastUnique(s: string, c: char, i: nat, j: nat)
    requires IsLast(s, c, i) && IsLast(s, c, j)
    ensures i == j
  {
  }

  /** A reply without a `{` is always chat. */
  lemma NoBraceIsChat(raw: string, host: Host)
    requires forall i :: 0 <= i < |raw| ==> raw[i] != '{'
    ensures Classify(raw, host) == Chat
  {
  }

  // ---------------------------------------------------------------- running the tasks

  /** What `for task in tasks` goes through: a list's items, a string's
      characters, a dict's keys. */
  function TaskItems(v: Value): (r: seq<Value>)
    ensures v.Arr? ==> r == v.items
    ensures Len(v).Some? ==> |r| == Len(v).value
  {
    match v
    case Arr(xs) => xs
    case Str(s) => seq(|s|, i requires 0 <= i < |s| => Str([s[i]]))
    case Obj(fs) => seq(|fs|, i requires 0 <= i < |fs| => Str(fs[i].0))
    case _ => []
  }

  /** One task: `execute_tool(task.get("tool"), task.get("params", {}), self)`.
      A task that is not a dict raises AttributeError; a list or dict as
      tool name cannot be looked up (TypeError); any other non-string name
      is simply not registered. */
  function RunTask(tools: map<string, Handler>, host: Host, task: Value, env: Env): (r: Reply)
    ensures !task.Obj? ==> r == Raised("AttributeError", env)
    ensures task.Obj? && GetOr(task.fields, "tool", Null).Str? ==>
      r == ExecuteTool(tools, GetOr(task.fields, "tool", Null).s, GetOr(task.fields, "params", Obj([])), env, host)
    ensures task.Obj? && !HasKey(task.fields, "tool") ==> r == Returned(UnregisteredMessage("None"), env)
    ensures task.Obj? ==> var name := GetOr(task.fields, "tool", Null);
      name.Null? || name.Bool? || name.Int? ==> r == Returned(UnregisteredMessage(Text(name)), env)
    ensures task.Obj? ==> var name := GetOr(task.fields, "tool", Null);
      name.Arr? || name.Obj? ==> r == Raised("TypeError", env)
  {
    if !task.Obj? then Raised("AttributeError", env)
    else
      var name := GetOr(task.fields, "tool", Null);
      var params := GetOr(task.fields, "params", Obj([]));
      match name
      case Str(n) => ExecuteTool(tools, n, params, env, host)
      case Arr(_) => Raised("TypeError", env)
      case Obj(_) => Raised("TypeError", env)
      case _ => Returned(UnregisteredMessage(Text(name)), env)
  }

  /** The results of the tasks run so far, the state they left, and the
      exception that stopped them, if one did. */
  datatype Batch = Batch(results: seq<string>, env: Env, crash: Option<string>)

  /** The task loop of `run_relay`: the tasks in plan order, each seeing the
      state the previous one left; an exception ends the loop. */
  function RunTasks(tools: map<string, Handler>, host: Host, tasks: seq<Value>, env: Env): (r: Batch)
    ensures |r.results| <= |tasks|
    ensures r.crash.None? ==> |r.results| == |tasks|
  {
    if tasks == [] then Batch([], env, None)
    else
      var b := RunTasks(tools, host, tasks[..|tasks| - 1], env);
      if b.crash.Some? then b
      else match RunTask(tools, host, tasks[|tasks| - 1], b.env)
        case Returned(text, e) => Batch(b.results + [text], e, None)
        case Raised(err, e) => Batch(b.results, e, Some(err))
  }

  /** Results come in plan order: running more tasks only adds results at
      the end, and once a task has raised no further task runs. */
  lemma {:induction false} TasksRunInOrder(tools: map<string, Handler>, host: Host, tasks: seq<Value>, env: Env, i: nat)
    requires i <= |tasks|
    ensures var pre := RunTasks(tools, host, tasks[..i], env);
      var all := RunTasks(tools, host, tasks, env);
      |pre.results| <= |all.results| && all.results[..|pre.results|] == pre.results
      && (pre.crash.Some? ==> all == pre)
    decreases |tasks|
  {
    if i == |tasks| {
      assert tasks[..i] == tasks;
    } else {
      var init := tasks[..|tasks| - 1];
      assert init[..i] == tasks[..i];
      TasksRunInOrder(tools, host, init, env, i);
      var pre := RunTasks(tools, host, tasks[..i], env);
      var mid := RunTasks(tools, host, init, env);
      var all := RunTasks(tools, host, tasks, env);
      assert all.results[..|mid.results|] == mid.results;
      assert all.results[..|pre.results|] == all.results[..|mid.results|][..|pre.results|];
    }
  }

  /** A tool name nobody registered yields the error text and changes nothing. */
  lemma UnregisteredToolChangesNothing(tools: map<string, Handler>, host: Host, task: Value, env: Env)
    requires task.Obj? && GetOr(task.fields, "tool", Null).Str?
    requires GetOr(task.fields, "tool", Null).s !in tools
    ensures RunTask(tools, host, task, env) == Returned(UnregisteredMessage(GetOr(task.fields, "tool", Null).s), env)
  {
  }

  // ---------------------------------------------------------------- one round

  /** The relay's fields. */
  datatype State = State(context: string, history: Value, todoList: string, theme: Value, disk: FileSystem)

  /** How one call of `run_relay` ends: the exchange recorded, an exception,
      or a further call with the given input. */
  datatype Step =
    | Answered(state: State)
    | Crashed(error: string, state: State)
    | Relay(nextInput: string, state: State)

  /** What the relay is built with: the outside world, whether the RAG
      module imported, the keyword extraction it enables (the distinct
      matches of the keyword pattern in the lower-cased input), the weighted
      tool descriptions, and the schema. */
  datatype Config = Config(
    host: Host,
    ragAvailable: bool,
    keywordTags: string -> seq<string>,
    weightedPrompts: seq<string> -> string,
    schema: Value)

  /** The architect's reply for a round. */
  function ArchitectReply(cfg: Config, s: State, userInput: string, isContinuation: bool): string {
    var tags := if cfg.ragAvailable then cfg.keywordTags(userInput) else [];
    var status := if isContinuation then ContinuationStatus(s.theme, s.todoList) else "";
    Gateway.CallLlm(cfg.host, s.disk, "architect", userInput, ArchitectPrompt(cfg.weightedPrompts(tags), status),
                    512, "0.1", Some(cfg.schema))
  }

  /** How a round may change the history: a recorded exchange adds exactly
      the two entries at the end; a relaying round leaves it as it was. */
  predicate StepKeeps(h0: Value, step: Step) {
    match step
    case Answered(t) => h0.Arr? && t.history.Arr? && |t.history.items| == |h0.items| + 2
      && t.history.items[..|h0.items|] == h0.items
    case Relay(_, t) => t.history == h0
    case Crashed(_, _) => true
  }

  /** The state file holds the last 15 entries of the history. */
  predicate Saved(host: Host, t: State) {
    t.history.Arr? && IsFile(t.disk, StateFile) && t.disk.files[StateFile] == HistoryText(host, t.history.items)
  }

  /** A relaying round leaves a plan of more than five characters as the
      to-do text and asks for it in the next round's input. */
  predicate HandsOn(step: Step) {
    step.Relay? ==>
      |Strip(step.state.todoList)| > 5 && step.nextInput == ContinuePrompt(step.state.theme, step.state.todoList)
  }

  /** The two entries appended, then the history saved. */
  function Record(cfg: Config, s: State, userInput: string, reply: string): (r: Step)
    ensures r.Relay? == false
    ensures r.state.theme == s.theme
    ensures r.Answered? ==> s.history.Arr? && r.state.history == Arr(s.history.items + [Entry("user", userInput), Entry("assistant", reply)])
    ensures r.Answered? ==> Saved(cfg.host, r.state) && r.state.todoList == s.todoList && r.state.context == s.context
  {
    if !s.history.Arr? then Crashed("AttributeError", s)
    else
      var h := s.history.items + [Entry("user", userInput), Entry("assistant", reply)];
      match SavedDisk(s.disk, cfg.host, h)
      case None => Crashed("IsADirectoryError", s.(history := Arr(h)))
      case Some(d) => Answered(s.(history := Arr(h), disk := d))
  }

  /** What a relaying round adds to the context: the theme and its results. */
  function StageSummary(theme: Value, results: seq<string>): string {
    SummaryLead + Text(theme) + ": " + Join(" ", results)
  }

  /** The next round's input. */
  function ContinuePrompt(theme: Value, next: string): string {
    ContinueLead + Text(theme) + ContinueMiddle + next
  }

  /** The assistant entry recorded when a plan is finished. */
  function DoneReport(theme: Value, results: seq<string>): string {
    DoneLead + Text(theme) + DoneMiddle + Join("\n", results)
  }

  const SummaryLead := "\n[階段結果] "
  const ContinueLead := "請繼續完成任務 '"
  const ContinueMiddle := "'。後續目標："
  const DoneLead := "【主題："
  const DoneMiddle := "】任務已成功執行完畢。\n結果彙整：\n"

  /** The `remaining_plan` test: falsy means done; otherwise it must be text
      (`.strip()`), and more than five characters once stripped means relay. */
  datatype Continuation = Stop | Go(next: string) | NotText

  function ContinuationOf(next: Value): (r: Continuation)
    ensures r.Go? ==> next == Str(r.next) && |Strip(r.next)| > 5
    ensures r.Stop? ==> !Truthy(next) || (next.Str? && |Strip(next.s)| <= 5)
    ensures r.Go? <==> next.Str? && |Strip(next.s)| > 5
    ensures r.NotText? <==> Truthy(next) && !next.Str?
  {
    if !Truthy(next) then Stop
    else if !next.Str? then NotText
    else if |Strip(next.s)| > 5 then Go(next.s)
    else Stop
  }

  /** After the tasks: relay on with the remaining plan, record the
      summary, or raise. */
  function Conclude(cfg: Config, s: State, userInput: string, results: seq<string>, next: Value): (r: Step)
    ensures StepKeeps(s.history, r)
    ensures r.Answered? ==> Saved(cfg.host, r.state)
    ensures HandsOn(r)
    ensures r.Relay? <==> next.Str? && |Strip(next.s)| > 5
    ensures r.Relay? ==> r.state == s.(todoList := next.s, context := s.context + StageSummary(s.theme, results))
    ensures Truthy(next) && !next.Str? ==> r == Crashed("AttributeError", s)
    ensures r.state.theme == s.theme
    ensures r.Answered? ==>
      && r.state.todoList == "" && r.state.context == s.context && s.history.Arr?
      && r.state.history == Arr(s.history.items + [Entry("user", userInput), Entry("assistant", DoneReport(s.theme, results))])
  {
    match ContinuationOf(next)
    case NotText => Crashed("AttributeError", s)
    case Go(rest) => HandedOver(s, rest, results)
    case Stop => Finished(cfg, s, userInput, results)
  }

  /** Relaying on: the remaining plan becomes the to-do text, the stage's
      results join the context, and the next round is asked to go on. */
  function HandedOver(s: State, rest: string, results: seq<string>): Step {
    Relay(ContinuePrompt(s.theme, rest), s.(todoList := rest, context := s.context + StageSummary(s.theme, results)))
  }

  /** Finishing: the summary recorded, then the to-do text cleared. */
  function Finished(cfg: Config, s: State, userInput: string, results: seq<string>): Step {
    match Record(cfg, s, userInput, DoneReport(s.theme, results))
    case Answered(t) => Answered(t.(todoList := ""))
    case other => other
  }

  /** A tool plan: the theme set, the tasks run, then the conclusion. */
  function ToolRound(tools: map<string, Handler>, cfg: Config, s: State, userInput: string, fs: seq<(string, Value)>): (r: Step)
    requires HasKey(fs, "tasks")
    ensures StepKeeps(s.history, r)
    ensures r.Answered? ==> Saved(cfg.host, r.state)
    ensures HandsOn(r)
    ensures r.Relay? ==> GetOr(fs, "remaining_plan", Str("")) == Str(r.state.todoList)
    ensures r.Relay? || r.Answered? ==> r.state.theme == GetOr(fs, "theme", Str("一般任務"))
    ensures r.Answered? ==> r.state.todoList == ""
  {
    var s1 := s.(theme := GetOr(fs, "theme", Str("一般任務")));
    var b := RunTasks(tools, cfg.host, TaskItems(Get(fs, "tasks").value), Env(s1.context, s1.disk));
    var s2 := s1.(context := b.env.context, disk := b.env.disk);
    if b.crash.Some? then Crashed(b.crash.value, s2)
    else Conclude(cfg, s2, userInput, b.results, GetOr(fs, "remaining_plan", Str("")))
  }

  /** One call of `run_relay(user_input, is_continuation)` up to its
      recursive call. The history is kept unless the exchange is recorded,
      which adds exactly the two entries at the end and saves it; a round
      that relays hands its remaining plan on. */
  function RoundSpec(tools: map<string, Handler>, cfg: Config, s: State, userInput: string, isContinuation: bool): (r: Step)
    ensures StepKeeps(s.history, r)
    ensures r.Answered? ==> Saved(cfg.host, r.state)
    ensures HandsOn(r)
    ensures var plan := Classify(ArchitectReply(cfg, s, userInput, isContinuation), cfg.host);
      r.Relay? ==> plan.ToolPlan? && GetOr(plan.fields, "remaining_plan", Str("")) == Str(r.state.todoList)
    ensures var plan := Classify(ArchitectReply(cfg, s, userInput, isContinuation), cfg.host);
      r.Answered? ==> r.state.todoList == (if plan.Chat? then s.todoList else "")
  {
    var raw := ArchitectReply(cfg, s, userInput, isContinuation);
    match Classify(raw, cfg.host)
    case Chat => Record(cfg, s, userInput, raw)
    case ToolPlan(fs) => ToolRound(tools, cfg, s, userInput, fs)
  }

  /** A chat reply is recorded word for word after the user's input. */
  lemma ChatIsRecorded(tools: map<string, Handler>, cfg: Config, s: State, userInput: string, isContinuation: bool)
    requires Classify(ArchitectReply(cfg, s, userInput, isContinuation), cfg.host) == Chat
    requires s.history.Arr? && !IsDir(s.disk, StateFile)
    ensures var t := RoundSpec(tools, cfg, s, userInput, isContinuation);
      t.Answered? && t.state.history == Arr(s.history.items
        + [Entry("user", userInput), Entry("assistant", ArchitectReply(cfg, s, userInput, isContinuation))])
      && t.state.context == s.context && t.state.todoList == s.todoList
  {
  }

  // ---------------------------------------------------------------- the relay

  datatype Outcome = Done | Uncaught(error: string) | OutOfFuel

  /** `run_relay` with its recursion bounded by `fuel` further rounds: the
      rounds in turn, each relaying round handing its state and the
      follow-up input to the next. */
  function RelaySpec(tools: map<string, Handler>, cfg: Config, s: State, userInput: string, isContinuation: bool, fuel: nat): (Outcome, State)
    decreases fuel, 1
  {
    RelayFrom(tools, cfg, RoundSpec(tools, cfg, s, userInput, isContinuation), fuel)
  }

  /** How the relay ends after a round has ended with `step`. */
  function RelayFrom(tools: map<string, Handler>, cfg: Config, step: Step, fuel: nat): (Outcome, State)
    decreases fuel, 0
  {
    if step.Relay? && fuel > 0 then RelaySpec(tools, cfg, step.state, step.nextInput, true, fuel - 1)
    else (Final(step), step.state)
  }

  /** How the relay ends after a round that does not call it again. */
  function Final(step: Step): (r: Outcome)
    ensures !step.Relay? ==> r == (if step.Answered? then Done else Uncaught(step.error))
  {
    match step
    case Answered(_) => Done
    case Crashed(e, _) => Uncaught(e)
    case Relay(_, _) => OutOfFuel
  }

  /** A round that relays hands the architect's `remaining_plan` on: it is
      the to-do text of the next round, which is a continuation asked to go
      on with it. */
  lemma RelayCarriesPlan(tools: map<string, Handler>, cfg: Config, s: State, userInput: string, isContinuation: bool, fuel: nat)
    requires fuel > 0 && RoundSpec(tools, cfg, s, userInput, isContinuation).Relay?
    ensures var step := RoundSpec(tools, cfg, s, userInput, isContinuation);
      var plan := Classify(ArchitectReply(cfg, s, userInput, isContinuation), cfg.host);
      && plan.ToolPlan? && GetOr(plan.fields, "remaining_plan", Str("")) == Str(step.state.todoList)
      && |Strip(step.state.todoList)| > 5
      && RelaySpec(tools, cfg, s, userInput, isContinuation, fuel)
         == RelaySpec(tools, cfg, step.state, ContinuePrompt(step.state.theme, step.state.todoList), true, fuel - 1)
  {
  }

  /** The history after a relay, against the history `h0` it started with. */
  predicate OutcomeKeeps(h0: Value, r: (Outcome, State)) {
    && (r.0.Done? ==>
          h0.Arr? && r.1.history.Arr? && |r.1.history.items| == |h0.items| + 2
          && r.1.history.items[..|h0.items|] == h0.items)
    && (r.0.OutOfFuel? ==> r.1.history == h0)
  }

  /** However many rounds a relay takes, it records one exchange: a finished
      relay has added exactly two entries to the history, after all that
      was there; a relay that ran out of rounds has added none. */
  lemma RelayRecordsOnce(tools: map<string, Handler>, cfg: Config, s: State, userInput: string,
                         isContinuation: bool, fuel: nat)
    ensures OutcomeKeeps(s.history, RelaySpec(tools, cfg, s, userInput, isContinuation, fuel))
  {
    RelayFromKeeps(tools, cfg, s.history, RoundSpec(tools, cfg, s, userInput, isContinuation), fuel);
  }

  lemma {:induction false} RelayFromKeeps(tools: map<string, Handler>, cfg: Config, h0: Value, step: Step, fuel: nat)
    requires StepKeeps(h0, step)
    ensures OutcomeKeeps(h0, RelayFrom(tools, cfg, step, fuel))
    decreases fuel
  {
    if step.Relay? && fuel > 0 {
      var t := step.state;
      var next := RoundSpec(tools, cfg, t, step.nextInput, true);
      RelayFromKeeps(tools, cfg, h0, next, fuel - 1);
      assert RelayFrom(tools, cfg, step, fuel) == RelayFrom(tools, cfg, next, fuel - 1);
    }
  }

  // ---------------------------------------------------------------- the object

  class RelaySystem {
    var context: string
    var history: Value
    var todoList: string
    var currentTheme: Value
    var disk: FileSystem
    const tools: map<string, Handler>
    const cfg: Config

    function Snapshot(): State
      reads this
    {
      State(context, history, todoList, currentTheme, disk)
    }

    /** `PiAiRelaySystem()`: empty context, to-do text and theme, the saved
        history, and the schema naming the registered tools. */
    constructor (registry: ToolRegistry, host: Host, disk: FileSystem, ragAvailable: bool,
                 keywordTags: string -> seq<string>, weightedPrompts: seq<string> -> string)
      requires registry.Valid()
      ensures tools == registry.handlers && this.disk == disk
      ensures context == "" && todoList == "" && currentTheme == Str("")
      ensures history == LoadHistory(disk, host)
      ensures cfg == Config(host, ragAvailable, keywordTags, weightedPrompts, ArchitectSchema(registry.names))
    {
      tools := registry.handlers;
      this.disk := disk;
      context := "";
      history := LoadHistory(disk, host);
      todoList := "";
      currentTheme := Str("");
      cfg := Config(host, ragAvailable, keywordTags, weightedPrompts, ArchitectSchema(registry.GetToolNames()));
    }

    /** Appending the two entries and `save_history()`. */
    method RecordExchange(userInput: string, reply: string) returns (step: Step)
      modifies this
      ensures step == Record(cfg, old(Snapshot()), userInput, reply)
      ensures Snapshot() == step.state
    {
      if !history.Arr? {
        return Crashed("AttributeError", Snapshot());
      }
      history := Arr(history.items + [Entry("user", userInput), Entry("assistant", reply)]);
      var saved := SavedDisk(disk, cfg.host, history.items);
      if saved.None? {
        return Crashed("IsADirectoryError", Snapshot());
      }
      disk := saved.value;
      step := Answered(Snapshot());
    }

    /** The loop over the plan's tasks, each handler working on the relay. */
    method RunPlanTasks(tasks: seq<Value>) returns (results: seq<string>, crash: Option<string>)
      modifies this
      ensures var b := RunTasks(tools, cfg.host, tasks, Env(old(context), old(disk)));
        results == b.results && crash == b.crash && context == b.env.context && disk == b.env.disk
      ensures history == old(history) && todoList == old(todoList) && currentTheme == old(currentTheme)
    {
      ghost var env0 := Env(context, disk);
      results := [];
      crash := None;
      for i := 0 to |tasks|
        invariant var b := RunTasks(tools, cfg.host, tasks[..i], env0);
          b == Batch(results, Env(context, disk), None)
        invariant history == old(history) && todoList == old(todoList) && currentTheme == old(currentTheme)
      {
        var reply := RunTask(tools, cfg.host, tasks[i], Env(context, disk));
        TaskStep(tools, cfg.host, tasks, env0, i);
        context, disk := reply.env.context, reply.env.disk;
        if reply.Raised? {
          crash := Some(reply.error);
          TasksRunInOrder(tools, cfg.host, tasks, env0, i + 1);
          return;
        }
        results := results + [reply.text];
      }
      assert tasks[..|tasks|] == tasks;
    }

    /** One call of `run_relay` up to the point where it would call itself. */
    method Round(userInput: string, isContinuation: bool) returns (step: Step)
      modifies this
      ensures step == RoundSpec(tools, cfg, old(Snapshot()), userInput, isContinuation)
      ensures Snapshot() == step.state
    {
      ghost var s0 := Snapshot();
      var tags := if cfg.ragAvailable then cfg.keywordTags(userInput) else [];
      var toolsDescription := cfg.weightedPrompts(tags);
      var statusMsg := "";
      if isContinuation {
        statusMsg := ContinuationStatus(currentTheme, todoList);
      }
      var architectSys := ArchitectPrompt(toolsDescription, statusMsg);
      var raw := Gateway.CallModel(cfg.host, disk, "architect", userInput, architectSys, 512, "0.1", Some(cfg.schema));
      assert raw == ArchitectReply(cfg, s0, userInput, isContinuation);
      var plan := Classify(raw, cfg.host);
      if plan.Chat? {
        step := RecordExchange(userInput, raw);
      } else {
        step := RunPlan(userInput, plan.fields);
      }
    }

    /** A tool plan: the theme set, the tasks run, then the conclusion. */
    method RunPlan(userInput: string, fs: seq<(string, Value)>) returns (step: Step)
      requires HasKey(fs, "tasks")
      modifies this
      ensures step == ToolRound(tools, cfg, old(Snapshot()), userInput, fs)
      ensures Snapshot() == step.state
    {
      currentTheme := GetOr(fs, "theme", Str("一般任務"));
      var tasks := TaskItems(Get(fs, "tasks").value);
      var nextStep := GetOr(fs, "remaining_plan", Str(""));
      var results, crash := RunPlanTasks(tasks);
      if crash.Some? {
        return Crashed(crash.value, Snapshot());
      }
      step := Finish(userInput, results, nextStep);
    }

    /** The end of a round with a tool plan: relay, or record and clear the to-do text. */
    method Finish(userInput: string, results: seq<string>, nextStep: Value) returns (step: Step)
      modifies this
      ensures step == Conclude(cfg, old(Snapshot()), userInput, results, nextStep)
      ensures Snapshot() == step.state
    {
      match ContinuationOf(nextStep)
      case NotText =>
        step := Crashed("AttributeError", Snapshot());
      case Go(rest) =>
        step := HandOver(rest, results);
      case Stop =>
        step := Complete(userInput, results);
    }

    /** Relaying on with the remaining plan `rest`. */
    method HandOver(rest: string, results: seq<string>) returns (step: Step)
      modifies this
      ensures step == HandedOver(old(Snapshot()), rest, results)
      ensures Snapshot() == step.state
    {
      todoList, context := rest, context + StageSummary(currentTheme, results);
      step := Relay(ContinuePrompt(currentTheme, rest), Snapshot());
    }

    /** Recording the summary of a finished plan and clearing the to-do text. */
    method Complete(userInput: string, results: seq<string>) returns (step: Step)
      modifies this
      ensures step == Finished(cfg, old(Snapshot()), userInput, results)
      ensures Snapshot() == step.state
    {
      step := RecordExchange(userInput, DoneReport(currentTheme, results));
      if step.Answered? {
        todoList := "";
        step := Answered(Snapshot());
      }
    }

    /** `run_relay(user_input, is_continuation)`, with at most `fuel`
        further rounds after this one. */
    method RunRelay(userInput: string, isContinuation: bool, fuel: nat) returns (outcome: Outcome)
      modifies this
      ensures (outcome, Snapshot()) == RelaySpec(tools, cfg, old(Snapshot()), userInput, isContinuation, fuel)
      decreases fuel, 1
    {
      var step := Round(userInput, isContinuation);
      if step.Relay? && fuel > 0 {
        outcome := Continue(step, fuel);
      } else {
        outcome := Final(step);
      }
    }

    /** The recursive call of `run_relay` after a round that relays. */
    method Continue(step: Step, fuel: nat) returns (outcome: Outcome)
      requires step.Relay? && fuel > 0 && Snapshot() == step.state
      modifies this
      ensures (outcome, Snapshot()) == RelayFrom(tools, cfg, step, fuel)
      decreases fuel, 0
    {
      outcome := RunRelay(step.nextInput, true, fuel - 1);
    }
  }

  /** One more task either extends the batch or is where it stops. */
  lemma TaskStep(tools: map<string, Handler>, host: Host, tasks: seq<Value>, env: Env, i: nat)
    requires i < |tasks|
    ensures var b := RunTasks(tools, host, tasks[..i], env);
      b.crash.None? ==>
        RunTasks(tools, host, tasks[..i + 1], env) ==
          match RunTask(tools, host, tasks[i], b.env)
          case Returned(text, e) => Batch(b.results + [text], e, None)
          case Raised(err, e) => Batch(b.results, e, Some(err))
  {
    var t := tasks[..i + 1];
    assert t[..|t| - 1] == tasks[..i];
    assert t[|t| - 1] == tasks[i];
  }
}
