/** The file and writing tools of bin/llm_call_tools/fileio/__init__.py: the
    parameter lookup they share, the repair of JSON that small models
    truncate or wrap in prose, and the handlers text_reader, code_analyzer,
    write_code and chatter. A handler gets the task's parameters, the part
    of the relay it may touch (`Env`) and the outside world (`Host`). */
module FileIO {
  import opened PyStr
  import opened Json
  import opened World
  import opened Registry
  import Gateway

  // ---------------------------------------------------------------- get_possible_request

  /** The position of the first key of `fields` that is one of `keys`. */
  function FirstKeyIn(fields: seq<(string, Value)>, keys: set<string>): (r: Option<nat>)
    ensures r.Some? ==> r.value < |fields| && fields[r.value].0 in keys
    ensures r.Some? ==> forall j :: 0 <= j < r.value ==> fields[j].0 !in keys
    ensures r.None? ==> forall j :: 0 <= j < |fields| ==> fields[j].0 !in keys
  {
    if fields == [] then None
    else if fields[0].0 in keys then Some(0)
    else
      var r := FirstKeyIn(fields[1..], keys);
      assert forall j :: 1 <= j < |fields| ==> fields[j] == fields[1..][j - 1];
      if r.Some? then Some(r.value + 1) else None
  }

  /** What `get_possible_request(p, sys_inst, keys)` returns; `None` where it
      raises AttributeError (`p` is not a dict and there is no context). A
      non-empty context wins. Otherwise the value under the first key of `p`
      that is one of `keys`; when there is none, or its value is falsy, the
      value under the last key passed over before it (`""` if none was). */
  function PossibleRequest(p: Value, context: string, keys: set<string>): (r: Option<Value>)
    ensures context != "" ==> r == Some(Str(context))
    ensures r.None? <==> context == "" && !p.Obj?
  {
    if context != "" then Some(Str(context))
    else if !p.Obj? then None
    else
      var fs := p.fields;
      var found := FirstKeyIn(fs, keys);
      var content := if found.Some? then GetOr(fs, fs[found.value].0, Str("")) else Str("");
      var other := if found.Some? then (if found.value == 0 then "" else fs[found.value - 1].0)
                   else if fs == [] then "" else fs[|fs| - 1].0;
      Some(if Truthy(content) then content else GetOr(fs, other, Str("")))
  }

  /** `get_possible_request` with its scan over `p.items()`. */
  method GetPossibleRequest(p: Value, context: string, keys: set<string>) returns (r: Option<Value>)
    ensures r == PossibleRequest(p, context, keys)
  {
    var content := Str("");
    if context != "" {
      return Some(Str(context));
    }
    if !p.Obj? {
      return None;
    }
    var fs := p.fields;
    var otherKeys := "";
    var i := 0;
    while i < |fs|
      invariant i <= |fs|
      invariant forall j :: 0 <= j < i ==> fs[j].0 !in keys
      invariant otherKeys == if i == 0 then "" else fs[i - 1].0
      invariant content == Str("")
    {
      if fs[i].0 in keys {
        content := GetOr(fs, fs[i].0, Str(""));
        break;
      }
      otherKeys := fs[i].0;
      i := i + 1;
    }
    if !Truthy(content) {
      content := GetOr(fs, otherKeys, Str(""));
    }
    r := Some(content);
  }

  /** Without a context, a wanted key holding a truthy value is what the tool
      gets, whatever the dict holds after it. */
  lemma RequestFromFirstKey(fields: seq<(string, Value)>, keys: set<string>, i: nat)
    requires DistinctKeys(fields) && i < |fields| && fields[i].0 in keys
    requires forall j :: 0 <= j < i ==> fields[j].0 !in keys
    requires Truthy(fields[i].1)
    ensures PossibleRequest(Obj(fields), "", keys) == Some(fields[i].1)
  {
    GetDistinct(fields, i);
  }

  /** A wanted key whose value is falsy is passed over for the key just
      before it, or for the key `""` when it comes first. */
  lemma RequestFallsBackToPreviousKey(fields: seq<(string, Value)>, keys: set<string>, i: nat)
    requires DistinctKeys(fields) && 0 < i < |fields| && fields[i].0 in keys
    requires forall j :: 0 <= j < i ==> fields[j].0 !in keys
    requires !Truthy(fields[i].1)
    ensures PossibleRequest(Obj(fields), "", keys) == Some(fields[i - 1].1)
  {
    GetDistinct(fields, i);
    GetDistinct(fields, i - 1);
  }

  /** A falsy value under the dict's first key, a wanted one, is passed
      over for the key `""`, so the tool gets `""` unless that key exists. */
  lemma RequestFallsBackToEmptyKey(fields: seq<(string, Value)>, keys: set<string>)
    requires DistinctKeys(fields) && fields != [] && fields[0].0 in keys
    requires !Truthy(fields[0].1)
    ensures PossibleRequest(Obj(fields), "", keys) == Some(GetOr(fields, "", Str("")))
    ensures !HasKey(fields, "") ==> PossibleRequest(Obj(fields), "", keys) == Some(Str(""))
  {
    GetDistinct(fields, 0);
  }

  /** Empty parameters and no context give the empty text, not an error. */
  lemma RequestOfEmptyParams(keys: set<string>)
    ensures PossibleRequest(Obj([]), "", keys) == Some(Str(""))
  {
  }

  /** When no key is a wanted one, the tool gets the dict's last value. */
  lemma RequestFromLastKey(fields: seq<(string, Value)>, keys: set<string>)
    requires DistinctKeys(fields) && fields != []
    requires forall j :: 0 <= j < |fields| ==> fields[j].0 !in keys
    ensures PossibleRequest(Obj(fields), "", keys) == Some(fields[|fields| - 1].1)
  {
    GetDistinct(fields, |fields| - 1);
  }

  // ---------------------------------------------------------------- repair_and_parse_json

  /** `repair_and_parse_json(raw_text)`; `None` is Python's `None` (parsed
      JSON `null` is `Some(Null)`). */
  function RepairAndParseJson(host: Host, raw: string): (r: Option<Value>)
    ensures host.loads(Strip(raw)).Some? ==> r == host.loads(Strip(raw))
  {
    ParseRepaired(host, Strip(raw))
  }

  /** The repair on the stripped text `t`: `t` parsed as it is; failing that,
      the span from its first `{` to its last `}`, or, with no `}` after the
      `{`, everything from the `{` on closed with `"}`. */
  function ParseRepaired(host: Host, t: string): (r: Option<Value>)
    ensures host.loads(t).Some? ==> r == host.loads(t)
    ensures (forall i :: 0 <= i < |t| ==> t[i] != '{') ==> r == host.loads(t)
  {
    match host.loads(t)
    case Some(v) => Some(v)
    case None =>
      match BraceSpan(t)
      case Some((a, b)) => host.loads(t[a..b + 1])
      case None =>
        match FindChar(t, '{')
        case Some(a) => host.loads(t[a..] + "\"}")
        case None => None
  }

  /** A JSON object wrapped in prose is recovered: when the whole text does
      not parse, the object between the prose is what is parsed. */
  lemma RepairUnwrapsObject(host: Host, t: string, before: string, obj: string, after: string)
    requires t == before + obj + after
    requires host.loads(t).None?
    requires |obj| >= 2 && obj[0] == '{' && obj[|obj| - 1] == '}'
    requires forall i :: 0 <= i < |before| ==> before[i] != '{'
    requires forall i :: 0 <= i < |after| ==> after[i] != '}'
    ensures ParseRepaired(host, t) == host.loads(obj)
  {
    var a, b := |before|, |before| + |obj| - 1;
    assert t[a] == '{' && t[b] == '}';
    assert IsFirst(t, '{', a) by {
      forall j | 0 <= j < a ensures t[j] != '{' { assert t[j] == before[j]; }
    }
    assert IsLast(t, '}', b) by {
      forall j | b < j < |t| ensures t[j] != '}' { assert t[j] == after[j - b - 1]; }
    }
    assert BraceSpan(t) == Some((a, b));
    assert t[a..b + 1] == obj;
  }

  /** A reply cut off before its closing brace is closed with `"}` and retried. */
  lemma RepairClosesTruncated(host: Host, t: string, before: string, rest: string)
    requires t == before + "{" + rest
    requires host.loads(t).None?
    requires forall i :: 0 <= i < |before| ==> before[i] != '{'
    requires forall i :: 0 <= i < |rest| ==> rest[i] != '}'
    ensures ParseRepaired(host, t) == host.loads("{" + rest + "\"}")
  {
    var a := |before|;
    assert t[a] == '{';
    assert IsFirst(t, '{', a) by {
      forall j | 0 <= j < a ensures t[j] != '{' { assert t[j] == before[j]; }
    }
    assert forall j :: a < j < |t| ==> t[j] != '}' by {
      forall j | a < j < |t| ensures t[j] != '}' { assert t[j] == rest[j - a - 1]; }
    }
    assert t[a..] == "{" + rest;
  }

  // ---------------------------------------------------------------- text_reader

  const TextReaderKeys: set<string> := {"file_path", "filename", "target", "file"}

  const TextReaderNoPath := "[-] 錯誤: text_reader 缺少檔案路徑。"

  function ReadLoaded(path: string, size: nat): string {
    "【讀取成功】檔案: " + path + " (共 " + IntToStr(size) + " 字元)，內容已載入背景 Context。"
  }

  function ReadFailed(error: string): string {
    "【讀取失敗】讀取過程發生錯誤: " + error
  }

  function ReadMissing(path: string): string {
    "【讀取失敗】找不到檔案: " + path
  }

  /** `str(e)` of the IsADirectoryError that opening a directory raises. */
  function DirectoryError(path: string): string {
    "[Errno 21] Is a directory: " + Repr(Str(path))
  }

  /** `handle_text_reader`: the requested file's text becomes the context.
      Every failure is reported in the returned text with the state as it
      was; only a non-dict without a context, or a non-string path, raises. */
  function TextReader(p: Value, env: Env, host: Host): (r: Reply)
    ensures r.env.disk == env.disk
    ensures r.Raised? ==> r.env == env
    ensures r.env.context != env.context ==>
      r.Returned? && exists path :: IsFile(env.disk, path) && r.env.context == env.disk.files[path]
    ensures var req := PossibleRequest(p, env.context, TextReaderKeys);
      r.Raised? <==> req.None? || (Truthy(req.value) && !req.value.Str?)
    ensures var req := PossibleRequest(p, env.context, TextReaderKeys);
      req.Some? && !Truthy(req.value) ==> r == Returned(TextReaderNoPath, env)
    ensures var req := PossibleRequest(p, env.context, TextReaderKeys);
      req.Some? && req.value.Str? && req.value.s != "" && !Exists(env.disk, req.value.s) ==>
        r == Returned(ReadMissing(req.value.s), env)
    ensures var req := PossibleRequest(p, env.context, TextReaderKeys);
      req.Some? && req.value.Str? && req.value.s != "" && IsDir(env.disk, req.value.s) ==>
        r == Returned(ReadFailed(DirectoryError(req.value.s)), env)
  {
    match PossibleRequest(p, env.context, TextReaderKeys)
    case None => Raised("AttributeError", env)
    case Some(fname) =>
      if !Truthy(fname) then Returned(TextReaderNoPath, env)
      else if !fname.Str? then Raised("TypeError", env)
      else
        var path := fname.s;
        if !Exists(env.disk, path) then Returned(ReadMissing(path), env)
        else if IsDir(env.disk, path) then Returned(ReadFailed(DirectoryError(path)), env)
        else Returned(ReadLoaded(path, |env.disk.files[path]|), env.(context := env.disk.files[path]))
  }

  /** Reading a file loads exactly its text and reports the path and size. */
  lemma TextReaderLoadsFile(p: Value, env: Env, host: Host, path: string)
    requires PossibleRequest(p, env.context, TextReaderKeys) == Some(Str(path))
    requires path != [] && IsFile(env.disk, path)
    ensures TextReader(p, env, host)
         == Returned(ReadLoaded(path, |env.disk.files[path]|), env.(context := env.disk.files[path]))
    ensures StartsWith(TextReader(p, env, host).text, "【讀取成功】")
  {
    var pre := "【讀取成功】";
    assert ReadLoaded(path, |env.disk.files[path]|)[..|pre|] == pre;
  }

  /** Once a context is loaded, text_reader takes the context itself as the
      path: its parameters no longer matter. */
  lemma TextReaderIgnoresParamsOnceLoaded(p: Value, q: Value, env: Env, host: Host)
    requires env.context != ""
    ensures TextReader(p, env, host) == TextReader(q, env, host)
  {
  }

  // ---------------------------------------------------------------- code_analyzer

  const AnalyzerKeys: set<string> := {"code", "content", "topic"}

  const AnalyzerNothing := "[-] 錯誤: 無可供分析的代碼內容。"

  const AnalyzerSystem := "你是一個資深工程師，請用繁體中文提供簡潔且具備技術深度的分析。"

  function AnalyzerPrompt(content: string): string {
    "請專業地分析以下代碼邏輯，並指出潛在問題或關鍵點：\n\n" + content
  }

  /** `handle_code_analyzer`: the coder model's analysis of the requested
      code (the context when there is one), under a fixed heading. */
  function CodeAnalyzer(p: Value, env: Env, host: Host): (r: Reply)
    ensures r.env == env
    ensures r.Raised? <==> PossibleRequest(p, env.context, AnalyzerKeys).None?
    ensures env.context != "" ==> r == Returned("【代碼分析結果】\n" +
      Gateway.CallLlm(host, env.disk, "coder", AnalyzerPrompt(env.context), AnalyzerSystem, 512, "0.1", None), env)
    ensures var req := PossibleRequest(p, env.context, AnalyzerKeys);
      req.Some? && !Truthy(req.value) ==> r == Returned(AnalyzerNothing, env)
    ensures var req := PossibleRequest(p, env.context, AnalyzerKeys);
      req.Some? && Truthy(req.value) ==> r == Returned("【代碼分析結果】\n" +
        Gateway.CallLlm(host, env.disk, "coder", AnalyzerPrompt(Text(req.value)), AnalyzerSystem, 512, "0.1", None), env)
  {
    match PossibleRequest(p, env.context, AnalyzerKeys)
    case None => Raised("AttributeError", env)
    case Some(content) =>
      if !Truthy(content) then Returned(AnalyzerNothing, env)
      else
        var analysis := Gateway.CallLlm(host, env.disk, "coder", AnalyzerPrompt(Text(content)), AnalyzerSystem, 512, "0.1", None);
        Returned("【代碼分析結果】\n" + analysis, env)
  }

  /** What text_reader loads is what code_analyzer analyses next, whatever
      parameters the analyser is given. */
  lemma ReaderFeedsAnalyzer(p: Value, q: Value, env: Env, host: Host, path: string)
    requires PossibleRequest(p, env.context, TextReaderKeys) == Some(Str(path))
    requires path != [] && IsFile(env.disk, path) && env.disk.files[path] != ""
    ensures var after := TextReader(p, env, host).env;
      CodeAnalyzer(q, after, host) == Returned("【代碼分析結果】\n" +
        Gateway.CallLlm(host, env.disk, "coder", AnalyzerPrompt(env.disk.files[path]), AnalyzerSystem, 512, "0.1", None), after)
  {
    TextReaderLoadsFile(p, env, host, path);
  }

  // ---------------------------------------------------------------- write_code

  const WriteCodeSystem := "你是一個專業工程師。必須嚴格輸出 JSON。'code' 欄位放置程式碼，'filename' 放置建議檔名。"

  /** The schema the coder model's reply is constrained by. */
  const WriteCodeSchema: Value := Obj([
    ("type", Str("object")),
    ("properties", Obj([("code", Obj([("type", Str("string"))])),
                        ("filename", Obj([("type", Str("string"))]))])),
    ("required", Arr([Str("code")]))])

  const DefaultCodeFile := "generated_code.txt"
  const FallbackCodeFile := "fallback_code.txt"

  /** The task description, or a generic one when it is missing or falsy. */
  function TaskDescription(fields: seq<(string, Value)>): string {
    match Get(fields, "task_description")
    case Some(v) => if Truthy(v) then Text(v) else "撰寫程式碼"
    case None => "撰寫程式碼"
  }

  /** The request, behind the context as background when there is one. */
  function WriteCodePrompt(desc: string, context: string): (r: string)
    ensures context == "" ==> r == "任務需求: " + desc
  {
    (if context != "" then "背景資訊:\n" + context + "\n\n" else "") + "任務需求: " + desc
  }

  /** The coder model's raw reply to a write_code task with fields `fields`. */
  function WriteCodeReply(fields: seq<(string, Value)>, env: Env, host: Host): string {
    Gateway.CallLlm(host, env.disk, "coder", WriteCodePrompt(TaskDescription(fields), env.context),
                    WriteCodeSystem, 512, "0.1", Some(WriteCodeSchema))
  }

  /** How `data and "code" in data` and `data["code"]` turn out. */
  datatype CodeLookup = HasCode(fields: seq<(string, Value)>) | NoCode | LookupFails(error: string)

  function LookupCode(data: Option<Value>): (r: CodeLookup)
    ensures r.HasCode? <==> data.Some? && data.value.Obj? && HasKey(data.value.fields, "code")
    ensures r.HasCode? ==> r.fields == data.value.fields
  {
    match data
    case None => NoCode
    case Some(v) =>
      if !Truthy(v) then NoCode
      else match v
        case Obj(fs) => if HasKey(fs, "code") then HasCode(fs) else NoCode
        // `"code" in` a list compares elements and then indexes the list by a string
        case Arr(xs) => if Str("code") in xs then LookupFails("TypeError") else NoCode
        // `"code" in` a string is a substring test, and then a string is indexed by a string
        case Str(s) => if Contains(s, "code") then LookupFails("TypeError") else NoCode
        case _ => LookupFails("TypeError")
  }

  /** Saving the parsed reply: the file is opened (and so emptied) before
      the code is written, so a non-string code leaves it empty. */
  function SaveGenerated(fields: seq<(string, Value)>, env: Env): (r: Reply)
    requires HasKey(fields, "code")
    ensures r.env.context == env.context
    ensures r.env.disk.walks == env.disk.walks
  {
    var code := Get(fields, "code").value;
    var named := Get(fields, "filename");
    var fname := if named.Some? && Truthy(named.value) then named.value else Str(DefaultCodeFile);
    if !fname.Str? then Raised("TypeError", env)
    else match WriteText(env.disk, fname.s, "")
      case None => Raised("IsADirectoryError", env)
      case Some(emptied) =>
        if !code.Str? then Raised("TypeError", env.(disk := emptied))
        else Returned("【代碼生成成功】已寫入至 " + fname.s + "。\n預覽：\n" + Take(code.s, 60) + "...",
                      env.(disk := Write(env.disk, fname.s, code.s)))
  }

  /** `handle_write_code`: asks the coder model for JSON holding the code and
      a file name, and hands its reply on. */
  function WriteCode(p: Value, env: Env, host: Host): (r: Reply)
    ensures r.env.context == env.context
    ensures r.env.disk.walks == env.disk.walks
    ensures !p.Obj? ==> r == Raised("AttributeError", env)
  {
    if !p.Obj? then Raised("AttributeError", env)
    else SaveReply(WriteCodeReply(p.fields, env, host), env, host)
  }

  /** What write_code does with the model's reply `raw`: the parsed code is
      saved under the name the model chose; an unparseable reply longer than
      30 characters is cleaned up and saved to a fallback file. */
  function SaveReply(raw: string, env: Env, host: Host): (r: Reply)
    ensures r.env.context == env.context
    ensures r.env.disk.walks == env.disk.walks
  {
    SaveLookedUp(LookupCode(RepairAndParseJson(host, raw)), raw, env, host)
  }

  /** The three ways the reply can turn out once `data` was looked at. */
  function SaveLookedUp(lookup: CodeLookup, raw: string, env: Env, host: Host): (r: Reply)
    requires lookup.HasCode? ==> HasKey(lookup.fields, "code")
    ensures r.env.context == env.context
    ensures r.env.disk.walks == env.disk.walks
  {
    match lookup
    case LookupFails(e) => Raised(e, env)
    case HasCode(fs) => SaveGenerated(fs, env)
    case NoCode => SaveFallback(raw, env, host)
  }

  /** The fallback for a reply that held no code. */
  function SaveFallback(raw: string, env: Env, host: Host): (r: Reply)
    ensures r.env.context == env.context
    ensures r.env.disk.walks == env.disk.walks
  {
    if |raw| > 30 then
      match WriteText(env.disk, FallbackCodeFile, host.cleanupFallback(raw))
      case None => Raised("IsADirectoryError", env)
      case Some(disk) =>
        Returned("【警告：格式異常】JSON 解析失敗，已啟動保底模式存至 " + FallbackCodeFile
                 + "。原始回傳預覽:\n" + Take(raw, 80), env.(disk := disk))
    else Returned("【生成失敗】模型回傳內容過短或無效。原始內容:\n" + raw, env)
  }

  /** A well-formed reply is saved under the file name the model chose, and
      nothing else on disk changes. */
  lemma SaveReplyWritesCode(raw: string, env: Env, host: Host, code: string, name: string)
    requires var data := RepairAndParseJson(host, raw);
      data.Some? && data.value.Obj? && Get(data.value.fields, "code") == Some(Str(code))
      && Get(data.value.fields, "filename") == Some(Str(name))
    requires name != "" && !IsDir(env.disk, name)
    ensures SaveReply(raw, env, host).Returned?
    ensures SaveReply(raw, env, host).env.disk == Write(env.disk, name, code)
  {
    var data := RepairAndParseJson(host, raw);
    SaveReplyParsed(raw, env, host, data.value.fields);
    GeneratedWritesCode(data.value.fields, env, code, name);
  }

  /** A reply whose "filename" is missing or falsy. */
  predicate NoFileName(fields: seq<(string, Value)>) {
    match Get(fields, "filename")
    case None => true
    case Some(v) => !Truthy(v)
  }

  /** Without a file name in the reply (none, or a falsy one) the code goes
      to `generated_code.txt`. */
  lemma SaveReplyDefaultFile(raw: string, env: Env, host: Host, code: string)
    requires var data := RepairAndParseJson(host, raw);
      data.Some? && data.value.Obj? && Get(data.value.fields, "code") == Some(Str(code))
      && NoFileName(data.value.fields)
    requires !IsDir(env.disk, DefaultCodeFile)
    ensures SaveReply(raw, env, host).Returned?
    ensures SaveReply(raw, env, host).env.disk == Write(env.disk, DefaultCodeFile, code)
  {
    var data := RepairAndParseJson(host, raw);
    SaveReplyParsed(raw, env, host, data.value.fields);
    GeneratedDefaultFile(data.value.fields, env, code);
  }

  /** A code value that is not a string still leaves the target file
      created and emptied, and the exception escapes. */
  lemma SaveReplyEmptiesOnBadCode(raw: string, env: Env, host: Host, code: Value, name: string)
    requires var data := RepairAndParseJson(host, raw);
      data.Some? && data.value.Obj? && Get(data.value.fields, "code") == Some(code)
      && Get(data.value.fields, "filename") == Some(Str(name))
    requires !code.Str? && name != "" && !IsDir(env.disk, name)
    ensures SaveReply(raw, env, host) == Raised("TypeError", env.(disk := Write(env.disk, name, "")))
  {
    var data := RepairAndParseJson(host, raw);
    SaveReplyParsed(raw, env, host, data.value.fields);
    GeneratedEmptiesOnBadCode(data.value.fields, env, code, name);
  }

  /** A parsed object holding "code" goes to `SaveGenerated`. */
  lemma SaveReplyParsed(raw: string, env: Env, host: Host, fields: seq<(string, Value)>)
    requires RepairAndParseJson(host, raw) == Some(Obj(fields)) && HasKey(fields, "code")
    ensures SaveReply(raw, env, host) == SaveGenerated(fields, env)
  {
  }

  lemma GeneratedWritesCode(fields: seq<(string, Value)>, env: Env, code: string, name: string)
    requires Get(fields, "code") == Some(Str(code)) && Get(fields, "filename") == Some(Str(name))
    requires name != "" && !IsDir(env.disk, name)
    ensures HasKey(fields, "code")
    ensures SaveGenerated(fields, env).Returned?
    ensures SaveGenerated(fields, env).env.disk == Write(env.disk, name, code)
  {
  }

  lemma GeneratedDefaultFile(fields: seq<(string, Value)>, env: Env, code: string)
    requires Get(fields, "code") == Some(Str(code)) && NoFileName(fields)
    requires !IsDir(env.disk, DefaultCodeFile)
    ensures HasKey(fields, "code")
    ensures SaveGenerated(fields, env).Returned?
    ensures SaveGenerated(fields, env).env.disk == Write(env.disk, DefaultCodeFile, code)
  {
  }

  lemma GeneratedEmptiesOnBadCode(fields: seq<(string, Value)>, env: Env, code: Value, name: string)
    requires Get(fields, "code") == Some(code) && Get(fields, "filename") == Some(Str(name))
    requires !code.Str? && name != "" && !IsDir(env.disk, name)
    ensures HasKey(fields, "code")
    ensures SaveGenerated(fields, env) == Raised("TypeError", env.(disk := Write(env.disk, name, "")))
  {
  }

  /** A short reply without code (not JSON, or JSON without a "code" key)
      changes nothing and is shown in full. */
  lemma SaveReplyShortFails(raw: string, env: Env, host: Host)
    requires |raw| <= 30 && LookupCode(RepairAndParseJson(host, raw)).NoCode?
    ensures SaveReply(raw, env, host) == Returned("【生成失敗】模型回傳內容過短或無效。原始內容:\n" + raw, env)
  {
  }

  /** A long reply without code is cleaned up into the fallback file. */
  lemma SaveReplyFallsBack(raw: string, env: Env, host: Host)
    requires |raw| > 30 && LookupCode(RepairAndParseJson(host, raw)).NoCode?
    requires !IsDir(env.disk, FallbackCodeFile)
    ensures SaveReply(raw, env, host).Returned?
    ensures SaveReply(raw, env, host).env.disk == Write(env.disk, FallbackCodeFile, host.cleanupFallback(raw))
  {
  }

  // ---------------------------------------------------------------- chatter

  const ChatterKeys: set<string> := {"text", "topic"}

  const ChatterNothing := "[-] 錯誤: 無內容。"

  const ChatterSystem := "你是一個資深工程師，請用繁體中文提供對話內容。你絕對不會回應口水，不會無限的重複"

  /** `handle_chatter`: the chatter model's reply to the requested text. */
  function Chatter(p: Value, env: Env, host: Host): (r: Reply)
    ensures r.env == env
    ensures r.Raised? <==> PossibleRequest(p, env.context, ChatterKeys).None?
    ensures var req := PossibleRequest(p, env.context, ChatterKeys);
      req.Some? && Truthy(req.value) ==>
        r.text == Gateway.CallLlm(host, env.disk, "chatter", Text(req.value), ChatterSystem, 512, "0.1", None)
    ensures var req := PossibleRequest(p, env.context, ChatterKeys);
      req.Some? && !Truthy(req.value) ==> r == Returned(ChatterNothing, env)
    ensures var req := PossibleRequest(p, env.context, ChatterKeys);
      req.Some? && Truthy(req.value) ==> r.Returned?
  {
    match PossibleRequest(p, env.context, ChatterKeys)
    case None => Raised("AttributeError", env)
    case Some(content) =>
      if !Truthy(content) then Returned(ChatterNothing, env)
      else Returned(Gateway.CallLlm(host, env.disk, "chatter", Text(content), ChatterSystem, 512, "0.1", None), env)
  }

  // ---------------------------------------------------------------- registration

  /** The prompts the tools are registered with. */
  const TextReaderDescription := "單純讀取檔案作為系統Context，如果有工具的目標是讀取文字，但分析的內容還沒載入，應優先執行text_reader"
  const CodeAnalyzerDescription := "分析程式邏輯，code_analyzer的輸入只能是程式內容，如果是檔案請優先跑過text_reader"
  const WriteCodeDescription := "當訊息提到**寫*程式*，都要用這個，這主要用來處理程式撰寫需求，提到寫什麼程式都要用write_code"
  const ChatterDescription := "這是最後的選項，用來回應聊天"

  /** The module's tools in declaration order: name, prompt and the tags
      given to the decorator, and the handler. */
  const Tools: seq<(string, string, seq<string>, Handler)> := [
    ("text_reader",
     TextReaderDescription,
     ["reader", "text"], TextReader),
    ("code_analyzer",
     CodeAnalyzerDescription,
     ["analyzer", "source", "code"], CodeAnalyzer),
    ("write_code",
     WriteCodeDescription,
     ["codegen", "write", "programming"], WriteCode),
    ("chatter", ChatterDescription, ["chat"], Chatter)
  ]
}
