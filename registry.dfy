/** The tool registry of bin/llm_call_tools/common.py: a name-to-handler
    table, a name-to-prompt table, registration by decorator, the list of
    names and dispatch by name. */
module Registry {
  import opened PyStr
  import Json
  import opened World

  /** What a handler may read and change of the relay object it is given:
      the shared context text, and the file system. */
  datatype Env = Env(context: string, disk: FileSystem)

  /** A handler either returns its result text with the state as it left
      it, or raises an exception that nothing in the core catches. */
  datatype Reply = Returned(text: string, env: Env) | Raised(error: string, env: Env)

  /** A tool handler: `handler(params, sys_inst)`; `Host` stands for the
      relay's `call_llm` and the rest of the outside world. */
  type Handler = (Json.Value, Env, Host) -> Reply

  /** The text `execute_tool` returns for a name nobody registered. */
  function UnregisteredMessage(name: string): string {
    "[-] 錯誤: 工具 '" + name + "' 尚未註冊。"
  }

  /** The message names the tool that was asked for. */
  lemma UnregisteredMessageNamesTool(name: string)
    ensures Contains(UnregisteredMessage(name), name)
  {
    var m := UnregisteredMessage(name);
    var pre := "[-] 錯誤: 工具 '";
    assert m == pre + name + "' 尚未註冊。";
    assert m[|pre|..|pre| + |name|] == name;
    ContainsAt(m, name, |pre|);
  }

  /** `names` as it stands after registering `name`: a dict keeps the
      position a key had when it was first inserted. */
  function AppendNew(names: seq<string>, name: string): (r: seq<string>)
    ensures name in r && forall n :: n in r <==> n in names || n == name
    ensures name in names ==> r == names
    ensures name !in names ==> r == names + [name]
  {
    if name in names then names else names + [name]
  }

  /** The key order after a run of registrations `calls`, starting from `names`. */
  function OrderAfter(names: seq<string>, calls: seq<string>): seq<string>
    decreases |calls|
  {
    if calls == [] then names else OrderAfter(AppendNew(names, calls[0]), calls[1..])
  }

  predicate NoDuplicates(s: seq<string>) {
    forall i, j :: 0 <= i < j < |s| ==> s[i] != s[j]
  }

  /** Registration keeps the name list free of duplicates and makes it hold
      exactly the old names and the registered ones, the old ones first and
      in the same order. */
  lemma {:induction false} OrderAfterSpec(names: seq<string>, calls: seq<string>)
    requires NoDuplicates(names)
    ensures NoDuplicates(OrderAfter(names, calls))
    ensures |OrderAfter(names, calls)| >= |names| && OrderAfter(names, calls)[..|names|] == names
    ensures forall n :: n in OrderAfter(names, calls) <==> n in names || n in calls
    decreases |calls|
  {
    if calls != [] {
      var next := AppendNew(names, calls[0]);
      assert |next| >= |names| && next[..|names|] == names;
      OrderAfterSpec(next, calls[1..]);
      var r := OrderAfter(next, calls[1..]);
      assert r == OrderAfter(names, calls);
      assert r[..|names|] == r[..|next|][..|names|];
      assert forall n :: n in calls <==> n == calls[0] || n in calls[1..];
    }
  }

  /** A name's position is that of its first registration: a name registered
      before another is listed before it, however often either is re-registered. */
  lemma FirstRegistrationOrder(calls: seq<string>, i: nat, j: nat)
    requires i < j < |calls|
    requires calls[j] !in calls[..j]
    ensures var r := OrderAfter([], calls);
      exists a, b :: 0 <= a < b < |r| && r[a] == calls[i] && r[b] == calls[j]
  {
    var pre := OrderAfter([], calls[..j]);
    PrefixRegistered(calls, i, j);
    var mid := pre + [calls[j]];
    RegisteredAt(calls, j);
    var r := OrderAfter(mid, calls[j + 1..]);
    OrderAfterSpec(mid, calls[j + 1..]);
    var a :| 0 <= a < |pre| && pre[a] == calls[i];
    assert r[a] == r[..|mid|][a] == mid[a];
    assert r[|pre|] == r[..|mid|][|pre|] == mid[|pre|];
  }

  /** What was registered before position `j` is listed by then, once. */
  lemma PrefixRegistered(calls: seq<string>, i: nat, j: nat)
    requires i < j <= |calls|
    ensures NoDuplicates(OrderAfter([], calls[..j]))
    ensures calls[i] in OrderAfter([], calls[..j])
  {
    OrderAfterSpec([], calls[..j]);
    assert calls[i] == calls[..j][i];
  }

  /** A name first registered at position `j` is appended at that point. */
  lemma RegisteredAt(calls: seq<string>, j: nat)
    requires j < |calls| && calls[j] !in calls[..j]
    ensures var pre := OrderAfter([], calls[..j]);
      calls[j] !in pre && NoDuplicates(pre + [calls[j]])
      && OrderAfter([], calls) == OrderAfter(pre + [calls[j]], calls[j + 1..])
  {
    var pre := OrderAfter([], calls[..j]);
    var x := calls[j];
    OrderAfterSpec([], calls[..j]);
    assert x !in pre;
    AppendFresh(pre, x);
    OrderPrefix([], calls, j);
    var rest := calls[j..];
    assert rest[0] == x && rest[1..] == calls[j + 1..];
    assert OrderAfter(pre, rest) == OrderAfter(AppendNew(pre, x), rest[1..]);
  }

  /** A name not yet listed is appended, and the list stays free of duplicates. */
  lemma AppendFresh(names: seq<string>, x: string)
    requires NoDuplicates(names) && x !in names
    ensures AppendNew(names, x) == names + [x]
    ensures NoDuplicates(names + [x])
  {
    var r := names + [x];
    forall i, j | 0 <= i < j < |r| ensures r[i] != r[j] {
      assert r[i] == names[i];
      if j == |names| {
        assert r[i] in names;
      } else {
        assert r[j] == names[j];
      }
    }
  }

  /** Registering `a` and then `b` is running through `a + b`. */
  lemma {:induction false} OrderSplit(names: seq<string>, a: seq<string>, b: seq<string>)
    ensures OrderAfter(names, a + b) == OrderAfter(OrderAfter(names, a), b)
    decreases |a|
  {
    if a == [] {
      assert a + b == b;
    } else {
      assert (a + b)[0] == a[0];
      assert (a + b)[1..] == a[1..] + b;
      OrderSplit(AppendNew(names, a[0]), a[1..], b);
    }
  }

  lemma OrderPrefix(names: seq<string>, calls: seq<string>, j: nat)
    requires j <= |calls|
    ensures OrderAfter(names, calls) == OrderAfter(OrderAfter(names, calls[..j]), calls[j..])
  {
    assert calls == calls[..j] + calls[j..];
    OrderSplit(names, calls[..j], calls[j..]);
  }

  /** `execute_tool(name, params, context_obj)` on the table `TOOLS_LIST`:
      the registered handler's reply, or an error text naming the tool with
      the state untouched. */
  function ExecuteTool(handlers: map<string, Handler>, name: string, params: Json.Value, env: Env, host: Host): (r: Reply)
    ensures name in handlers ==> r == handlers[name](params, env, host)
    ensures name !in handlers ==> r == Returned(UnregisteredMessage(name), env)
  {
    if name in handlers then handlers[name](params, env, host)
    else Returned(UnregisteredMessage(name), env)
  }

  /** The registry: `TOOLS_LIST` is `handlers` with its key order in `names`,
      `TOOLS_PROMPT` is `prompts`. */
  class ToolRegistry {
    var handlers: map<string, Handler>
    var prompts: map<string, string>
    var names: seq<string>

    ghost predicate Valid()
      reads this
    {
      && NoDuplicates(names)
      && (forall n :: n in handlers <==> n in names)
      && prompts.Keys <= handlers.Keys
    }

    constructor ()
      ensures Valid()
      ensures handlers == map[] && prompts == map[] && names == []
    {
      handlers, prompts, names := map[], map[], [];
    }

    /** `register_ai_tool(name, prompt)(f)`: the decorator stores `f` under
        `name` (replacing an earlier handler, whose position is kept),
        stores `prompt` when there is one, and hands `f` back unchanged. */
    method Register(name: string, prompt: Option<string>, f: Handler) returns (g: Handler)
      requires Valid()
      modifies this
      ensures Valid()
      ensures g == f
      ensures handlers == old(handlers)[name := f]
      ensures prompt.Some? ==> prompts == old(prompts)[name := prompt.value]
      ensures prompt.None? ==> prompts == old(prompts)
      ensures names == AppendNew(old(names), name)
    {
      names := AppendNew(names, name);
      handlers := handlers[name := f];
      if prompt.Some? {
        prompts := prompts[name := prompt.value];
      }
      g := f;
    }

    /** `get_tool_prompts()`: the prompt table, in which every name is a
        registered tool's (a prompt is only stored by registering). */
    function GetToolPrompts(): (r: map<string, string>)
      reads this
      requires Valid()
      ensures forall n :: n in r ==> n in names && n in handlers
      ensures r == prompts
    {
      prompts
    }

    /** `get_tool_names()`: every registered name once, in the order of
        first registration. */
    function GetToolNames(): (r: seq<string>)
      reads this
      requires Valid()
      ensures NoDuplicates(r)
      ensures forall n :: n in r <==> n in handlers
      ensures r == names
    {
      names
    }
  }
}
