/** How importing the llm_call_tools package fills the registry
    (bin/llm_call_tools/__init__.py): each tool module is imported in name
    order, and importing it runs its `@register_ai_tool(...)` decorators
    top to bottom. A decorator call that raises ends that module's import;
    the package reports it and goes on with the next module, keeping
    whatever was registered before the failure. */
module Builtins {
  import opened PyStr
  import opened Registry
  import FileIO
  import ProjectIO

  /** A decorated tool: name, prompt, tags, handler. */
  type ToolDecl = (string, string, seq<string>, Handler)

  /** `register_ai_tool(name, prompt=None)` accepts one or two positional
      arguments; any other number raises TypeError. */
  predicate FactoryAccepts(positional: nat) {
    1 <= positional <= 2
  }

  /** The decorators as written pass the name, the prompt and the tags. */
  function AsWrittenArgs(d: ToolDecl): nat { 3 }

  /** The evident intent: the name and the prompt (the tags unused). */
  function CorrectedArgs(d: ToolDecl): nat { 2 }

  /** The declarations whose decorator ran before the first that raised. */
  function Registered(decls: seq<ToolDecl>, args: ToolDecl -> nat): (r: seq<ToolDecl>)
    ensures |r| <= |decls| && r == decls[..|r|]
    ensures forall i :: 0 <= i < |r| ==> FactoryAccepts(args(decls[i]))
    ensures |r| < |decls| ==> !FactoryAccepts(args(decls[|r|]))
  {
    if decls == [] || !FactoryAccepts(args(decls[0])) then []
    else
      var rest := Registered(decls[1..], args);
      assert forall i :: 1 <= i < |decls| ==> decls[i] == decls[1..][i - 1];
      [decls[0]] + rest
  }

  /** The modules in the order `pkgutil.iter_modules` lists them. */
  function PackageRegistrations(args: ToolDecl -> nat): seq<ToolDecl> {
    Registered(FileIO.Tools, args) + Registered(ProjectIO.Tools, args)
  }

  function Names(decls: seq<ToolDecl>): (r: seq<string>)
    ensures |r| == |decls| && forall i :: 0 <= i < |decls| ==> r[i] == decls[i].0
  {
    seq(|decls|, i requires 0 <= i < |decls| => decls[i].0)
  }

  const ToolNames: seq<string> := ["text_reader", "code_analyzer", "write_code", "chatter",
                                   "project_reader", "code_searcher", "code_modifier"]

  /** As written, the first decorator of each module raises, so the package
      import registers no tool at all, though seven are declared. */
  lemma AsWrittenRegistersNothing()
    ensures |FileIO.Tools| + |ProjectIO.Tools| == 7
    ensures PackageRegistrations(AsWrittenArgs) == []
  {
    assert !FactoryAccepts(AsWrittenArgs(FileIO.Tools[0]));
    assert !FactoryAccepts(AsWrittenArgs(ProjectIO.Tools[0]));
  }

  /** Passing the name and the prompt registers all seven tools, once each,
      in module order and then declaration order. */
  lemma CorrectedRegistersAll()
    ensures PackageRegistrations(CorrectedArgs) == FileIO.Tools + ProjectIO.Tools
    ensures Names(PackageRegistrations(CorrectedArgs)) == ToolNames
    ensures NoDuplicates(ToolNames) && OrderAfter([], ToolNames) == ToolNames
  {
    RegisteredAll(FileIO.Tools, CorrectedArgs);
    RegisteredAll(ProjectIO.Tools, CorrectedArgs);
    DeclaredNames();
    DistinctNamesInOrder();
  }

  /** The seven declarations, in package order, carry the names of `ToolNames`. */
  lemma DeclaredNames()
    ensures Names(FileIO.Tools + ProjectIO.Tools) == ToolNames
  {
    var all := FileIO.Tools + ProjectIO.Tools;
    assert |all| == 7;
  }

  lemma DistinctNamesInOrder()
    ensures NoDuplicates(ToolNames) && OrderAfter([], ToolNames) == ToolNames
  {
    var keys := "ra_ecsm";
    assert forall i :: 0 <= i < |ToolNames| ==> |ToolNames[i]| > 5 && ToolNames[i][5] == keys[i];
    assert NoDuplicates(ToolNames);
    OrderOfDistinct([], ToolNames);
    assert [] + ToolNames == ToolNames;
  }

  /** When every decorator call is accepted, every declaration registers. */
  lemma {:induction false} RegisteredAll(decls: seq<ToolDecl>, args: ToolDecl -> nat)
    requires forall i :: 0 <= i < |decls| ==> FactoryAccepts(args(decls[i]))
    ensures Registered(decls, args) == decls
  {
    if decls != [] {
      assert forall i :: 1 <= i < |decls| ==> decls[i] == decls[1..][i - 1];
      RegisteredAll(decls[1..], args);
    }
  }

  /** Registering names that are new and distinct appends them in order. */
  lemma {:induction false} OrderOfDistinct(names: seq<string>, calls: seq<string>)
    requires NoDuplicates(names + calls)
    ensures OrderAfter(names, calls) == names + calls
    decreases |calls|
  {
    if calls == [] {
      assert names + calls == names;
    } else {
      var all := names + calls;
      assert all[|names|] == calls[0];
      assert calls[0] !in names by {
        forall i | 0 <= i < |names| ensures names[i] != calls[0] {
          assert all[i] == names[i];
        }
      }
      assert AppendNew(names, calls[0]) == names + [calls[0]];
      assert (names + [calls[0]]) + calls[1..] == all;
      OrderOfDistinct(names + [calls[0]], calls[1..]);
    }
  }

  /** A declaration's handler, and the prompt it is registered with. */
  function HandlerOf(d: ToolDecl): Handler { d.3 }

  function PromptOf(d: ToolDecl): string { d.1 }

  /** A table after storing `value(d)` under `d.0` for each declaration in
      turn: a dict assignment, so a later registration of a name replaces
      what an earlier one stored. */
  function TableAfter<V>(m: map<string, V>, decls: seq<ToolDecl>, value: ToolDecl -> V): (r: map<string, V>)
    ensures forall n :: n in r <==> n in m || n in Names(decls)
    ensures forall n :: n in m && n !in Names(decls) ==> r[n] == m[n]
    decreases |decls|
  {
    if decls == [] then m
    else
      var i := |decls| - 1;
      NamesStep(decls, i);
      assert decls[..i + 1] == decls;
      TableAfter(m, decls[..i], value)[decls[i].0 := value(decls[i])]
  }

  /** One more declaration stores its value over the table so far. */
  lemma TableStep<V>(m: map<string, V>, decls: seq<ToolDecl>, value: ToolDecl -> V, i: nat)
    requires i < |decls|
    ensures TableAfter(m, decls[..i + 1], value) == TableAfter(m, decls[..i], value)[decls[i].0 := value(decls[i])]
  {
    assert decls[..i + 1][..i] == decls[..i];
  }

  /** The table after a non-empty run is the table before its last
      declaration, with that declaration stored. */
  lemma TableUnfold<V>(m: map<string, V>, decls: seq<ToolDecl>, value: ToolDecl -> V)
    requires decls != []
    ensures TableAfter(m, decls, value)
      == TableAfter(m, decls[..|decls| - 1], value)[decls[|decls| - 1].0 := value(decls[|decls| - 1])]
  {
  }

  /** The last registration of a name decides what is stored under it. */
  lemma {:induction false} LastWriteWins<V>(m: map<string, V>, decls: seq<ToolDecl>, value: ToolDecl -> V, j: nat)
    requires j < |decls|
    requires forall k :: j < k < |decls| ==> decls[k].0 != decls[j].0
    ensures decls[j].0 in TableAfter(m, decls, value)
    ensures TableAfter(m, decls, value)[decls[j].0] == value(decls[j])
    decreases |decls|
  {
    var i := |decls| - 1;
    TableUnfold(m, decls, value);
    if j < i {
      var pre := decls[..i];
      forall k | j < k < |pre| ensures pre[k].0 != pre[j].0 {
        assert pre[k] == decls[k] && pre[j] == decls[j];
      }
      LastWriteWins(m, pre, value, j);
      assert pre[j] == decls[j];
    }
  }

  /** Distinct names: no later declaration reuses a name. */
  lemma LaterNamesDiffer(decls: seq<ToolDecl>, j: nat)
    requires NoDuplicates(Names(decls)) && j < |decls|
    ensures forall k :: j < k < |decls| ==> decls[k].0 != decls[j].0
  {
    var names := Names(decls);
    forall k | j < k < |decls| ensures decls[k].0 != decls[j].0 {
      assert names[j] != names[k];
    }
  }

  /** With the two arguments passed, importing the package into an empty
      registry stores every tool's own handler and prompt under its name. */
  lemma CorrectedTable(j: nat)
    requires j < |ToolNames|
    ensures var decls := PackageRegistrations(CorrectedArgs);
      && j < |decls| && decls[j].0 == ToolNames[j]
      && ToolNames[j] in TableAfter(map[], decls, HandlerOf)
      && TableAfter(map[], decls, HandlerOf)[ToolNames[j]] == decls[j].3
      && ToolNames[j] in TableAfter(map[], decls, PromptOf)
      && TableAfter(map[], decls, PromptOf)[ToolNames[j]] == decls[j].1
  {
    CorrectedRegistersAll();
    var decls := PackageRegistrations(CorrectedArgs);
    LaterNamesDiffer(decls, j);
    LastWriteWins(map[], decls, HandlerOf, j);
    LastWriteWins(map[], decls, PromptOf, j);
  }

  /** The package import: the registrations run against the registry in order. */
  method ImportPackage(reg: ToolRegistry, args: ToolDecl -> nat)
    requires reg.Valid()
    modifies reg
    ensures reg.Valid()
    ensures reg.names == OrderAfter(old(reg.names), Names(PackageRegistrations(args)))
    ensures reg.handlers == TableAfter(old(reg.handlers), PackageRegistrations(args), HandlerOf)
    ensures reg.prompts == TableAfter(old(reg.prompts), PackageRegistrations(args), PromptOf)
  {
    var decls := PackageRegistrations(args);
    RegisterAll(reg, decls);
  }

  /** Running decorators in turn: each name joins the list at its first
      registration, and holds the handler and prompt of its last. */
  method RegisterAll(reg: ToolRegistry, decls: seq<ToolDecl>)
    requires reg.Valid()
    modifies reg
    ensures reg.Valid()
    ensures reg.names == OrderAfter(old(reg.names), Names(decls))
    ensures reg.handlers == TableAfter(old(reg.handlers), decls, HandlerOf)
    ensures reg.prompts == TableAfter(old(reg.prompts), decls, PromptOf)
    ensures forall i :: 0 <= i < |decls| ==> decls[i].0 in reg.handlers && decls[i].0 in reg.prompts
    ensures forall j :: 0 <= j < |decls| && (forall k :: j < k < |decls| ==> decls[k].0 != decls[j].0) ==>
      reg.handlers[decls[j].0] == decls[j].3 && reg.prompts[decls[j].0] == decls[j].1
  {
    ghost var start, h0, p0 := reg.names, reg.handlers, reg.prompts;
    for i := 0 to |decls|
      invariant reg.Valid()
      invariant reg.names == OrderAfter(start, Names(decls[..i]))
      invariant reg.handlers == TableAfter(h0, decls[..i], HandlerOf)
      invariant reg.prompts == TableAfter(p0, decls[..i], PromptOf)
    {
      RegisterNext(reg, decls, i, start, h0, p0);
    }
    assert decls[..|decls|] == decls;
    AllNamed(start, decls);
    forall j | 0 <= j < |decls| && (forall k :: j < k < |decls| ==> decls[k].0 != decls[j].0)
      ensures reg.handlers[decls[j].0] == decls[j].3 && reg.prompts[decls[j].0] == decls[j].1
    {
      LastWriteWins(h0, decls, HandlerOf, j);
      LastWriteWins(p0, decls, PromptOf, j);
    }
  }

  /** The decorator of the `i`-th declaration runs. */
  method RegisterNext(reg: ToolRegistry, decls: seq<ToolDecl>, i: nat,
                      ghost start: seq<string>, ghost h0: map<string, Handler>, ghost p0: map<string, string>)
    requires reg.Valid() && i < |decls|
    requires reg.names == OrderAfter(start, Names(decls[..i]))
    requires reg.handlers == TableAfter(h0, decls[..i], HandlerOf)
    requires reg.prompts == TableAfter(p0, decls[..i], PromptOf)
    modifies reg
    ensures reg.Valid()
    ensures reg.names == OrderAfter(start, Names(decls[..i + 1]))
    ensures reg.handlers == TableAfter(h0, decls[..i + 1], HandlerOf)
    ensures reg.prompts == TableAfter(p0, decls[..i + 1], PromptOf)
  {
    var d := decls[i];
    ghost var before := reg.names;
    var _ := reg.Register(d.0, Some(d.1), d.3);
    RegisterStep(start, decls, i, before, reg.names);
    TableStep(h0, decls, HandlerOf, i);
    TableStep(p0, decls, PromptOf, i);
  }

  /** Every declared name is in the key order after the registrations. */
  lemma AllNamed(start: seq<string>, decls: seq<ToolDecl>)
    requires NoDuplicates(start)
    ensures forall i :: 0 <= i < |decls| ==> decls[i].0 in OrderAfter(start, Names(decls))
  {
    OrderAfterSpec(start, Names(decls));
  }

  /** One more decorator run extends the key order by its name. */
  lemma RegisterStep(start: seq<string>, decls: seq<ToolDecl>, i: nat, before: seq<string>, after: seq<string>)
    requires i < |decls|
    requires before == OrderAfter(start, Names(decls[..i]))
    requires after == AppendNew(before, decls[i].0)
    ensures after == OrderAfter(start, Names(decls[..i + 1]))
  {
    NamesStep(decls, i);
    OrderStep(start, Names(decls[..i]), decls[i].0);
  }

  lemma NamesStep(decls: seq<ToolDecl>, i: nat)
    requires i < |decls|
    ensures Names(decls[..i + 1]) == Names(decls[..i]) + [decls[i].0]
  {
    var a := Names(decls[..i + 1]);
    var b := Names(decls[..i]) + [decls[i].0];
    assert |a| == |b|;
    forall k | 0 <= k < |a| ensures a[k] == b[k] {
      if k < i {
        assert decls[..i + 1][k] == decls[..i][k];
      }
    }
  }

  lemma OrderStep(names: seq<string>, calls: seq<string>, name: string)
    ensures OrderAfter(names, calls + [name]) == AppendNew(OrderAfter(names, calls), name)
  {
    OrderSplit(names, calls, [name]);
    assert [name][1..] == [];
  }
}
