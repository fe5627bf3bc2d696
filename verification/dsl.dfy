/** The declaration DSL (`materialize`, `link`, `use_model`, `after_upsert`,
    `after_destroy`) as an interpreter over an explicit stack of insertion
    scopes. The stack holds paths into the root mapping, so appending to the
    top scope mutates the tree every other holder sees, as the shared Ruby
    arrays do. */
module Dsl {
  import opened Ruby
  import opened MappingTree

  /** Record-level options: target model class and the two hook names. */
  datatype Options = Options(
    modelClass: Option<string>,
    afterUpsert: Option<string>,
    afterDestroy: Option<string>)

  /** Build-time state of one declaring class: the root mapping, the scope
      stack and the options. */
  datatype Builder = Builder(mapping: seq<Node>, stack: seq<Path>, options: Options)

  /** The state right after the module is included: an empty root mapping,
      a stack holding only the root, no options set. */
  const Fresh: Builder := Builder([], [[]], Options(None, None, None))

  /** One DSL call. `link key do ... end` is `Open(key)`, the block's calls,
      then `Close`. */
  datatype Command =
    | Materialize(key: string, alias: Option<string>)
    | Open(key: string)
    | Close
    | UseModel(klass: string)
    | AfterUpsert(name: string)
    | AfterDestroy(name: string)

  /** The root stays at the bottom of the stack and every entry names a scope. */
  ghost predicate Valid(b: Builder)
  {
    && |b.stack| > 0
    && b.stack[0] == []
    && forall j :: 0 <= j < |b.stack| ==> IsScope(b.mapping, b.stack[j])
  }

  /** The current insertion scope, `stack.last`. */
  function Top(b: Builder): Path
    requires |b.stack| > 0
  {
    b.stack[|b.stack| - 1]
  }

  /** `stack.last << n`. */
  function Append(b: Builder, n: Node): (r: Builder)
    requires Valid(b)
    ensures Valid(r)
    ensures r.stack == b.stack && r.options == b.options
    ensures r.mapping == Replace(b.mapping, Top(b), Scope(b.mapping, Top(b)) + [n])
  {
    var p := Top(b);
    var s := Scope(b.mapping, p) + [n];
    var r := b.(mapping := Replace(b.mapping, p, s));
    assert Valid(r) by {
      forall j | 0 <= j < |b.stack|
        ensures IsScope(r.mapping, b.stack[j])
      {
        GrowKeepsScope(b.mapping, p, s, b.stack[j]);
      }
    }
    r
  }

  /** Executes one DSL call; `None` for a `Close` with only the root left,
      which a Ruby block can never produce. */
  function Step(b: Builder, c: Command): (r: Option<Builder>)
    requires Valid(b)
    ensures r.Some? ==> Valid(r.value)
    ensures r.None? <==> c.Close? && |b.stack| == 1
    ensures c.Materialize? ==>
              && r.Some? && r.value.stack == b.stack && r.value.options == b.options
              && r.value.mapping ==
                 Replace(b.mapping, Top(b),
                         Scope(b.mapping, Top(b)) + [Field(c.key, if c.alias.Some? then c.alias.value else c.key)])
    ensures c.Open? ==>
              && r.Some? && r.value.options == b.options
              && r.value.mapping ==
                 Replace(b.mapping, Top(b), Scope(b.mapping, Top(b)) + [Link(c.key, [])])
              && r.value.stack == b.stack + [Top(b) + [|Scope(b.mapping, Top(b))|]]
              && Scope(r.value.mapping, Top(r.value)) == []
    ensures c.Close? && r.Some? ==>
              r.value == b.(stack := b.stack[..|b.stack| - 1])
    ensures c.UseModel? || c.AfterUpsert? || c.AfterDestroy? ==>
              r.Some? && r.value.mapping == b.mapping && r.value.stack == b.stack
    ensures c.UseModel? ==> r.Some? && r.value.options == b.options.(modelClass := Some(c.klass))
    ensures c.AfterUpsert? ==> r.Some? && r.value.options == b.options.(afterUpsert := Some(c.name))
    ensures c.AfterDestroy? ==> r.Some? && r.value.options == b.options.(afterDestroy := Some(c.name))
  {
    match c
    case Materialize(key, alias) =>
      Some(Append(b, Field(key, alias.OrElse(key))))
    case Open(key) =>
      var p := Top(b);
      var i := |Scope(b.mapping, p)|;
      var b1 := Append(b, Link(key, []));
      ScopeExtend(b1.mapping, p, i);
      var r := b1.(stack := b1.stack + [p + [i]]);
      assert Top(r) == p + [i];
      Some(r)
    case Close =>
      if |b.stack| == 1 then None
      else Some(b.(stack := b.stack[..|b.stack| - 1]))
    case UseModel(klass) =>
      Some(b.(options := b.options.(modelClass := Some(klass))))
    case AfterUpsert(name) =>
      Some(b.(options := b.options.(afterUpsert := Some(name))))
    case AfterDestroy(name) =>
      Some(b.(options := b.options.(afterDestroy := Some(name))))
  }

  /** Executes a sequence of DSL calls in order; `None` once one is ill-bracketed. */
  function Run(b: Builder, cmds: seq<Command>): (r: Option<Builder>)
    requires Valid(b)
    ensures r.Some? ==> Valid(r.value)
    decreases |cmds|
  {
    if cmds == [] then Some(b)
    else
      match Step(b, cmds[0])
      case None => None
      case Some(b1) => Run(b1, cmds[1..])
  }

  /** Once a prefix of calls has run to `b1`, the rest runs from `b1`. */
  lemma {:induction false} RunAppend(b: Builder, xs: seq<Command>, ys: seq<Command>, b1: Builder)
    requires Valid(b) && Run(b, xs) == Some(b1)
    ensures Valid(b1) && Run(b, xs + ys) == Run(b1, ys)
    decreases |xs|
  {
    if xs == [] {
      assert xs + ys == ys;
    } else {
      assert (xs + ys)[0] == xs[0];
      assert (xs + ys)[1..] == xs[1..] + ys;
      RunAppend(Step(b, xs[0]).value, xs[1..], ys, b1);
    }
  }

  /** A declaration as written in the class body: Ruby's block nesting. */
  datatype Decl =
    | DeclareField(key: string, alias: Option<string>)
    | DeclareLink(key: string, body: seq<Decl>)
    | DeclareModel(klass: string)
    | DeclareAfterUpsert(name: string)
    | DeclareAfterDestroy(name: string)

  /** Scopes pushed minus scopes popped by a run of calls. */
  function Depth(cmds: seq<Command>): int
  {
    if cmds == [] then 0
    else (if cmds[0].Open? then 1 else if cmds[0].Close? then -1 else 0) + Depth(cmds[1..])
  }

  lemma {:induction false} DepthAppend(xs: seq<Command>, ys: seq<Command>)
    ensures Depth(xs + ys) == Depth(xs) + Depth(ys)
    decreases |xs|
  {
    if xs == [] {
      assert xs + ys == ys;
    } else {
      assert (xs + ys)[0] == xs[0];
      assert (xs + ys)[1..] == xs[1..] + ys;
      DepthAppend(xs[1..], ys);
    }
  }

  /** The DSL calls a declaration block performs, in order; a `link` call
      pushes before its block runs and pops after it returns. */
  function Emit(ds: seq<Decl>): seq<Command>
  {
    if ds == [] then []
    else
      (match ds[0]
       case DeclareField(k, a) => [Materialize(k, a)]
       case DeclareLink(k, body) => [Open(k)] + Emit(body) + [Close]
       case DeclareModel(m) => [UseModel(m)]
       case DeclareAfterUpsert(n) => [AfterUpsert(n)]
       case DeclareAfterDestroy(n) => [AfterDestroy(n)])
      + Emit(ds[1..])
  }

  /** Every declaration block pops exactly as many scopes as it pushes. */
  lemma {:induction false} EmitBalanced(ds: seq<Decl>)
    ensures Depth(Emit(ds)) == 0
    decreases ds
  {
    if ds != [] {
      var tail := Emit(ds[1..]);
      EmitBalanced(ds[1..]);
      match ds[0]
      case DeclareLink(k, body) =>
        EmitBalanced(body);
        DepthAppend([Open(k)], Emit(body));
        DepthAppend([Open(k)] + Emit(body), [Close]);
        DepthAppend([Open(k)] + Emit(body) + [Close], tail);
      case _ =>
        assert |Emit([ds[0]])| == 1 && Emit([ds[0]])[1..] == [] by {
          assert [ds[0]][1..] == [];
        }
        assert Emit(ds) == Emit([ds[0]]) + tail by {
          assert [ds[0]][1..] == [];
        }
        DepthAppend(Emit([ds[0]]), tail);
    }
  }

  /** The intended tree: each field declaration becomes a field node with the
      key as default alias, each link a link node over its own block's tree. */
  function Tree(ds: seq<Decl>): seq<Node>
  {
    if ds == [] then []
    else
      (match ds[0]
       case DeclareField(k, a) => [Field(k, a.OrElse(k))]
       case DeclareLink(k, body) => [Link(k, Tree(body))]
       case _ => [])
      + Tree(ds[1..])
  }

  /** The options after the declarations, nested ones included: last write wins. */
  function Configure(o: Options, ds: seq<Decl>): Options
    decreases ds
  {
    if ds == [] then o
    else
      var o1 :=
        match ds[0]
        case DeclareField(_, _) => o
        case DeclareLink(_, body) => Configure(o, body)
        case DeclareModel(m) => o.(modelClass := Some(m))
        case DeclareAfterUpsert(n) => o.(afterUpsert := Some(n))
        case DeclareAfterDestroy(n) => o.(afterDestroy := Some(n));
      Configure(o1, ds[1..])
  }

  /** A block's calls, tree and options split at its first declaration. */
  lemma SplitFirst(o: Options, ds: seq<Decl>)
    requires ds != []
    ensures Emit(ds) == Emit([ds[0]]) + Emit(ds[1..])
    ensures Tree(ds) == Tree([ds[0]]) + Tree(ds[1..])
    ensures Configure(o, ds) == Configure(Configure(o, [ds[0]]), ds[1..])
  {
    assert [ds[0]][1..] == [];
  }

  /** Running a declaration block from any valid state appends the block's tree
      to the current scope and to nothing else, and leaves the stack exactly as
      it found it. */
  lemma {:induction false} EmitRuns(b: Builder, ds: seq<Decl>)
    requires Valid(b)
    ensures Run(b, Emit(ds)) ==
            Some(Builder(
              Replace(b.mapping, Top(b), Scope(b.mapping, Top(b)) + Tree(ds)),
              b.stack,
              Configure(b.options, ds)))
    decreases ds, 1
  {
    if ds == [] {
      var p := Top(b);
      var s := Scope(b.mapping, p);
      assert Replace(b.mapping, p, s + Tree(ds)) == b.mapping by {
        assert s + [] == s;
        ReplaceSame(b.mapping, p);
      }
      assert Emit(ds) == [] && Configure(b.options, ds) == b.options;
    } else {
      ConsRuns(b, ds);
    }
  }

  /** The step of `EmitRuns` for a non-empty block: its first declaration,
      then the rest from where that one left the builder. */
  lemma {:induction false} ConsRuns(b: Builder, ds: seq<Decl>)
    requires Valid(b) && ds != []
    ensures Run(b, Emit(ds)) ==
            Some(Builder(
              Replace(b.mapping, Top(b), Scope(b.mapping, Top(b)) + Tree(ds)),
              b.stack,
              Configure(b.options, ds)))
    decreases ds, 0
  {
    var p := Top(b);
    var rest := ds[1..];
    var b1 := HeadRuns(b, ds[0]);
    SplitFirst(b.options, ds);
    RunAppend(b, Emit([ds[0]]), Emit(rest), b1);
    EmitRuns(b1, rest);
    AppendTwice(b.mapping, p, Tree([ds[0]]), Tree(rest));
  }

  /** The effect of the calls one declaration performs. */
  lemma {:induction false} HeadRuns(b: Builder, d: Decl) returns (b1: Builder)
    requires Valid(b)
    ensures Run(b, Emit([d])) == Some(b1)
    ensures b1 == Builder(
              Replace(b.mapping, Top(b), Scope(b.mapping, Top(b)) + Tree([d])),
              b.stack,
              Configure(b.options, [d]))
    decreases d, 2
  {
    var p := Top(b);
    var s := Scope(b.mapping, p);
    assert [d][1..] == [];
    match d
    case DeclareLink(k, body) =>
      b1 := LinkRuns(b, k, body);
      assert Tree([d]) == [Link(k, Tree(body))];
      assert Configure(b.options, [d]) == Configure(Configure(b.options, body), []);
    case DeclareField(k, a) =>
      assert Emit([d]) == [Materialize(k, a)];
      b1 := Step(b, Materialize(k, a)).value;
      assert Run(b, [Materialize(k, a)]) == Run(b1, []);
      assert Tree([d]) == [Field(k, a.OrElse(k))];
    case _ =>
      assert |Emit([d])| == 1;
      b1 := Step(b, Emit([d])[0]).value;
      assert Run(b, Emit([d])) == Run(b1, []);
      assert Tree([d]) == [];
      assert s + [] == s;
      ReplaceSame(b.mapping, p);
  }

  /** `link key do body end`: the new link node is appended to the current
      scope, every declaration of the block lands in that link's children and
      nowhere else, and on normal return the stack is exactly as before. */
  lemma {:induction false} LinkRuns(b: Builder, k: string, body: seq<Decl>) returns (b1: Builder)
    requires Valid(b)
    ensures Run(b, Emit([DeclareLink(k, body)])) == Some(b1)
    ensures b1 == Builder(
              Replace(b.mapping, Top(b), Scope(b.mapping, Top(b)) + [Link(k, Tree(body))]),
              b.stack,
              Configure(b.options, body))
    decreases body, 3
  {
    var p := Top(b);
    var s := Scope(b.mapping, p);
    var d := DeclareLink(k, body);
    assert [d][1..] == [];
    assert Emit([d]) == [Open(k)] + (Emit(body) + [Close]);
    var bo := Step(b, Open(k)).value;
    assert Run(b, [Open(k)]) == Run(bo, []);
    RunAppend(b, [Open(k)], Emit(body) + [Close], bo);
    var q := p + [|s|];
    assert Top(bo) == q;
    EmitRuns(bo, body);
    assert [] + Tree(body) == Tree(body);
    var inner := Replace(bo.mapping, q, Tree(body));
    var bc := Builder(inner, bo.stack, Configure(b.options, body));
    assert Run(bo, Emit(body)) == Some(bc);
    RunAppend(bo, Emit(body), [Close], bc);
    ReplaceChild(bo.mapping, p, |s|, Tree(body));
    assert (s + [Link(k, [])])[|s| := Link(k, Tree(body))] == s + [Link(k, Tree(body))];
    ReplaceTwice(b.mapping, p, s + [Link(k, [])], s + [Link(k, Tree(body))]);
    assert bc.stack[..|bc.stack| - 1] == b.stack;
    b1 := Builder(inner, b.stack, Configure(b.options, body));
    assert Run(bc, [Close]) == Run(b1, []);
  }

  /** A whole class body run from the freshly included state: the root mapping
      is exactly the declared tree, the stack is back to the root alone, and the
      options hold the last value written for each. */
  lemma Declare(ds: seq<Decl>)
    ensures Run(Fresh, Emit(ds)) == Some(Builder(Tree(ds), [[]], Configure(Fresh.options, ds)))
  {
    EmitRuns(Fresh, ds);
    assert [] + Tree(ds) == Tree(ds);
  }
}
