/** The mapping tree: which remote fields to copy and which links to follow.
    A tree is an ordered forest of `Node`s; an insertion scope inside it is
    addressed by a `Path`, the child indices of the links leading to it. */
module MappingTree {

  /** `FieldMapping` (copy `key` from the body into attribute `alias`) or
      `LinkMapping` (follow link `key` and flatten `children` against its target). */
  datatype Node =
    | Field(key: string, alias: string)
    | Link(key: string, children: seq<Node>)

  /** Child indices from the root sequence down to a nested children sequence. */
  type Path = seq<nat>

  /** Every field alias declared anywhere in `nodes`, whatever links resolve. */
  function Aliases(nodes: seq<Node>): set<string>
    decreases nodes, 1
  {
    if nodes == [] then {} else NodeAliases(nodes[0]) + Aliases(nodes[1..])
  }

  /** Every field alias declared in `n` or below it. */
  function NodeAliases(n: Node): set<string>
    decreases n, 0
  {
    match n
    case Field(_, a) => {a}
    case Link(_, ch) => Aliases(ch)
  }

  /** `path` leads through links only and so names a children sequence of `nodes`. */
  predicate IsScope(nodes: seq<Node>, path: Path)
    decreases path
  {
    path == [] ||
    (path[0] < |nodes| && nodes[path[0]].Link? && IsScope(nodes[path[0]].children, path[1..]))
  }

  /** The children sequence that `path` names. */
  function Scope(nodes: seq<Node>, path: Path): seq<Node>
    requires IsScope(nodes, path)
    decreases path
  {
    if path == [] then nodes else Scope(nodes[path[0]].children, path[1..])
  }

  /** `nodes` with the scope at `path` replaced by `s`: the effect of mutating that
      children array in place, which every holder of a reference observes. */
  function Replace(nodes: seq<Node>, path: Path, s: seq<Node>): (r: seq<Node>)
    requires IsScope(nodes, path)
    ensures IsScope(r, path) && Scope(r, path) == s
    ensures path != [] ==> |r| == |nodes|
    decreases path
  {
    if path == [] then s
    else
      var n := nodes[path[0]];
      nodes[path[0] := Link(n.key, Replace(n.children, path[1..], s))]
  }

  /** A scope one level below `p` exists exactly when `p` holds a link at index `j`. */
  lemma {:induction false} ScopeExtend(nodes: seq<Node>, p: Path, j: nat)
    ensures IsScope(nodes, p + [j]) <==>
              IsScope(nodes, p) && j < |Scope(nodes, p)| && Scope(nodes, p)[j].Link?
    ensures IsScope(nodes, p + [j]) ==> Scope(nodes, p + [j]) == Scope(nodes, p)[j].children
    decreases p
  {
    if p == [] {
      assert p + [j] == [j];
      assert [j][1..] == [];
    } else {
      assert (p + [j])[0] == p[0];
      assert (p + [j])[1..] == p[1..] + [j];
      if p[0] < |nodes| && nodes[p[0]].Link? {
        ScopeExtend(nodes[p[0]].children, p[1..], j);
      }
    }
  }

  /** Replacing a scope by itself changes nothing. */
  lemma {:induction false} ReplaceSame(nodes: seq<Node>, p: Path)
    requires IsScope(nodes, p)
    ensures Replace(nodes, p, Scope(nodes, p)) == nodes
    decreases p
  {
    if p != [] {
      ReplaceSame(nodes[p[0]].children, p[1..]);
    }
  }

  /** A second replacement at the same scope overrides the first. */
  lemma {:induction false} ReplaceTwice(nodes: seq<Node>, p: Path, s: seq<Node>, t: seq<Node>)
    requires IsScope(nodes, p)
    ensures Replace(Replace(nodes, p, s), p, t) == Replace(nodes, p, t)
    decreases p
  {
    if p != [] {
      ReplaceTwice(nodes[p[0]].children, p[1..], s, t);
    }
  }

  /** Appending `t` to a scope and then `u` is appending `t + u` at once. */
  lemma AppendTwice(nodes: seq<Node>, p: Path, t: seq<Node>, u: seq<Node>)
    requires IsScope(nodes, p)
    ensures Replace(Replace(nodes, p, Scope(nodes, p) + t), p, Scope(nodes, p) + t + u) ==
            Replace(nodes, p, Scope(nodes, p) + (t + u))
  {
    ReplaceTwice(nodes, p, Scope(nodes, p) + t, Scope(nodes, p) + t + u);
    assert Scope(nodes, p) + t + u == Scope(nodes, p) + (t + u);
  }

  /** Replacing the children of the link at index `j` of scope `p` is a
      replacement of scope `p` in which only that link's children differ. */
  lemma {:induction false} ReplaceChild(nodes: seq<Node>, p: Path, j: nat, x: seq<Node>)
    requires IsScope(nodes, p + [j])
    ensures IsScope(nodes, p) && j < |Scope(nodes, p)| && Scope(nodes, p)[j].Link?
    ensures Replace(nodes, p + [j], x) ==
            Replace(nodes, p, Scope(nodes, p)[j := Link(Scope(nodes, p)[j].key, x)])
    decreases p
  {
    ScopeExtend(nodes, p, j);
    if p == [] {
      assert p + [j] == [j];
      assert [j][1..] == [];
    } else {
      assert (p + [j])[0] == p[0];
      assert (p + [j])[1..] == p[1..] + [j];
      ReplaceChild(nodes[p[0]].children, p[1..], j, x);
    }
  }

  /** Growing one scope (its old content stays a prefix) keeps every other
      scope reachable: appending to a children array never detaches a link. */
  lemma {:induction false} GrowKeepsScope(nodes: seq<Node>, p: Path, s: seq<Node>, q: Path)
    requires IsScope(nodes, p) && IsScope(nodes, q)
    requires Scope(nodes, p) <= s
    ensures IsScope(Replace(nodes, p, s), q)
    decreases p
  {
    var r := Replace(nodes, p, s);
    if q == [] {
    } else if p == [] {
      assert r[q[0]] == nodes[q[0]];
    } else if q[0] != p[0] {
      assert r[q[0]] == nodes[q[0]];
    } else {
      GrowKeepsScope(nodes[p[0]].children, p[1..], s, q[1..]);
    }
  }
}
