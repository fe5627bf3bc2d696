/** `build_attributes`: resolving a mapping tree against a resource graph into
    one flat attribute hash, by a left fold over the sibling nodes in declared
    order with a right-biased merge for each followed link. */
module Flatten {
  import opened Ruby
  import opened MappingTree
  import opened Resources

  /** `build_attributes(resource, mapping)`: `{}` for a nil resource, otherwise
      the fold of `nodes` from an empty hash. */
  function Build(g: Graph, res: Option<Resource>, nodes: seq<Node>): (r: Attrs)
    ensures res.None? ==> r == map[]
    ensures r.Keys <= Aliases(nodes)
    decreases nodes, 2
  {
    if res.None? then map[] else Fold(g, res.value, map[], nodes)
  }

  /** `nodes.inject(acc) { ... }` against the fetched resource `res`. */
  function Fold(g: Graph, res: Resource, acc: Attrs, nodes: seq<Node>): (r: Attrs)
    ensures r.Keys <= acc.Keys + Aliases(nodes)
    ensures forall a :: a in acc && a !in Aliases(nodes) ==> a in r && r[a] == acc[a]
    decreases nodes, 0
  {
    if nodes == [] then acc
    else Fold(g, res, Apply(g, res, acc, nodes[0]), nodes[1..])
  }

  /** The block of the fold for one node: a field stores its body value under
      its alias; a link absent from `_links` leaves the hash alone; a present
      link is fetched tolerating not-found, flattened, and merged over the hash. */
  function Apply(g: Graph, res: Resource, acc: Attrs, n: Node): (r: Attrs)
    ensures r.Keys <= acc.Keys + NodeAliases(n)
    ensures forall a :: a in acc && a !in NodeAliases(n) ==> a in r && r[a] == acc[a]
    decreases n, 1
  {
    match n
    case Field(key, alias) => acc[alias := Lookup(res.body, key)]
    case Link(key, children) =>
      if key in res.links then
        acc + Build(g, ResourceAt(g, res.links[key], true).value, children)
      else acc
  }

  /** Aliases of the fields reached through links that are present and resolve:
      the attribute names flattening can produce, independent of order. */
  function Reachable(g: Graph, res: Resource, nodes: seq<Node>): set<string>
    decreases nodes, 1
  {
    if nodes == [] then {} else ReachableNode(g, res, nodes[0]) + Reachable(g, res, nodes[1..])
  }

  function ReachableNode(g: Graph, res: Resource, n: Node): set<string>
    decreases n, 0
  {
    match n
    case Field(_, alias) => {alias}
    case Link(key, children) =>
      if key in res.links && res.links[key] in g then Reachable(g, g[res.links[key]], children)
      else {}
  }

  /** URLs whose lookup flattening performs: the targets of present links, and
      those consulted below the targets that resolve. */
  function Consulted(g: Graph, res: Resource, nodes: seq<Node>): set<Url>
    decreases nodes, 1
  {
    if nodes == [] then {} else ConsultedNode(g, res, nodes[0]) + Consulted(g, res, nodes[1..])
  }

  function ConsultedNode(g: Graph, res: Resource, n: Node): set<Url>
    decreases n, 0
  {
    match n
    case Field(_, _) => {}
    case Link(key, children) =>
      if key !in res.links then {}
      else
        var u := res.links[key];
        {u} + (if u in g then Consulted(g, g[u], children) else {})
  }

  /** Two graphs that answer alike for every URL in `us`. */
  ghost predicate Agree(g1: Graph, g2: Graph, us: set<Url>)
  {
    forall u :: u in us ==> (u in g1 <==> u in g2) && (u in g1 ==> g1[u] == g2[u])
  }

  /** One node's step merges its own contribution over whatever came before. */
  lemma ApplyOverrides(g: Graph, res: Resource, acc: Attrs, n: Node)
    ensures Apply(g, res, acc, n) == acc + Apply(g, res, map[], n)
  {
    match n
    case Field(k, a) =>
      assert acc[a := Lookup(res.body, k)] == acc + map[a := Lookup(res.body, k)];
    case Link(k, ch) =>
      if k in res.links {
        var b := Build(g, ResourceAt(g, res.links[k], true).value, ch);
        assert map[] + b == b;
      } else {
        assert acc + map[] == acc;
      }
  }

  lemma MergeAssoc(a: Attrs, b: Attrs, c: Attrs)
    ensures (a + b) + c == a + (b + c)
  {
  }

  /** Flattening a single node against a found resource is that node's step from `{}`. */
  lemma BuildSingle(g: Graph, res: Resource, n: Node)
    ensures Build(g, Some(res), [n]) == Apply(g, res, map[], n)
  {
    assert [n][1..] == [];
  }

  /** Folding from any hash is the hash overridden by the fold from `{}`. */
  lemma {:induction false} FoldOverrides(g: Graph, res: Resource, acc: Attrs, nodes: seq<Node>)
    ensures Fold(g, res, acc, nodes) == acc + Fold(g, res, map[], nodes)
    decreases nodes
  {
    if nodes == [] {
      assert acc + map[] == acc;
    } else {
      var n := nodes[0];
      var rest := nodes[1..];
      var a0 := Apply(g, res, map[], n);
      var tail := Fold(g, res, map[], rest);
      assert Fold(g, res, acc, nodes) == (acc + a0) + tail by {
        ApplyOverrides(g, res, acc, n);
        FoldOverrides(g, res, Apply(g, res, acc, n), rest);
      }
      assert Fold(g, res, map[], nodes) == a0 + tail by {
        FoldOverrides(g, res, a0, rest);
      }
      MergeAssoc(acc, a0, tail);
    }
  }

  /** Folding a concatenation folds the second part from the first's result. */
  lemma {:induction false} FoldAppend(g: Graph, res: Resource, acc: Attrs, xs: seq<Node>, ys: seq<Node>)
    ensures Fold(g, res, acc, xs + ys) == Fold(g, res, Fold(g, res, acc, xs), ys)
    decreases xs
  {
    if xs == [] {
      assert xs + ys == ys;
    } else {
      assert (xs + ys)[0] == xs[0];
      assert (xs + ys)[1..] == xs[1..] + ys;
      FoldAppend(g, res, Apply(g, res, acc, xs[0]), xs[1..], ys);
    }
  }

  /** Flattening two runs of siblings is the right-biased merge of flattening
      each: whatever the later run produces overrides the earlier one. */
  lemma {:induction false} BuildAppend(g: Graph, res: Resource, xs: seq<Node>, ys: seq<Node>)
    ensures Build(g, Some(res), xs + ys) == Build(g, Some(res), xs) + Build(g, Some(res), ys)
  {
    FoldAppend(g, res, map[], xs, ys);
    FoldOverrides(g, res, Fold(g, res, map[], xs), ys);
  }

  /** Order sensitivity: on an alias produced by both, the later siblings win;
      on any other alias the result is what the earlier siblings gave. */
  lemma {:induction false} LaterSiblingsWin(g: Graph, res: Resource, xs: seq<Node>, ys: seq<Node>, a: string)
    ensures a in Build(g, Some(res), ys) ==>
              a in Build(g, Some(res), xs + ys) &&
              Build(g, Some(res), xs + ys)[a] == Build(g, Some(res), ys)[a]
    ensures a !in Build(g, Some(res), ys) ==>
              (a in Build(g, Some(res), xs + ys) <==> a in Build(g, Some(res), xs)) &&
              (a in Build(g, Some(res), xs) ==> Build(g, Some(res), xs + ys)[a] == Build(g, Some(res), xs)[a])
  {
    BuildAppend(g, res, xs, ys);
  }

  /** A field declared last sets its alias to the body's value for its key,
      and to null, not an error, when the body has no such key. */
  lemma {:induction false} LastFieldSetsAlias(g: Graph, res: Resource, xs: seq<Node>, key: string, alias: string)
    ensures alias in Build(g, Some(res), xs + [Field(key, alias)])
    ensures key in res.body ==> Build(g, Some(res), xs + [Field(key, alias)])[alias] == res.body[key]
    ensures key !in res.body ==> Build(g, Some(res), xs + [Field(key, alias)])[alias] == JNull
  {
    BuildAppend(g, res, xs, [Field(key, alias)]);
    BuildSingle(g, res, Field(key, alias));
  }

  /** A node that flattens to `{}` on its own can be dropped from any position. */
  lemma {:induction false} SkipEmpty(g: Graph, res: Resource, xs: seq<Node>, n: Node, ys: seq<Node>)
    requires Build(g, Some(res), [n]) == map[]
    ensures Build(g, Some(res), xs + [n] + ys) == Build(g, Some(res), xs + ys)
  {
    var b := Build(g, Some(res), xs);
    assert Build(g, Some(res), xs + [n]) == b by {
      BuildAppend(g, res, xs, [n]);
      assert b + map[] == b;
    }
    BuildAppend(g, res, xs + [n], ys);
    BuildAppend(g, res, xs, ys);
  }

  /** A link that `_links` does not hold contributes nothing, whatever its children. */
  lemma {:induction false} AbsentLinkSkipped(g: Graph, res: Resource, xs: seq<Node>, key: string, children: seq<Node>, ys: seq<Node>)
    requires key !in res.links
    ensures Build(g, Some(res), xs + [Link(key, children)] + ys) == Build(g, Some(res), xs + ys)
  {
    assert Build(g, Some(res), [Link(key, children)]) == map[] by {
      BuildSingle(g, res, Link(key, children));
    }
    SkipEmpty(g, res, xs, Link(key, children), ys);
  }

  /** A link whose target is not found is fetched as nil and contributes `{}`
      rather than failing the flattening. */
  lemma {:induction false} NotFoundLinkSkipped(g: Graph, res: Resource, xs: seq<Node>, key: string, children: seq<Node>, ys: seq<Node>)
    requires key in res.links && res.links[key] !in g
    ensures ResourceAt(g, res.links[key], true) == Success(None)
    ensures Build(g, Some(res), xs + [Link(key, children)] + ys) == Build(g, Some(res), xs + ys)
  {
    assert Build(g, Some(res), [Link(key, children)]) == map[] by {
      BuildSingle(g, res, Link(key, children));
    }
    SkipEmpty(g, res, xs, Link(key, children), ys);
  }

  /** The attribute names flattening produces are exactly the aliases of the
      fields reached through present, resolving links. */
  lemma {:induction false} KeysAreReachable(g: Graph, res: Resource, nodes: seq<Node>)
    ensures Build(g, Some(res), nodes).Keys == Reachable(g, res, nodes)
    decreases nodes, 1
  {
    if nodes != [] {
      assert nodes == [nodes[0]] + nodes[1..];
      BuildAppend(g, res, [nodes[0]], nodes[1..]);
      NodeKeysAreReachable(g, res, nodes[0]);
      KeysAreReachable(g, res, nodes[1..]);
    }
  }

  lemma {:induction false} NodeKeysAreReachable(g: Graph, res: Resource, n: Node)
    ensures Build(g, Some(res), [n]).Keys == ReachableNode(g, res, n)
    decreases n, 0
  {
    BuildSingle(g, res, n);
    match n
    case Field(_, _) =>
    case Link(k, ch) =>
      if k in res.links && res.links[k] in g {
        KeysAreReachable(g, g[res.links[k]], ch);
      }
  }

  /** Flattening reads the graph only at the URLs it consults: graphs that agree
      there give the same attributes, so equal inputs give equal results. */
  lemma {:induction false} FoldIsLocal(g1: Graph, g2: Graph, res: Resource, acc: Attrs, nodes: seq<Node>)
    requires Agree(g1, g2, Consulted(g1, res, nodes))
    ensures Fold(g1, res, acc, nodes) == Fold(g2, res, acc, nodes)
    decreases nodes, 1
  {
    if nodes != [] {
      ApplyIsLocal(g1, g2, res, acc, nodes[0]);
      FoldIsLocal(g1, g2, res, Apply(g1, res, acc, nodes[0]), nodes[1..]);
    }
  }

  lemma {:induction false} ApplyIsLocal(g1: Graph, g2: Graph, res: Resource, acc: Attrs, n: Node)
    requires Agree(g1, g2, ConsultedNode(g1, res, n))
    ensures Apply(g1, res, acc, n) == Apply(g2, res, acc, n)
    decreases n, 0
  {
    match n
    case Field(_, _) =>
    case Link(k, ch) =>
      if k in res.links {
        var u := res.links[k];
        assert u in ConsultedNode(g1, res, n);
        if u in g1 {
          FoldIsLocal(g1, g2, g1[u], map[], ch);
        }
      }
  }

  /** `build_attributes` as the source writes it: an `inject` loop over the
      siblings, recursing for each present link. */
  method BuildAttributes(g: Graph, res: Option<Resource>, nodes: seq<Node>) returns (result: Attrs)
    ensures result == Build(g, res, nodes)
    decreases nodes
  {
    if res.None? {
      return map[];
    }
    var r := res.value;
    result := map[];
    var i := 0;
    while i < |nodes|
      invariant 0 <= i <= |nodes|
      invariant Fold(g, r, result, nodes[i..]) == Build(g, res, nodes)
      decreases |nodes| - i
    {
      assert nodes[i..][0] == nodes[i] && nodes[i..][1..] == nodes[i + 1..];
      match nodes[i] {
        case Field(key, alias) =>
          result := result[alias := Lookup(r.body, key)];
        case Link(key, children) =>
          if key in r.links {
            var target := ResourceAt(g, r.links[key], true);
            var sub := BuildAttributes(g, target.value, children);
            result := result + sub;
          }
      }
      i := i + 1;
    }
    assert nodes[i..] == [];
  }
}
