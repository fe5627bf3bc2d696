/** Worked examples: a declared mapping with one renamed
    field and one followed link, flattened and materialized against small
    concrete resource graphs. */
module Scenarios {
  import opened Ruby
  import opened MappingTree
  import opened Dsl
  import opened Resources
  import opened Flatten
  import opened Materializer

  /** `materialize :name, as: :full_name` and `link :owner do materialize :id, as: :owner_id end`. */
  const WidgetDecls: seq<Decl> :=
    [DeclareField("name", Some("full_name")),
     DeclareLink("owner", [DeclareField("id", Some("owner_id"))]),
     DeclareModel("widget")]

  const WidgetUrl: Url := "http://x/widgets/1"
  const OwnerUrl: Url := "http://x/owners/1"

  const Widget: Resource := Resource(map["name" := JString("Widget")], map["owner" := OwnerUrl])
  const Owner: Resource := Resource(map["id" := JNumber(42)], map[])

  /** The tree the Widget class body declares. */
  lemma WidgetTree()
    ensures Tree(WidgetDecls) == [Field("name", "full_name"), Link("owner", [Field("id", "owner_id")])]
  {
    assert WidgetDecls[1..] == [WidgetDecls[1], WidgetDecls[2]];
    assert WidgetDecls[1..][1..] == [WidgetDecls[2]];
    assert [WidgetDecls[2]][1..] == [];
    var inner := [DeclareField("id", Some("owner_id"))];
    assert inner[1..] == [];
    assert Tree(inner) == [Field("id", "owner_id")];
    assert Tree([WidgetDecls[2]]) == [];
    assert Tree(WidgetDecls[1..]) == [Link("owner", [Field("id", "owner_id")])];
  }

  /** Running the class body yields the nested tree, the root-only stack and the model option. */
  lemma WidgetDeclares()
    ensures Run(Fresh, Emit(WidgetDecls)) ==
            Some(Builder(
              [Field("name", "full_name"), Link("owner", [Field("id", "owner_id")])],
              [[]],
              Options(Some("widget"), None, None)))
  {
    Declare(WidgetDecls);
    WidgetTree();
    assert Configure(Fresh.options, WidgetDecls) == Options(Some("widget"), None, None) by {
      assert WidgetDecls[1..] == [WidgetDecls[1], WidgetDecls[2]];
      assert WidgetDecls[1..][1..] == [WidgetDecls[2]];
      assert [WidgetDecls[2]][1..] == [];
      var inner := [DeclareField("id", Some("owner_id"))];
      assert inner[1..] == [];
      assert Configure(Fresh.options, inner) == Fresh.options;
      assert Configure(Fresh.options, [WidgetDecls[2]]) == Options(Some("widget"), None, None);
      assert Configure(Fresh.options, WidgetDecls[1..]) == Options(Some("widget"), None, None);
    }
  }

  const Both: Graph := map[WidgetUrl := Widget, OwnerUrl := Owner]

  /** The owner link resolves, and its one field gives `owner_id`. */
  lemma OwnerLinkFlattens()
    ensures Build(Both, Some(Widget), [Link("owner", [Field("id", "owner_id")])]) == map["owner_id" := JNumber(42)]
  {
    var owned := map["owner_id" := JNumber(42)];
    assert ResourceAt(Both, Widget.links["owner"], true) == Success(Some(Owner)) by {
      assert Widget.links["owner"] == OwnerUrl && OwnerUrl in Both && Both[OwnerUrl] == Owner;
    }
    assert Build(Both, Some(Owner), [Field("id", "owner_id")]) == owned by {
      BuildSingle(Both, Owner, Field("id", "owner_id"));
      assert Lookup(Owner.body, "id") == JNumber(42);
    }
    BuildSingle(Both, Widget, Link("owner", [Field("id", "owner_id")]));
    assert map[] + owned == owned;
  }

  /** Two sibling nodes flatten to the merge of what each gives alone. */
  lemma BuildPair(g: Graph, res: Resource, n0: Node, n1: Node, a0: Attrs, a1: Attrs)
    requires Build(g, Some(res), [n0]) == a0 && Build(g, Some(res), [n1]) == a1
    ensures Build(g, Some(res), [n0, n1]) == a0 + a1
  {
    assert [n0] + [n1] == [n0, n1];
    BuildAppend(g, res, [n0], [n1]);
  }

  /** Both resources found: the renamed field and the field of the linked owner. */
  lemma WidgetWithOwner()
    ensures Build(Both, Some(Widget), Tree(WidgetDecls)) ==
            map["full_name" := JString("Widget"), "owner_id" := JNumber(42)]
  {
    var n0 := Field("name", "full_name");
    var n1 := Link("owner", [Field("id", "owner_id")]);
    var a0 := map["full_name" := JString("Widget")];
    var a1 := map["owner_id" := JNumber(42)];
    WidgetTree();
    assert Build(Both, Some(Widget), [n0]) == a0 by {
      BuildSingle(Both, Widget, n0);
    }
    OwnerLinkFlattens();
    BuildPair(Both, Widget, n0, n1, a0, a1);
    assert "full_name" != "owner_id" by {
      assert "full_name"[0] != "owner_id"[0];
    }
    MergeSingletons("full_name", JString("Widget"), "owner_id", JNumber(42));
  }

  /** Two one-entry hashes with distinct keys merge into the two-entry hash. */
  lemma MergeSingletons(k0: string, v0: Json, k1: string, v1: Json)
    requires k0 != k1
    ensures map[k0 := v0] + map[k1 := v1] == map[k0 := v0, k1 := v1]
  {
  }

  /** The root has no `owner` link: only the renamed field, no `owner_id` key. */
  lemma WidgetWithoutOwner()
    ensures Build(map[WidgetUrl := Widget.(links := map[])], Some(Widget.(links := map[])), Tree(WidgetDecls)) ==
            map["full_name" := JString("Widget")]
  {
    var w := Widget.(links := map[]);
    var g := map[WidgetUrl := w];
    var nodes := [Field("name", "full_name"), Link("owner", [Field("id", "owner_id")])];
    WidgetTree();
    AbsentLinkSkipped(g, w, [nodes[0]], "owner", [Field("id", "owner_id")], []);
    assert [nodes[0]] + [nodes[1]] + [] == nodes;
    assert [nodes[0]] + [] == [nodes[0]];
    BuildSingle(g, w, nodes[0]);
  }

  /** Upserting a URL whose root is not found raises and creates or changes no record. */
  lemma UpsertOfMissingRoot(p: Persistence, st: State)
    ensures Perform(Config(Tree(WidgetDecls), Options(Some("widget"), None, None)), map[], p, st, WidgetUrl, Update) ==
            Outcome(st, Failure(ResourceNotFound(WidgetUrl)))
  {
  }

  /** Deleting an existing record removes it and runs the after-destroy hook
      exactly once, with the deleted record. */
  lemma DeleteRunsHookOnce(p: Persistence, attrs: Attrs)
    requires p.destroyable(attrs)
    ensures var cfg := Config(Tree(WidgetDecls), Options(Some("widget"), None, Some("notify")));
            var r := Perform(cfg, map[], p, State(map[WidgetUrl := attrs], []), WidgetUrl, Delete);
            r == Outcome(State(map[], [Hook("notify", Record(WidgetUrl, attrs))]), Success(Some(Record(WidgetUrl, attrs))))
  {
  }
}
