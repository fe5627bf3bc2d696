/** The materialization engine: `perform(url, action)` upserts the record keyed
    by `url` from the flattened remote resource, or destroys it, and then runs
    the configured hook. The record store is a map from source URL to the
    record's attributes, and each hook run is appended to a log. */
module Materializer {
  import opened Ruby
  import opened MappingTree
  import opened Dsl
  import opened Resources
  import opened Flatten

  /** `materialist_options`: the root mapping and the record-level options. */
  datatype Config = Config(mapping: seq<Node>, options: Options)

  /** The action of an incoming event; only `Delete` is told apart. */
  datatype Action = Create | Update | Delete | Noop

  /** A persisted record: its `source_url` and its attribute values. */
  datatype Record = Record(sourceUrl: Url, attrs: Attrs)

  /** One run of a hook method, with the record it was given. */
  datatype Hook = Hook(name: string, record: Record)

  /** The record store, one record per source URL, and the hooks run so far. */
  datatype State = State(store: map<Url, Attrs>, log: seq<Hook>)

  /** What the persistence layer accepts: which attribute sets pass `save!`
      validation and which records `destroy!` may remove. */
  datatype Persistence = Persistence(valid: Attrs -> bool, destroyable: Attrs -> bool)

  /** The state after a call and what the call returned or raised. */
  datatype Outcome = Outcome(state: State, result: Result<Option<Record>, Error>)

  /** A record saved by `upsert_record`, and the store that holds it. */
  datatype Saved = Saved(store: map<Url, Attrs>, record: Record)

  /** `options.fetch(:model_class)`: raises when no model was declared. */
  function ModelClass(o: Options): (r: Result<string, Error>)
    ensures r.Success? <==> o.modelClass.Some?
    ensures r.Success? ==> r.value == o.modelClass.value
    ensures r.Failure? ==> r.error == MissingModelClass
  {
    match o.modelClass
    case Some(m) => Success(m)
    case None => Failure(MissingModelClass)
  }

  /** `attributes`: the root is fetched without tolerating not-found, then flattened. */
  function Attributes(cfg: Config, g: Graph, url: Url): (r: Result<Attrs, Error>)
    ensures r.Failure? <==> url !in g
    ensures r.Failure? ==> r.error == ResourceNotFound(url)
    ensures r.Success? ==> r.value == Build(g, Some(g[url]), cfg.mapping)
  {
    match ResourceAt(g, url, false)
    case Failure(e) => Failure(e)
    case Success(root) => Success(Build(g, root, cfg.mapping))
  }

  /** `find_or_initialize_by(source_url: url)`, seen through its attributes:
      the stored ones, or none for a fresh record. */
  function FindOrInitialize(store: map<Url, Attrs>, url: Url): (r: Attrs)
    ensures url in store ==> r == store[url]
    ensures url !in store ==> |r| == 0
  {
    if url in store then store[url] else map[]
  }

  /** The hook run for an optional hook name: one entry if configured, none otherwise. */
  function HookRun(name: Option<string>, rec: Record): (r: seq<Hook>)
    ensures |r| == (if name.Some? then 1 else 0)
    ensures name.Some? ==> r[0] == Hook(name.value, rec)
  {
    match name
    case Some(n) => [Hook(n, rec)]
    case None => []
  }

  /** `upsert_record`: find or initialize the record for `url`, assign the
      flattened attributes over its current ones, and `save!` it. */
  function UpsertRecord(cfg: Config, g: Graph, p: Persistence, store: map<Url, Attrs>, url: Url)
    : (r: Result<Saved, Error>)
    ensures cfg.options.modelClass.None? ==> r == Failure(MissingModelClass)
    ensures cfg.options.modelClass.Some? && url !in g ==> r == Failure(ResourceNotFound(url))
    ensures cfg.options.modelClass.Some? && url in g ==>
              var merged := FindOrInitialize(store, url) + Build(g, Some(g[url]), cfg.mapping);
              (r.Success? <==> p.valid(merged)) && (r.Failure? ==> r.error == RecordInvalid(url)) &&
              (r.Success? ==> r.value == Saved(store[url := merged], Record(url, merged)))
    ensures r.Success? ==>
              && url in g
              && r.value.record.sourceUrl == url
              && r.value.store == store[url := r.value.record.attrs]
    ensures r.Success? ==>
              var attrs := Build(g, Some(g[url]), cfg.mapping);
              var before := FindOrInitialize(store, url);
              && r.value.record.attrs.Keys == before.Keys + attrs.Keys
              && (forall a :: a in attrs ==> r.value.record.attrs[a] == attrs[a])
              && (forall a :: a in before && a !in attrs ==> r.value.record.attrs[a] == before[a])
  {
    match ModelClass(cfg.options)
    case Failure(e) => Failure(e)
    case Success(_) =>
      var before := FindOrInitialize(store, url);
      match Attributes(cfg, g, url)
      case Failure(e) => Failure(e)
      case Success(attrs) =>
        var merged := before + attrs;
        if p.valid(merged) then Success(Saved(store[url := merged], Record(url, merged)))
        else Failure(RecordInvalid(url))
  }

  /** `upsert`: save the record, then run the after-upsert hook once if one is
      configured. Any failure leaves the store and the log as they were. */
  function Upsert(cfg: Config, g: Graph, p: Persistence, st: State, url: Url): (r: Outcome)
    ensures r.result.Failure? ==> r.state == st
    ensures cfg.options.modelClass.None? ==> r.result == Failure(MissingModelClass)
    ensures cfg.options.modelClass.Some? && url !in g ==> r.result == Failure(ResourceNotFound(url))
    ensures r.result.Success? ==>
              && url in g
              && r.result.value.Some?
              && r.result.value.value.sourceUrl == url
              && r.state.store.Keys == st.store.Keys + {url}
              && r.state.store[url] == r.result.value.value.attrs
              && (forall u :: u in st.store && u != url ==> r.state.store[u] == st.store[u])
              && (forall a :: a in Build(g, Some(g[url]), cfg.mapping) ==>
                    a in r.state.store[url] && r.state.store[url][a] == Build(g, Some(g[url]), cfg.mapping)[a])
              && r.state.log == st.log + HookRun(cfg.options.afterUpsert, r.result.value.value)
    ensures cfg.options.modelClass.Some? && url in g ==>
              var merged := FindOrInitialize(st.store, url) + Build(g, Some(g[url]), cfg.mapping);
              var rec := Record(url, merged);
              if p.valid(merged) then
                r == Outcome(State(st.store[url := merged], st.log + HookRun(cfg.options.afterUpsert, rec)),
                             Success(Some(rec)))
              else r == Outcome(st, Failure(RecordInvalid(url)))
  {
    match UpsertRecord(cfg, g, p, st.store, url)
    case Failure(e) => Outcome(st, Failure(e))
    case Success(saved) =>
      Outcome(State(saved.store, st.log + HookRun(cfg.options.afterUpsert, saved.record)),
              Success(Some(saved.record)))
  }

  /** `destroy`: find the record for `url`; if there is none, do nothing and
      return nil; otherwise `destroy!` it and run the after-destroy hook once
      if one is configured. */
  function Destroy(cfg: Config, p: Persistence, st: State, url: Url): (r: Outcome)
    ensures r.result.Failure? ==> r.state == st
    ensures cfg.options.modelClass.None? ==> r.result == Failure(MissingModelClass)
    ensures cfg.options.modelClass.Some? && url !in st.store ==> r == Outcome(st, Success(None))
    ensures cfg.options.modelClass.Some? && url in st.store ==>
              (r.result.Success? <==> p.destroyable(st.store[url])) &&
              (r.result.Failure? ==> r.result.error == RecordNotDestroyed(url))
    ensures r.result.Success? && url in st.store ==>
              var rec := Record(url, st.store[url]);
              && r.result.value == Some(rec)
              && r.state.store == st.store - {url}
              && r.state.log == st.log + HookRun(cfg.options.afterDestroy, rec)
  {
    match ModelClass(cfg.options)
    case Failure(e) => Outcome(st, Failure(e))
    case Success(_) =>
      if url !in st.store then Outcome(st, Success(None))
      else
        var rec := Record(url, st.store[url]);
        if p.destroyable(rec.attrs) then
          Outcome(State(st.store - {url}, st.log + HookRun(cfg.options.afterDestroy, rec)),
                  Success(Some(rec)))
        else Outcome(st, Failure(RecordNotDestroyed(url)))
  }

  /** `perform(url, action)`: a delete event destroys, every other event upserts.
      The contract gives the outcome of every case outright. */
  function Perform(cfg: Config, g: Graph, p: Persistence, st: State, url: Url, action: Action): (r: Outcome)
    ensures r.result.Failure? ==> r.state == st
    ensures cfg.options.modelClass.None? ==> r == Outcome(st, Failure(MissingModelClass))
    ensures action.Delete? && r.result.Success? ==>
              url !in r.state.store && r.state.store == st.store - {url}
    ensures !action.Delete? && r.result.Success? ==>
              url in r.state.store && r.state.store.Keys == st.store.Keys + {url}
    ensures action.Delete? ==> r.result != Failure(ResourceNotFound(url))
    ensures action.Delete? && cfg.options.modelClass.Some? && url !in st.store ==>
              r == Outcome(st, Success(None))
    ensures action.Delete? && cfg.options.modelClass.Some? && url in st.store ==>
              var rec := Record(url, st.store[url]);
              if p.destroyable(rec.attrs) then
                r == Outcome(State(st.store - {url}, st.log + HookRun(cfg.options.afterDestroy, rec)),
                             Success(Some(rec)))
              else r == Outcome(st, Failure(RecordNotDestroyed(url)))
    ensures !action.Delete? && cfg.options.modelClass.Some? && url !in g ==>
              r == Outcome(st, Failure(ResourceNotFound(url)))
    ensures !action.Delete? && cfg.options.modelClass.Some? && url in g ==>
              var merged := FindOrInitialize(st.store, url) + Build(g, Some(g[url]), cfg.mapping);
              var rec := Record(url, merged);
              if p.valid(merged) then
                r == Outcome(State(st.store[url := merged], st.log + HookRun(cfg.options.afterUpsert, rec)),
                             Success(Some(rec)))
              else r == Outcome(st, Failure(RecordInvalid(url)))
  {
    if action == Delete then Destroy(cfg, p, st, url) else Upsert(cfg, g, p, st, url)
  }

  /** A successful upsert had a model class and a valid merged record. */
  lemma UpsertSucceeded(cfg: Config, g: Graph, p: Persistence, st: State, url: Url)
    requires Upsert(cfg, g, p, st, url).result.Success?
    ensures cfg.options.modelClass.Some? && url in g
    ensures p.valid(FindOrInitialize(st.store, url) + Build(g, Some(g[url]), cfg.mapping))
  {
  }

  /** The outcome of an upsert whose merged record is valid. */
  lemma UpsertSaves(cfg: Config, g: Graph, p: Persistence, st: State, url: Url, merged: Attrs)
    requires cfg.options.modelClass.Some? && url in g
    requires merged == FindOrInitialize(st.store, url) + Build(g, Some(g[url]), cfg.mapping)
    requires p.valid(merged)
    ensures Upsert(cfg, g, p, st, url) ==
            Outcome(State(st.store[url := merged], st.log + HookRun(cfg.options.afterUpsert, Record(url, merged))),
                    Success(Some(Record(url, merged))))
  {
  }

  /** Upserting again, from any graph whose root flattens to the same
      attributes, keeps the store as the first upsert left it and returns the
      same record; only the hook runs again. */
  lemma UpsertIdempotent(cfg: Config, g1: Graph, g2: Graph, p: Persistence, st: State, url: Url)
    requires Upsert(cfg, g1, p, st, url).result.Success?
    requires url in g1 && url in g2
    requires Build(g2, Some(g2[url]), cfg.mapping) == Build(g1, Some(g1[url]), cfg.mapping)
    ensures var first := Upsert(cfg, g1, p, st, url);
            var second := Upsert(cfg, g2, p, first.state, url);
            && second.result == first.result
            && second.state.store == first.state.store
            && second.state.log == first.state.log + HookRun(cfg.options.afterUpsert, first.result.value.value)
  {
    var attrs := Build(g1, Some(g1[url]), cfg.mapping);
    var merged := FindOrInitialize(st.store, url) + attrs;
    var rec := Record(url, merged);
    var st1 := State(st.store[url := merged], st.log + HookRun(cfg.options.afterUpsert, rec));
    UpsertSucceeded(cfg, g1, p, st, url);
    UpsertSaves(cfg, g1, p, st, url, merged);
    MergeAbsorbs(FindOrInitialize(st.store, url), attrs);
    UpsertSaves(cfg, g2, p, st1, url, merged);
    WriteBack(st1.store, url);
  }

  /** Merging the same hash a second time changes nothing. */
  lemma MergeAbsorbs(a: Attrs, b: Attrs)
    ensures (a + b) + b == a + b
  {
  }

  /** Writing back the value a store already holds leaves it as it was. */
  lemma WriteBack(m: map<Url, Attrs>, k: Url)
    requires k in m
    ensures m[k := m[k]] == m
  {
  }

  /** Destroying again after a successful destroy is a no-op returning nil
      that runs no hook. */
  lemma DestroyIdempotent(cfg: Config, p: Persistence, st: State, url: Url)
    requires Destroy(cfg, p, st, url).result.Success?
    ensures var first := Destroy(cfg, p, st, url);
            Destroy(cfg, p, first.state, url) == Outcome(first.state, Success(None))
  {
  }

  /** Absent, upserted, destroyed: the store is back where it started and the
      record that was destroyed is the one the upsert saved. */
  lemma UpsertThenDestroy(cfg: Config, g: Graph, p: Persistence, st: State, url: Url)
    requires url !in st.store
    requires Upsert(cfg, g, p, st, url).result.Success?
    requires p.destroyable(Upsert(cfg, g, p, st, url).result.value.value.attrs)
    ensures var up := Upsert(cfg, g, p, st, url);
            var down := Destroy(cfg, p, up.state, url);
            && down.result == up.result
            && down.state.store == st.store
  {
  }

  /** A delete event never fetches: its outcome is the same whatever the graph.
      This holds because `Destroy` takes no graph at all, as `destroy` calls
      neither `attributes` nor `resource_at`; the proof is that signature. */
  lemma DeleteIgnoresGraph(cfg: Config, g1: Graph, g2: Graph, p: Persistence, st: State, url: Url)
    ensures Perform(cfg, g1, p, st, url, Delete) == Perform(cfg, g2, p, st, url, Delete)
  {
  }
}
