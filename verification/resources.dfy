/** The remote side as the engine sees it: HATEOAS resources (a JSON body plus
    named links) reachable by URL, and the failures that escape the engine. */
module Resources {
  import opened Ruby

  type Url = string

  /** A JSON value of a resource body; numbers are kept as integers. */
  datatype Json =
    | JNull
    | JBool(b: bool)
    | JNumber(n: int)
    | JString(s: string)
    | JArray(items: seq<Json>)
    | JObject(members: map<string, Json>)

  /** A fetched resource: its body fields and its `_links` relations. */
  datatype Resource = Resource(body: map<string, Json>, links: map<string, Url>)

  /** What the API client can fetch; a URL outside the map is not found. */
  type Graph = map<Url, Resource>

  /** A flat attribute hash, local attribute name to value. */
  type Attrs = map<string, Json>

  /** Exceptions that escape the engine: a root resource that is not found, a
      declaration without `use_model` (`options.fetch` raising), and the two
      persistence failures of `save!` and `destroy!`. */
  datatype Error =
    | ResourceNotFound(url: Url)
    | MissingModelClass
    | RecordInvalid(url: Url)
    | RecordNotDestroyed(url: Url)

  /** `resource_at(url, allow_nil:)`: the resource, or nil for a missing one
      when `allowNil`, or a raised not-found otherwise. */
  function ResourceAt(g: Graph, url: Url, allowNil: bool): (r: Result<Option<Resource>, Error>)
    ensures r.Failure? <==> url !in g && !allowNil
    ensures r.Failure? ==> r.error == ResourceNotFound(url)
    ensures r.Success? ==> (r.value.Some? <==> url in g)
    ensures r.Success? && r.value.Some? ==> r.value.value == g[url]
  {
    if url in g then Success(Some(g[url]))
    else if allowNil then Success(None)
    else Failure(ResourceNotFound(url))
  }

  /** `body[key]`: the field's value, or null when the body lacks it. */
  function Lookup(body: map<string, Json>, key: string): (r: Json)
    ensures key in body ==> r == body[key]
    ensures key !in body ==> r == JNull
  {
    if key in body then body[key] else JNull
  }
}
