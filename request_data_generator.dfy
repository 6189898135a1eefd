/** `RequestDataGenerator`: one generated request per parsed endpoint, remembered under
    the key `method-path` so that later calls for the same endpoint return it again. */
module RequestData {
  import opened Wrappers
  import opened JsonSchema
  import opened OpenApi
  import opened Generators

  /** `GeneratedRequest`; an undefined `body` is `None`. */
  datatype GeneratedRequest = GeneratedRequest(
    path: string, httpMethod: string, parameters: map<string, Value>, body: Option<Value>)

  /** The template `${endpoint.method}-${endpoint.path}`. */
  function CacheKey(e: ParsedEndpoint): string {
    e.httpMethod + "-" + e.path
  }

  /** A parameter gets a value when its schema is present and not a boolean schema. */
  predicate HasValueSchema(p: Parameter) {
    p.schema.Some? && p.schema.value.Node?
  }

  function GeneratedNames(ps: seq<Parameter>): (names: set<string>)
    ensures forall k :: k in names <==> exists i :: 0 <= i < |ps| && ps[i].name == k && HasValueSchema(ps[i])
  {
    if ps == [] then {}
    else
      var rest := GeneratedNames(ps[..|ps| - 1]);
      var last := ps[|ps| - 1];
      assert forall i :: 0 <= i < |ps| - 1 ==> ps[..|ps| - 1][i] == ps[i];
      if HasValueSchema(last) then rest + {last.name} else rest
  }

  /** The schema the body is generated from: the `application/json` media type's schema,
      when it is present and not a boolean schema. */
  function BodySchema(e: ParsedEndpoint): Option<Schema> {
    if e.requestBody.Some? && "application/json" in e.requestBody.value.content then
      var media := e.requestBody.value.content["application/json"];
      if media.schema.Some? && media.schema.value.Node? then Some(media.schema.value.schema) else None
    else None
  }

  function BodyRequired(e: ParsedEndpoint): Option<bool> {
    if e.requestBody.Some? then e.requestBody.value.required else None
  }

  /** A generated request fits its endpoint: the path and method are copied, there is one
      parameter value per parameter with a schema, each conforming to a parameter of that
      name, and a body exactly when there is a body schema, conforming to it. */
  ghost predicate FitsEndpoint(r: GeneratedRequest, e: ParsedEndpoint) {
    r.path == e.path && r.httpMethod == e.httpMethod
    && r.parameters.Keys == GeneratedNames(e.parameters)
    && (forall k :: k in r.parameters ==> ParameterValueFits(r.parameters[k], k, e.parameters))
    && (r.body.Some? <==> BodySchema(e).Some?)
    && (r.body.Some? ==> Conforms(r.body.value, BodySchema(e).value))
  }

  /** The value under `k` conforms to the schema of some parameter named `k`. The loop of
      `generateRequestData` writes the last such parameter's value over earlier ones; that
      last-wins rule is not stated, so for duplicate names this says less than the source. */
  ghost predicate ParameterValueFits(v: Value, k: string, ps: seq<Parameter>) {
    exists i :: 0 <= i < |ps| && ps[i].name == k && HasValueSchema(ps[i]) && Conforms(v, ps[i].schema.value.schema)
  }

  /** Endpoints whose synthesis cannot fail. */
  ghost predicate EndpointSupported(e: ParsedEndpoint) {
    (forall i :: 0 <= i < |e.parameters| && HasValueSchema(e.parameters[i])
       ==> Supported(e.parameters[i].schema.value.schema))
    && (BodySchema(e).Some? ==> Supported(BodySchema(e).value))
  }

  class RequestDataGenerator {
    const parser: OpenApiParser
    var cache: map<string, GeneratedRequest>

    /** Every cached request fits the endpoint it was generated for; the key is kept with
        the endpoint it came from. */
    ghost var origin: map<string, ParsedEndpoint>

    ghost predicate Valid()
      reads this
    {
      CacheFits(cache, origin)
    }

    constructor ()
      ensures Valid() && fresh(parser) && cache == map[]
      ensures parser.cache == map[] && parser.spec.None?
    {
      parser := new OpenApiParser();
      cache := map[];
      origin := map[];
    }

    /** `initialize(specUrl)` */
    method Initialize(specUrl: string, response: Result<Document>) returns (r: Result<()>)
      modifies parser
      ensures specUrl in old(parser.cache) ==> r.Ok? && parser.spec == Some(old(parser.cache)[specUrl])
      ensures specUrl !in old(parser.cache) && response.Ok? ==>
                r.Ok? && parser.spec == Some(response.value)
      ensures specUrl !in old(parser.cache) && response.Err? ==>
                r == Err("Failed to fetch OpenAPI spec: " + response.error)
    {
      r := parser.FetchAndParseSpec(specUrl, response);
    }

    /** `generateRequestData(endpoint)` */
    method GenerateRequestData(endpoint: ParsedEndpoint) returns (r: Result<GeneratedRequest>)
      requires Valid()
      modifies this
      ensures Valid()
      ensures CacheKey(endpoint) in old(cache) ==> r == Ok(old(cache)[CacheKey(endpoint)]) && cache == old(cache)
      ensures CacheKey(endpoint) !in old(cache) && r.Ok? ==>
                FitsEndpoint(r.value, endpoint) && cache == old(cache)[CacheKey(endpoint) := r.value]
      ensures CacheKey(endpoint) !in old(cache) && EndpointSupported(endpoint) ==> r.Ok?
      ensures r.Err? ==> cache == old(cache)
      ensures r.Ok? ==> CacheKey(endpoint) in cache && cache[CacheKey(endpoint)] == r.value
      ensures Keeps(old(cache), cache)
    {
      var key := CacheKey(endpoint);
      if key in cache {
        return Ok(cache[key]);
      }
      var params := GenerateParameters(endpoint.parameters);
      if params.Err? {
        return Err(params.error);
      }
      var body: Option<Value> := None;
      var bodySchema := BodySchema(endpoint);
      if bodySchema.Some? {
        var v := Synthesize(GeneratorOptions(bodySchema.value, BodyRequired(endpoint), None));
        if v.Err? {
          return Err(v.error);
        }
        body := Some(v.value);
      }
      var request := GeneratedRequest(endpoint.path, endpoint.httpMethod, params.value, body);
      assert FitsEndpoint(request, endpoint);
      StoreFits(cache, origin, endpoint, request);
      cache := cache[key := request];
      origin := origin[key := endpoint];
      return Ok(request);
    }

    /** `generateAllRequests()`: `getEndpoints().map(generateRequestData)`. */
    method GenerateAllRequests() returns (r: Result<seq<GeneratedRequest>>)
      requires Valid()
      modifies this
      ensures Valid()
      ensures parser.spec.None? ==> r == Err("OpenAPI spec not loaded") && cache == old(cache)
      ensures r.Ok? ==> parser.spec.Some? && |r.value| == |EndpointsOf(parser.spec.value.paths)|
                        && Answers(EndpointsOf(parser.spec.value.paths), r.value, cache)
      ensures Keeps(old(cache), cache)
    {
      var endpoints := parser.GetEndpoints();
      if endpoints.Err? {
        return Err(endpoints.error);
      }
      var es := endpoints.value;
      var requests: seq<GeneratedRequest> := [];
      var i := 0;
      while i < |es|
        invariant 0 <= i <= |es| && |requests| == i
        invariant Valid()
        invariant Keeps(old(cache), cache)
        invariant Answers(es, requests, cache)
      {
        ghost var before := cache;
        var req := GenerateRequestData(es[i]);
        if req.Err? {
          return Err(req.error);
        }
        KeepsTransitive(old(cache), before, cache);
        AnswersKept(es, requests, before, cache);
        AnswersExtend(es, requests, cache, req.value);
        requests := requests + [req.value];
        i := i + 1;
      }
      return Ok(requests);
    }

    /** The check of `RequestDataGenerator.test.ts`: two successive calls agree on their
        first request; in fact on every request. */
    method RepeatedRequestsAgree() returns (first: Result<seq<GeneratedRequest>>, second: Result<seq<GeneratedRequest>>)
      requires Valid()
      modifies this
      ensures first.Ok? && second.Ok? ==> first.value == second.value
      ensures first.Ok? && first.value != [] && second.Ok? ==> first.value[0] == second.value[0]
    {
      first := GenerateAllRequests();
      second := GenerateAllRequests();
    }
  }

  /** Every cached request fits the endpoint its key was built from. */
  ghost predicate CacheFits(cache: map<string, GeneratedRequest>, origin: map<string, ParsedEndpoint>) {
    cache.Keys == origin.Keys
    && forall k :: k in origin ==> CacheKey(origin[k]) == k && FitsEndpoint(cache[k], origin[k])
  }

  /** Storing a fitting request under a fresh key keeps the cache fitting and loses nothing. */
  lemma StoreFits(cache: map<string, GeneratedRequest>, origin: map<string, ParsedEndpoint>,
                  e: ParsedEndpoint, r: GeneratedRequest)
    requires CacheFits(cache, origin) && CacheKey(e) !in cache && FitsEndpoint(r, e)
    ensures CacheFits(cache[CacheKey(e) := r], origin[CacheKey(e) := e])
    ensures Keeps(cache, cache[CacheKey(e) := r])
  {
  }

  /** Every entry of `before` is still in `after`, unchanged. */
  ghost predicate Keeps(before: map<string, GeneratedRequest>, after: map<string, GeneratedRequest>) {
    before.Keys <= after.Keys && forall k :: k in before ==> after[k] == before[k]
  }

  /** The `j`-th request is the one cached for the `j`-th endpoint. */
  ghost predicate Answers(es: seq<ParsedEndpoint>, rs: seq<GeneratedRequest>, c: map<string, GeneratedRequest>) {
    |rs| <= |es| && forall j :: 0 <= j < |rs| ==> CacheKey(es[j]) in c && c[CacheKey(es[j])] == rs[j]
  }

  lemma KeepsTransitive(a: map<string, GeneratedRequest>, b: map<string, GeneratedRequest>, c: map<string, GeneratedRequest>)
    requires Keeps(a, b) && Keeps(b, c)
    ensures Keeps(a, c)
  {
  }

  lemma AnswersKept(es: seq<ParsedEndpoint>, rs: seq<GeneratedRequest>, c: map<string, GeneratedRequest>, d: map<string, GeneratedRequest>)
    requires Answers(es, rs, c) && Keeps(c, d)
    ensures Answers(es, rs, d)
  {
  }

  lemma AnswersExtend(es: seq<ParsedEndpoint>, rs: seq<GeneratedRequest>, c: map<string, GeneratedRequest>, v: GeneratedRequest)
    requires Answers(es, rs, c) && |rs| < |es|
    requires CacheKey(es[|rs|]) in c && c[CacheKey(es[|rs|])] == v
    ensures Answers(es, rs + [v], c)
  {
    var n := rs + [v];
    forall j | 0 <= j < |n| ensures CacheKey(es[j]) in c && c[CacheKey(es[j])] == n[j] {
      if j < |rs| {
        assert n[j] == rs[j];
      }
    }
  }

  /** The parameter loop of `generateRequestData`. */
  method GenerateParameters(ps: seq<Parameter>) returns (r: Result<map<string, Value>>)
    ensures r.Ok? ==> r.value.Keys == GeneratedNames(ps)
    ensures r.Ok? ==> forall k :: k in r.value ==> ParameterValueFits(r.value[k], k, ps)
    ensures (forall i :: 0 <= i < |ps| && HasValueSchema(ps[i]) ==> Supported(ps[i].schema.value.schema)) ==> r.Ok?
  {
    var parameters: map<string, Value> := map[];
    var i := 0;
    while i < |ps|
      invariant 0 <= i <= |ps|
      invariant parameters.Keys == GeneratedNames(ps[..i])
      invariant forall k :: k in parameters ==> ParameterValueFits(parameters[k], k, ps)
    {
      var p := ps[i];
      assert ps[..i + 1][..i] == ps[..i];
      if HasValueSchema(p) {
        var v := Synthesize(GeneratorOptions(p.schema.value.schema, p.required, None));
        if v.Err? {
          return Err(v.error);
        }
        parameters := parameters[p.name := v.value];
      }
      i := i + 1;
    }
    assert ps[..i] == ps;
    return Ok(parameters);
  }
}
