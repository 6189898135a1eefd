/** `OpenAPIParser`: a URL-keyed cache of fetched OpenAPI 3 documents and the flattening
    of a document's `paths` into one endpoint record per (path, method). The HTTP request
    is an oracle: its outcome is an argument of the call that would perform it. */
module OpenApi {
  import opened Wrappers
  import opened JsonSchema
  import Text
  import Stats

  /** An OpenAPI parameter object, with the fields the synthesizer reads. */
  datatype Parameter = Parameter(
    name: string, location: string, required: Option<bool>, schema: Option<SchemaEntry>)

  datatype MediaType = MediaType(schema: Option<SchemaEntry>)

  datatype RequestBody = RequestBody(required: Option<bool>, content: map<string, MediaType>)

  datatype Response = Response(description: string, content: map<string, MediaType>)

  datatype Operation = Operation(
    parameters: Option<seq<Parameter>>, requestBody: Option<RequestBody>, responses: map<string, Response>)

  /** A path item: its own parameters and its operations keyed by lower-case method;
      a method whose operation is absent or falsy has no key. */
  datatype PathItem = PathItem(parameters: Option<seq<Parameter>>, operations: map<string, Operation>)

  /** One entry of `paths`; a falsy path item is `None`. */
  datatype PathEntry = PathEntry(path: string, item: Option<PathItem>)

  /** The `paths` object in document order (path keys start with `/`, so `Object.entries`
      keeps insertion order). */
  datatype Document = Document(paths: seq<PathEntry>)

  /** `ParsedEndpoint` */
  datatype ParsedEndpoint = ParsedEndpoint(
    path: string, httpMethod: string, parameters: seq<Parameter>,
    requestBody: Option<RequestBody>, responses: map<string, Response>)

  /** The methods visited, in the order they are visited. */
  const HttpMethods: seq<string> := ["get", "post", "put", "delete", "patch"]

  function ParamsOr(p: Option<seq<Parameter>>): seq<Parameter> {
    if p.Some? then p.value else []
  }

  /** The record pushed for a present operation: the method upper-cased and the
      path-level parameters followed by the operation-level ones, with no deduplication. */
  function MakeEndpoint(path: string, item: PathItem, m: string): (e: ParsedEndpoint)
    requires m in item.operations
    ensures e.path == path && e.httpMethod == Text.ToUpper(m)
    ensures e.parameters == ParamsOr(item.parameters) + ParamsOr(item.operations[m].parameters)
    ensures |e.parameters| == |ParamsOr(item.parameters)| + |ParamsOr(item.operations[m].parameters)|
    ensures e.requestBody == item.operations[m].requestBody
    ensures e.responses == item.operations[m].responses
  {
    var op := item.operations[m];
    ParsedEndpoint(path, Text.ToUpper(m), ParamsOr(item.parameters) + ParamsOr(op.parameters),
                   op.requestBody, op.responses)
  }

  /** The endpoints of one path item for the methods `ms`, in that order. */
  function MethodEndpoints(path: string, item: PathItem, ms: seq<string>): seq<ParsedEndpoint> {
    if ms == [] then []
    else
      var last := ms[|ms| - 1];
      MethodEndpoints(path, item, ms[..|ms| - 1])
        + (if last in item.operations then [MakeEndpoint(path, item, last)] else [])
  }

  function PathEndpoints(e: PathEntry): seq<ParsedEndpoint> {
    if e.item.None? then [] else MethodEndpoints(e.path, e.item.value, HttpMethods)
  }

  /** The endpoints of the given path entries: document order, then method order. */
  function EndpointsOf(paths: seq<PathEntry>): seq<ParsedEndpoint> {
    if paths == [] then [] else EndpointsOf(paths[..|paths| - 1]) + PathEndpoints(paths[|paths| - 1])
  }

  /** The inner loop of `getEndpoints()`: one `push` per present method, in the order of
      the five methods. */
  method PushMethodEndpoints(endpoints: seq<ParsedEndpoint>, path: string, item: PathItem)
    returns (next: seq<ParsedEndpoint>)
    ensures next == endpoints + MethodEndpoints(path, item, HttpMethods)
  {
    next := endpoints;
    var j := 0;
    while j < |HttpMethods|
      invariant 0 <= j <= |HttpMethods|
      invariant next == endpoints + MethodEndpoints(path, item, HttpMethods[..j])
    {
      var m := HttpMethods[j];
      assert HttpMethods[..j + 1][..j] == HttpMethods[..j];
      if m in item.operations {
        next := next + [MakeEndpoint(path, item, m)];
      }
      j := j + 1;
    }
    assert HttpMethods[..j] == HttpMethods;
  }

  class OpenApiParser {
    var cache: map<string, Document>
    var spec: Option<Document>
    /** The URLs actually requested, oldest first. */
    ghost var fetched: seq<string>

    constructor ()
      ensures cache == map[] && spec.None? && fetched == []
    {
      cache := map[];
      spec := None;
      fetched := [];
    }

    /** `fetchAndParseSpec(url)`; `response` is what `axios.get(url)` would yield. */
    method FetchAndParseSpec(url: string, response: Result<Document>) returns (r: Result<()>)
      modifies this
      ensures url in old(cache) ==> r.Ok? && spec == Some(old(cache)[url])
                                    && cache == old(cache) && fetched == old(fetched)
      ensures url !in old(cache) ==> fetched == old(fetched) + [url]
      ensures url !in old(cache) && response.Ok? ==>
                r.Ok? && spec == Some(response.value) && cache == old(cache)[url := response.value]
      ensures url !in old(cache) && response.Err? ==>
                r == Err("Failed to fetch OpenAPI spec: " + response.error)
                && spec == old(spec) && cache == old(cache)
    {
      if url in cache {
        spec := Some(cache[url]);
        return Ok(());
      }
      fetched := fetched + [url];
      if response.Err? {
        return Err("Failed to fetch OpenAPI spec: " + response.error);
      }
      spec := Some(response.value);
      cache := cache[url := response.value];
      return Ok(());
    }

    /** `getEndpoints()`: the loop over the paths, each present path item handed to the
        inner loop `PushMethodEndpoints`. */
    method GetEndpoints() returns (r: Result<seq<ParsedEndpoint>>)
      ensures spec.None? ==> r == Err("OpenAPI spec not loaded")
      ensures spec.Some? ==> r == Ok(EndpointsOf(spec.value.paths))
    {
      if spec.None? {
        return Err("OpenAPI spec not loaded");
      }
      var paths := spec.value.paths;
      var endpoints: seq<ParsedEndpoint> := [];
      var i := 0;
      while i < |paths|
        invariant 0 <= i <= |paths|
        invariant endpoints == EndpointsOf(paths[..i])
      {
        var entry := paths[i];
        assert paths[..i + 1][..i] == paths[..i];
        if entry.item.Some? {
          endpoints := PushMethodEndpoints(endpoints, entry.path, entry.item.value);
        }
        i := i + 1;
      }
      assert paths[..i] == paths;
      return Ok(endpoints);
    }
  }

  // ------------------------------------------------------------------
  // What the flattening promises

  /** Every endpoint of a path item comes from one of the listed methods that is present. */
  lemma {:induction false} MethodEndpointsSound(path: string, item: PathItem, ms: seq<string>, k: nat)
    requires k < |MethodEndpoints(path, item, ms)|
    ensures exists j :: 0 <= j < |ms| && ms[j] in item.operations
                        && MethodEndpoints(path, item, ms)[k] == MakeEndpoint(path, item, ms[j])
  {
    var prefix := ms[..|ms| - 1];
    var front := MethodEndpoints(path, item, prefix);
    if k < |front| {
      MethodEndpointsSound(path, item, prefix, k);
      var j :| 0 <= j < |prefix| && prefix[j] in item.operations
               && front[k] == MakeEndpoint(path, item, prefix[j]);
      assert ms[j] == prefix[j];
    } else {
      assert MethodEndpoints(path, item, ms)[k] == MakeEndpoint(path, item, ms[|ms| - 1]);
    }
  }

  /** Every listed method that is present yields its endpoint. */
  lemma {:induction false} MethodEndpointsComplete(path: string, item: PathItem, ms: seq<string>, j: nat)
    requires j < |ms| && ms[j] in item.operations
    ensures MakeEndpoint(path, item, ms[j]) in MethodEndpoints(path, item, ms)
  {
    var prefix := ms[..|ms| - 1];
    if j < |prefix| {
      assert ms[j] == prefix[j];
      MethodEndpointsComplete(path, item, prefix, j);
    }
  }

  /** A path item yields exactly one endpoint per listed method that is present. */
  lemma {:induction false} MethodEndpointsCount(path: string, item: PathItem, ms: seq<string>)
    ensures |MethodEndpoints(path, item, ms)| == Stats.Count(ms, m => m in item.operations)
  {
    if ms != [] {
      var prefix := ms[..|ms| - 1];
      MethodEndpointsCount(path, item, prefix);
      assert ms == prefix + [ms[|ms| - 1]];
      Stats.CountAppend(prefix, ms[|ms| - 1], m => m in item.operations);
    }
  }

  /** The number of methods of `HttpMethods` that a path entry defines. */
  function PresentMethods(e: PathEntry): nat {
    if e.item.None? then 0 else Stats.Count(HttpMethods, m => m in e.item.value.operations)
  }

  function TotalPresent(paths: seq<PathEntry>): nat {
    if paths == [] then 0 else TotalPresent(paths[..|paths| - 1]) + PresentMethods(paths[|paths| - 1])
  }

  /** Exactly one endpoint per present (path, method): a falsy path item or one with
      none of the five methods contributes nothing. */
  lemma {:induction false} EndpointsCount(paths: seq<PathEntry>)
    ensures |EndpointsOf(paths)| == TotalPresent(paths)
  {
    if paths != [] {
      var e := paths[|paths| - 1];
      EndpointsCount(paths[..|paths| - 1]);
      if e.item.Some? {
        MethodEndpointsCount(e.path, e.item.value, HttpMethods);
      }
    }
  }

  /** Every endpoint is the record of a present method of some path entry. */
  lemma {:induction false} EndpointsSound(paths: seq<PathEntry>, k: nat)
    requires k < |EndpointsOf(paths)|
    ensures exists i, j :: 0 <= i < |paths| && 0 <= j < |HttpMethods| && paths[i].item.Some?
              && HttpMethods[j] in paths[i].item.value.operations
              && EndpointsOf(paths)[k] == MakeEndpoint(paths[i].path, paths[i].item.value, HttpMethods[j])
  {
    var prefix := paths[..|paths| - 1];
    var e := paths[|paths| - 1];
    var front := EndpointsOf(prefix);
    if k < |front| {
      EndpointsSound(prefix, k);
      var i, j :| 0 <= i < |prefix| && 0 <= j < |HttpMethods| && prefix[i].item.Some?
                  && HttpMethods[j] in prefix[i].item.value.operations
                  && front[k] == MakeEndpoint(prefix[i].path, prefix[i].item.value, HttpMethods[j]);
      assert paths[i] == prefix[i];
    } else {
      MethodEndpointsSound(e.path, e.item.value, HttpMethods, k - |front|);
      assert paths[|paths| - 1] == e;
    }
  }

  /** Every present method of every path entry yields its endpoint. */
  lemma {:induction false} EndpointsComplete(paths: seq<PathEntry>, i: nat, j: nat)
    requires i < |paths| && j < |HttpMethods| && paths[i].item.Some?
    requires HttpMethods[j] in paths[i].item.value.operations
    ensures MakeEndpoint(paths[i].path, paths[i].item.value, HttpMethods[j]) in EndpointsOf(paths)
  {
    var prefix := paths[..|paths| - 1];
    if i < |prefix| {
      assert paths[i] == prefix[i];
      EndpointsComplete(prefix, i, j);
    } else {
      MethodEndpointsComplete(paths[i].path, paths[i].item.value, HttpMethods, j);
    }
  }

  /** Within one path the methods come in the order get, post, put, delete, patch. */
  lemma PathEndpointsOrder(e: PathEntry)
    requires e.item.Some?
    ensures PathEndpoints(e)
            == OperationEndpoint(e.path, e.item.value, "get") + OperationEndpoint(e.path, e.item.value, "post")
             + OperationEndpoint(e.path, e.item.value, "put") + OperationEndpoint(e.path, e.item.value, "delete")
             + OperationEndpoint(e.path, e.item.value, "patch")
  {
    var path, item := e.path, e.item.value;
    var ms := HttpMethods;
    var g, po, pu, d, pa := OperationEndpoint(path, item, "get"), OperationEndpoint(path, item, "post"),
      OperationEndpoint(path, item, "put"), OperationEndpoint(path, item, "delete"),
      OperationEndpoint(path, item, "patch");
    assert ms[..0] == [];
    MethodEndpointsStep(path, item, ms, 0);
    assert MethodEndpoints(path, item, ms[..1]) == g;
    MethodEndpointsStep(path, item, ms, 1);
    assert MethodEndpoints(path, item, ms[..2]) == g + po;
    MethodEndpointsStep(path, item, ms, 2);
    assert MethodEndpoints(path, item, ms[..3]) == g + po + pu;
    MethodEndpointsStep(path, item, ms, 3);
    assert MethodEndpoints(path, item, ms[..4]) == g + po + pu + d;
    MethodEndpointsStep(path, item, ms, 4);
    assert ms[..5] == ms;
  }

  lemma MethodEndpointsStep(path: string, item: PathItem, ms: seq<string>, k: nat)
    requires k < |ms|
    ensures MethodEndpoints(path, item, ms[..k + 1])
            == MethodEndpoints(path, item, ms[..k]) + OperationEndpoint(path, item, ms[k])
  {
    assert ms[..k + 1][..k] == ms[..k];
  }

  function OperationEndpoint(path: string, item: PathItem, m: string): seq<ParsedEndpoint> {
    if m in item.operations then [MakeEndpoint(path, item, m)] else []
  }

  /** Paths are taken in document order: appending an entry appends its endpoints. */
  lemma EndpointsAppend(paths: seq<PathEntry>, more: seq<PathEntry>)
    ensures EndpointsOf(paths + more) == EndpointsOf(paths) + EndpointsOf(more)
    decreases |more|
  {
    if more != [] {
      var last := more[|more| - 1];
      assert (paths + more)[..|paths + more| - 1] == paths + more[..|more| - 1];
      assert (paths + more)[|paths + more| - 1] == last;
      EndpointsAppend(paths, more[..|more| - 1]);
      assert EndpointsOf(paths + more)
             == EndpointsOf(paths + more[..|more| - 1]) + PathEndpoints(last);
      assert EndpointsOf(more) == EndpointsOf(more[..|more| - 1]) + PathEndpoints(last);
    } else {
      assert paths + more == paths;
    }
  }
}
