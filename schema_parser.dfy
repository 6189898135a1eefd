/** `SchemaParser` of the Python API tester: the `openapi.json` URL of a service and the
    flattening of a decoded OpenAPI document into `EndpointInfo` records. The document
    is an argument: the HTTP request that fetches it is not part of this model. Each
    record field is checked the way its pydantic model checks it. */
module SchemaParser {
  import opened Wrappers
  import opened PyJson
  import Text

  /** `f"{base_url.rstrip('/')}/openapi.json"` */
  function OpenapiUrl(baseUrl: string): (url: string)
    ensures |url| >= 13 && url[|url| - 13..] == "/openapi.json"
    ensures |url| - 13 <= |baseUrl| && url[..|url| - 13] == baseUrl[..|url| - 13]
    ensures |url| == 13 || baseUrl[|url| - 14] != '/'
    ensures forall i :: |url| - 13 <= i < |baseUrl| ==> baseUrl[i] == '/'
  {
    var base := Text.StripTrailingSlashes(baseUrl);
    var url := base + "/openapi.json";
    assert url[..|base|] == base && url[|base|..] == "/openapi.json";
    url
  }

  datatype EndpointParameter = EndpointParameter(
    name: string, location: string, typ: string, required: bool, schema: seq<Member>)

  datatype EndpointInfo = EndpointInfo(
    path: string, httpMethod: string, parameters: seq<EndpointParameter>,
    requestBody: Option<seq<Member>>, responseSchema: Option<seq<Member>>)

  /** The methods tried for every path, in order. */
  const HttpMethods: seq<string> := ["get", "post", "put", "delete", "patch"]

  /** One `EndpointParameter(...)` built from a parameter object: the keyword arguments
      are evaluated in order, then the fields are validated. */
  function ParseParameter(param: Json): (r: Result<EndpointParameter>)
    ensures r.Ok? ==> param.JObject?
    ensures r.Ok? ==> Lookup(param.members, "name") == Some(JStr(r.value.name))
    ensures r.Ok? ==> Lookup(param.members, "in") == Some(JStr(r.value.location))
    ensures r.Ok? ==> Lookup(param.members, "schema") == Some(JObject(r.value.schema))
    ensures r.Ok? && !HasKey(r.value.schema, "type") ==> r.value.typ == "string"
    ensures r.Ok? && HasKey(r.value.schema, "type") ==> Lookup(r.value.schema, "type") == Some(JStr(r.value.typ))
    ensures r.Ok? && !HasKey(param.members, "required") ==> !r.value.required
    ensures r.Ok? && HasKey(param.members, "required")
            ==> Lookup(param.members, "required") == Some(JBool(r.value.required))
    ensures !param.JObject? ==> r == Err("TypeError")
    ensures param.JObject? && !HasKey(param.members, "name") ==> r == Err("KeyError: 'name'")
  {
    var name := Subscript(param, "name");
    if name.Err? then Err(name.error) else
    var location := Subscript(param, "in");
    if location.Err? then Err(location.error) else
    var schema := Subscript(param, "schema");
    if schema.Err? then Err(schema.error) else
    var typ := DictGet(schema.value, "type", JStr("string"));
    if typ.Err? then Err(typ.error) else
    var required := GetOr(param.members, "required", JBool(false));
    if name.value.JStr? && location.value.JStr? && typ.value.JStr? && required.JBool? then
      Ok(EndpointParameter(name.value.s, location.value.s, typ.value.s, required.b, schema.value.members))
    else Err("ValidationError")
  }

  /** The characters of a string, as iterating over it yields them. */
  function Chars(s: string): (r: seq<Json>)
    ensures |r| == |s| && forall i :: 0 <= i < |s| ==> r[i] == JStr([s[i]])
  {
    seq(|s|, i requires 0 <= i < |s| => JStr([s[i]]))
  }

  /** `path_item.get('parameters', []) + method_info.get('parameters', [])`: two lists
      concatenate, and so do two strings (whose characters are then iterated). */
  function AllParameters(pathItem: Json, methodInfo: Json): (r: Result<seq<Json>>)
    ensures r.Ok? ==> pathItem.JObject? && methodInfo.JObject?
    ensures pathItem.JObject? && methodInfo.JObject?
            && GetOr(pathItem.members, "parameters", JArray([])).JArray?
            && GetOr(methodInfo.members, "parameters", JArray([])).JArray?
            ==> r == Ok(GetOr(pathItem.members, "parameters", JArray([])).items
                        + GetOr(methodInfo.members, "parameters", JArray([])).items)
  {
    var a := DictGet(pathItem, "parameters", JArray([]));
    if a.Err? then Err(a.error) else
    var b := DictGet(methodInfo, "parameters", JArray([]));
    if b.Err? then Err(b.error) else
    if a.value.JArray? && b.value.JArray? then Ok(a.value.items + b.value.items)
    else if a.value.JStr? && b.value.JStr? then Ok(Chars(a.value.s + b.value.s))
    else Err("TypeError")
  }

  function ParametersOf(pathItem: Json, methodInfo: Json): Result<seq<EndpointParameter>> {
    var all := AllParameters(pathItem, methodInfo);
    if all.Err? then Err(all.error) else MapResult(ParseParameter, all.value)
  }

  /** `parse_parameters`: a loop appending one `EndpointParameter` per parameter object,
      the path-level ones first. */
  method ParseParameters(pathItem: Json, methodInfo: Json) returns (r: Result<seq<EndpointParameter>>)
    ensures r == ParametersOf(pathItem, methodInfo)
  {
    var all := AllParameters(pathItem, methodInfo);
    if all.Err? {
      return Err(all.error);
    }
    var ps := all.value;
    var parameters: seq<EndpointParameter> := [];
    var i := 0;
    while i < |ps|
      invariant 0 <= i <= |ps|
      invariant MapResult(ParseParameter, ps[..i]) == Ok(parameters)
    {
      var p := ParseParameter(ps[i]);
      MapResultSnoc(ParseParameter, ps, i);
      if p.Err? {
        MapResultPrefixError(ParseParameter, ps, i + 1);
        return Err(p.error);
      }
      parameters := parameters + [p.value];
      i := i + 1;
    }
    assert ps[..i] == ps;
    return Ok(parameters);
  }

  /** `parse_request_body`: the `application/json` schema of the request body, if any. */
  function ParseRequestBody(methodInfo: Json): (r: Result<Option<Json>>)
    ensures methodInfo.JObject? && !HasKey(methodInfo.members, "requestBody") ==> r == Ok(None)
    ensures At(methodInfo, ["requestBody", "content", "application/json", "schema"]).Some?
            ==> r == Ok(At(methodInfo, ["requestBody", "content", "application/json", "schema"]))
    ensures r.Ok? && r.value.Some?
            ==> r.value == At(methodInfo, ["requestBody", "content", "application/json", "schema"])
    ensures r == Ok(None) ==> At(methodInfo, ["requestBody", "content", "application/json"]).None?
  {
    var has := Contains(methodInfo, "requestBody");
    if has.Err? then Err(has.error)
    else if !has.value then Ok(None)
    else
      var body := Subscript(methodInfo, "requestBody");
      if body.Err? then Err(body.error) else
      var content := DictGet(body.value, "content", JObject([]));
      if content.Err? then Err(content.error) else
      AtCons(methodInfo, "requestBody", ["content", "application/json", "schema"]);
      AtCons(methodInfo, "requestBody", ["content", "application/json"]);
      AtCons(body.value, "content", ["application/json", "schema"]);
      AtCons(body.value, "content", ["application/json"]);
      AtCons(JObject([]), "application/json", ["schema"]);
      AtCons(JObject([]), "application/json", []);
      assert ["requestBody"] + ["content", "application/json", "schema"]
             == ["requestBody", "content", "application/json", "schema"];
      assert ["requestBody"] + ["content", "application/json"] == ["requestBody", "content", "application/json"];
      assert ["content"] + ["application/json", "schema"] == ["content", "application/json", "schema"];
      assert ["content"] + ["application/json"] == ["content", "application/json"];
      assert ["application/json"] + ["schema"] == ["application/json", "schema"];
      assert ["application/json"] + [] == ["application/json"];
      JsonSchemaOf(content.value)
  }

  /** `'application/json' in content` and then `content['application/json']['schema']`. */
  function JsonSchemaOf(content: Json): (r: Result<Option<Json>>)
    ensures At(content, ["application/json", "schema"]).Some? ==> r == Ok(At(content, ["application/json", "schema"]))
    ensures r.Ok? && r.value.Some? ==> r.value == At(content, ["application/json", "schema"])
    ensures r == Ok(None) ==> At(content, ["application/json"]).None?
  {
    var hasJson := Contains(content, "application/json");
    AtCons(content, "application/json", ["schema"]);
    AtCons(content, "application/json", []);
    assert ["application/json"] + ["schema"] == ["application/json", "schema"];
    assert ["application/json"] + [] == ["application/json"];
    if hasJson.Err? then Err(hasJson.error)
    else if !hasJson.value then Ok(None)
    else
      var media := Subscript(content, "application/json");
      if media.Err? then Err(media.error) else
      var schema := Subscript(media.value, "schema");
      AtCons(media.value, "schema", []);
      assert ["schema"] + [] == ["schema"];
      if schema.Err? then Err(schema.error) else Ok(Some(schema.value))
  }

  /** `parse_response_schema`: only response `'200'` is consulted. */
  function ParseResponseSchema(methodInfo: Json): (r: Result<Option<Json>>)
    ensures methodInfo.JObject? && !HasKey(methodInfo.members, "responses") ==> r == Ok(None)
    ensures At(methodInfo, ["responses", "200", "content", "application/json", "schema"]).Some?
            ==> r == Ok(At(methodInfo, ["responses", "200", "content", "application/json", "schema"]))
    ensures r.Ok? && r.value.Some?
            ==> r.value == At(methodInfo, ["responses", "200", "content", "application/json", "schema"])
    ensures r == Ok(None) ==> At(methodInfo, ["responses", "200", "content", "application/json"]).None?
  {
    var responses := DictGet(methodInfo, "responses", JObject([]));
    if responses.Err? then Err(responses.error) else
    AtAppend(methodInfo, ["responses"], ["200", "content", "application/json", "schema"]);
    AtAppend(methodInfo, ["responses"], ["200", "content", "application/json"]);
    assert ["responses"] + ["200", "content", "application/json", "schema"]
           == ["responses", "200", "content", "application/json", "schema"];
    assert ["responses"] + ["200", "content", "application/json"]
           == ["responses", "200", "content", "application/json"];
    OkResponseSchema(responses.value)
  }

  /** `'200' in responses`, then the `application/json` schema of that response. */
  function OkResponseSchema(responses: Json): (r: Result<Option<Json>>)
    ensures At(responses, ["200", "content", "application/json", "schema"]).Some?
            ==> r == Ok(At(responses, ["200", "content", "application/json", "schema"]))
    ensures r.Ok? && r.value.Some? ==> r.value == At(responses, ["200", "content", "application/json", "schema"])
    ensures r == Ok(None) ==> At(responses, ["200", "content", "application/json"]).None?
  {
    var has := Contains(responses, "200");
    if has.Err? then Err(has.error)
    else if !has.value then Ok(None)
    else
      var ok := Subscript(responses, "200");
      if ok.Err? then Err(ok.error) else
      var content := DictGet(ok.value, "content", JObject([]));
      if content.Err? then Err(content.error) else
      AtCons(responses, "200", ["content", "application/json", "schema"]);
      AtCons(responses, "200", ["content", "application/json"]);
      AtCons(ok.value, "content", ["application/json", "schema"]);
      AtCons(ok.value, "content", ["application/json"]);
      AtCons(JObject([]), "application/json", ["schema"]);
      AtCons(JObject([]), "application/json", []);
      assert ["200"] + ["content", "application/json", "schema"] == ["200", "content", "application/json", "schema"];
      assert ["200"] + ["content", "application/json"] == ["200", "content", "application/json"];
      assert ["content"] + ["application/json", "schema"] == ["content", "application/json", "schema"];
      assert ["content"] + ["application/json"] == ["content", "application/json"];
      assert ["application/json"] + ["schema"] == ["application/json", "schema"];
      assert ["application/json"] + [] == ["application/json"];
      JsonSchemaOf(content.value)
  }

  /** Validation of an `Optional[Dict[str, Any]]` field. */
  function AsOptionalDict(x: Option<Json>): (r: Result<Option<seq<Member>>>)
    ensures r.Ok? <==> (x.None? || x.value.JNull? || x.value.JObject?)
    ensures r.Ok? && r.value.Some? ==> x == Some(JObject(r.value.value))
  {
    if x.None? || x.value.JNull? then Ok(None)
    else if x.value.JObject? then Ok(Some(x.value.members))
    else Err("ValidationError")
  }

  /** The record for method `m` of a path item that has it. */
  function EndpointFor(path: string, pathItem: Json, m: string): (r: Result<EndpointInfo>)
    ensures r.Ok? ==> r.value.path == path && r.value.httpMethod == Text.ToUpper(m)
    ensures r.Ok? ==> Subscript(pathItem, m).Ok?
                      && Ok(r.value.parameters) == ParametersOf(pathItem, Subscript(pathItem, m).value)
    ensures r.Ok? && r.value.requestBody.Some? ==>
              At(Subscript(pathItem, m).value, ["requestBody", "content", "application/json", "schema"])
              == Some(JObject(r.value.requestBody.value))
    ensures r.Ok? && r.value.responseSchema.Some? ==>
              At(Subscript(pathItem, m).value, ["responses", "200", "content", "application/json", "schema"])
              == Some(JObject(r.value.responseSchema.value))
    ensures r.Ok? && Subscript(pathItem, m).value.JObject? && !HasKey(Subscript(pathItem, m).value.members, "requestBody")
            ==> r.value.requestBody.None?
    ensures r.Ok? && Subscript(pathItem, m).value.JObject? && !HasKey(Subscript(pathItem, m).value.members, "responses")
            ==> r.value.responseSchema.None?
  {
    var methodInfo := Subscript(pathItem, m);
    if methodInfo.Err? then Err(methodInfo.error) else
    var parameters := ParametersOf(pathItem, methodInfo.value);
    if parameters.Err? then Err(parameters.error) else
    var body := ParseRequestBody(methodInfo.value);
    if body.Err? then Err(body.error) else
    var response := ParseResponseSchema(methodInfo.value);
    if response.Err? then Err(response.error) else
    var b := AsOptionalDict(body.value);
    if b.Err? then Err(b.error) else
    var s := AsOptionalDict(response.value);
    if s.Err? then Err(s.error) else
    Ok(EndpointInfo(path, Text.ToUpper(m), parameters.value, b.value, s.value))
  }

  /** The records of one path for the methods `ms`, in that order. */
  function PathEndpoints(path: string, pathItem: Json, ms: seq<string>): Result<seq<EndpointInfo>> {
    if ms == [] then Ok([])
    else
      var front := PathEndpoints(path, pathItem, ms[..|ms| - 1]);
      var m := ms[|ms| - 1];
      if front.Err? then front
      else
        var has := Contains(pathItem, m);
        if has.Err? then Err(has.error)
        else if !has.value then front
        else
          var e := EndpointFor(path, pathItem, m);
          if e.Err? then Err(e.error) else Ok(front.value + [e.value])
  }

  function EndpointsOf(paths: seq<Member>): Result<seq<EndpointInfo>> {
    if paths == [] then Ok([])
    else
      var front := EndpointsOf(paths[..|paths| - 1]);
      var last := paths[|paths| - 1];
      if front.Err? then front
      else
        var more := PathEndpoints(last.key, last.value, HttpMethods);
        if more.Err? then more else Ok(front.value + more.value)
  }

  function ParseDocument(document: Json): Result<seq<EndpointInfo>> {
    var paths := Subscript(document, "paths");
    if paths.Err? then Err(paths.error)
    else if !paths.value.JObject? then Err("AttributeError")
    else EndpointsOf(paths.value.members)
  }

  /** The body of the inner loop for one method of one path. */
  method EndpointStep(path: string, pathItem: Json, m: string) returns (r: Result<EndpointInfo>)
    ensures r == EndpointFor(path, pathItem, m)
  {
    var methodInfo := Subscript(pathItem, m);
    if methodInfo.Err? {
      return Err(methodInfo.error);
    }
    var parameters := ParseParameters(pathItem, methodInfo.value);
    if parameters.Err? {
      return Err(parameters.error);
    }
    var body := ParseRequestBody(methodInfo.value);
    if body.Err? {
      return Err(body.error);
    }
    var response := ParseResponseSchema(methodInfo.value);
    if response.Err? {
      return Err(response.error);
    }
    var b := AsOptionalDict(body.value);
    var s := AsOptionalDict(response.value);
    if b.Err? {
      return Err(b.error);
    }
    if s.Err? {
      return Err(s.error);
    }
    return Ok(EndpointInfo(path, Text.ToUpper(m), parameters.value, b.value, s.value));
  }

  /** `parse_endpoints` over an already fetched document: paths in dict order, and for each
      the methods get, post, put, delete, patch that are keys of the path item. */
  method ParseEndpoints(document: Json) returns (r: Result<seq<EndpointInfo>>)
    ensures r == ParseDocument(document)
  {
    var pathsValue := Subscript(document, "paths");
    if pathsValue.Err? {
      return Err(pathsValue.error);
    }
    if !pathsValue.value.JObject? {
      return Err("AttributeError");
    }
    var paths := pathsValue.value.members;
    var endpoints: seq<EndpointInfo> := [];
    var i := 0;
    while i < |paths|
      invariant 0 <= i <= |paths|
      invariant EndpointsOf(paths[..i]) == Ok(endpoints)
    {
      EndpointsOfSnoc(paths, i);
      var found := ParsePath(paths[i].key, paths[i].value);
      if found.Err? {
        EndpointsOfPrefixError(paths, i + 1);
        return Err(found.error);
      }
      endpoints := endpoints + found.value;
      i := i + 1;
    }
    assert paths[..i] == paths;
    return Ok(endpoints);
  }

  /** The inner loop of `parse_endpoints`, over the five methods of one path. */
  method ParsePath(path: string, pathItem: Json) returns (r: Result<seq<EndpointInfo>>)
    ensures r == PathEndpoints(path, pathItem, HttpMethods)
  {
    var ms := HttpMethods;
    var j := 0;
    var found: seq<EndpointInfo> := [];
    while j < |ms|
      invariant 0 <= j <= |ms|
      invariant PathEndpoints(path, pathItem, ms[..j]) == Ok(found)
    {
      var m := ms[j];
      PathEndpointsSnoc(path, pathItem, ms, j);
      var has := Contains(pathItem, m);
      var e: Result<EndpointInfo> := Ok(EndpointInfo(path, "", [], None, None));
      if has.Ok? && has.value {
        e := EndpointStep(path, pathItem, m);
      }
      if has.Err? || e.Err? {
        PathEndpointsPrefixError(path, pathItem, ms, j + 1);
        return Err(if has.Err? then has.error else e.error);
      }
      if has.value {
        found := found + [e.value];
      }
      j := j + 1;
    }
    assert ms[..j] == ms;
    return Ok(found);
  }

  /** One more method: checked with `in`, then turned into a record if present. */
  lemma PathEndpointsSnoc(path: string, pathItem: Json, ms: seq<string>, j: nat)
    requires j < |ms| && PathEndpoints(path, pathItem, ms[..j]).Ok?
    ensures PathEndpoints(path, pathItem, ms[..j + 1])
            == var has := Contains(pathItem, ms[j]);
               if has.Err? then Err(has.error)
               else if !has.value then PathEndpoints(path, pathItem, ms[..j])
               else
                 var e := EndpointFor(path, pathItem, ms[j]);
                 if e.Err? then Err(e.error) else Ok(PathEndpoints(path, pathItem, ms[..j]).value + [e.value])
  {
    assert ms[..j + 1][..j] == ms[..j];
  }

  lemma {:induction false} PathEndpointsPrefixError(path: string, pathItem: Json, ms: seq<string>, n: nat)
    requires n <= |ms| && PathEndpoints(path, pathItem, ms[..n]).Err?
    ensures PathEndpoints(path, pathItem, ms) == PathEndpoints(path, pathItem, ms[..n])
    decreases |ms| - n
  {
    if n < |ms| {
      assert ms[..n + 1][..n] == ms[..n];
      PathEndpointsPrefixError(path, pathItem, ms, n + 1);
    } else {
      assert ms[..n] == ms;
    }
  }

  /** One more path: its endpoints follow those of the paths before it. */
  lemma EndpointsOfSnoc(paths: seq<Member>, i: nat)
    requires i < |paths| && EndpointsOf(paths[..i]).Ok?
    ensures EndpointsOf(paths[..i + 1])
            == var more := PathEndpoints(paths[i].key, paths[i].value, HttpMethods);
               if more.Err? then Err(more.error) else Ok(EndpointsOf(paths[..i]).value + more.value)
  {
    assert paths[..i + 1][..i] == paths[..i];
  }

  lemma {:induction false} EndpointsOfPrefixError(paths: seq<Member>, n: nat)
    requires n <= |paths| && EndpointsOf(paths[..n]).Err?
    ensures EndpointsOf(paths) == EndpointsOf(paths[..n])
    decreases |paths| - n
  {
    if n < |paths| {
      assert paths[..n + 1][..n] == paths[..n];
      EndpointsOfPrefixError(paths, n + 1);
    } else {
      assert paths[..n] == paths;
    }
  }

  // ------------------------------------------------------------------
  // What the flattening promises

  /** The methods of `ms` that are keys of the path item, in the order of `ms`. */
  function PresentMethods(pathItem: Json, ms: seq<string>): seq<string> {
    if ms == [] then []
    else
      PresentMethods(pathItem, ms[..|ms| - 1])
        + (if Contains(pathItem, ms[|ms| - 1]) == Ok(true) then [ms[|ms| - 1]] else [])
  }

  /** A path that parses yields one record per present method, in the order of `ms`,
      with the path and the upper-cased method. */
  lemma {:induction false} PathEndpointsShape(path: string, pathItem: Json, ms: seq<string>)
    requires PathEndpoints(path, pathItem, ms).Ok?
    ensures |PathEndpoints(path, pathItem, ms).value| == |PresentMethods(pathItem, ms)|
    ensures forall k :: 0 <= k < |PresentMethods(pathItem, ms)| ==>
              PathEndpoints(path, pathItem, ms).value[k].path == path
              && PathEndpoints(path, pathItem, ms).value[k].httpMethod == Text.ToUpper(PresentMethods(pathItem, ms)[k])
    ensures forall k :: 0 <= k < |PresentMethods(pathItem, ms)| ==>
              Ok(PathEndpoints(path, pathItem, ms).value[k]) == EndpointFor(path, pathItem, PresentMethods(pathItem, ms)[k])
  {
    if ms != [] {
      var init := ms[..|ms| - 1];
      var m := ms[|ms| - 1];
      PathEndpointsShape(path, pathItem, init);
      var front := PathEndpoints(path, pathItem, init).value;
      var pf := PresentMethods(pathItem, init);
      var r := PathEndpoints(path, pathItem, ms).value;
      var pm := PresentMethods(pathItem, ms);
      if Contains(pathItem, m) == Ok(true) {
        var e := EndpointFor(path, pathItem, m);
        assert r == front + [e.value] && pm == pf + [m];
        forall k | 0 <= k < |pm|
          ensures r[k].path == path && r[k].httpMethod == Text.ToUpper(pm[k])
          ensures Ok(r[k]) == EndpointFor(path, pathItem, pm[k])
        {
          if k < |pf| {
            assert r[k] == front[k] && pm[k] == pf[k];
          }
        }
      } else {
        assert r == front && pm == pf;
      }
    }
  }

  /** Every present method is one of the five, so every record names one of them. */
  lemma {:induction false} PresentMethodsFrom(pathItem: Json, ms: seq<string>)
    ensures forall k :: 0 <= k < |PresentMethods(pathItem, ms)| ==> PresentMethods(pathItem, ms)[k] in ms
  {
    if ms != [] {
      PresentMethodsFrom(pathItem, ms[..|ms| - 1]);
      var front := PresentMethods(pathItem, ms[..|ms| - 1]);
      forall k | 0 <= k < |front| ensures front[k] in ms {
        assert front[k] in ms[..|ms| - 1];
      }
    }
  }

  /** A path item without any of the five methods as keys contributes nothing. */
  lemma NoMethodsNoEndpoints(path: string, pathItem: Json)
    requires pathItem.JObject? && forall j :: 0 <= j < |HttpMethods| ==> !HasKey(pathItem.members, HttpMethods[j])
    ensures PathEndpoints(path, pathItem, HttpMethods) == Ok([])
  {
    var ms := HttpMethods;
    assert ms[..1][..0] == ms[..0] == [];
    assert ms[..2][..1] == ms[..1];
    assert ms[..3][..2] == ms[..2];
    assert ms[..4][..3] == ms[..3];
    assert ms[..5][..4] == ms[..4];
    assert ms[..5] == ms;
    assert PathEndpoints(path, pathItem, ms[..1]) == Ok([]);
    assert PathEndpoints(path, pathItem, ms[..2]) == Ok([]);
    assert PathEndpoints(path, pathItem, ms[..3]) == Ok([]);
    assert PathEndpoints(path, pathItem, ms[..4]) == Ok([]);
  }

  /** The number of records is the number of present (path, method) pairs. */
  function TotalPresent(paths: seq<Member>): nat {
    if paths == [] then 0
    else TotalPresent(paths[..|paths| - 1]) + |PresentMethods(paths[|paths| - 1].value, HttpMethods)|
  }

  lemma {:induction false} EndpointsCount(paths: seq<Member>)
    requires EndpointsOf(paths).Ok?
    ensures |EndpointsOf(paths).value| == TotalPresent(paths)
  {
    if paths != [] {
      var last := paths[|paths| - 1];
      EndpointsCount(paths[..|paths| - 1]);
      PathEndpointsShape(last.key, last.value, HttpMethods);
    }
  }
}
