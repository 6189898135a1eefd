/** The endpoint list editor and the submitted request of `TestConfigModal`
    (src/components/TestConfigModal.tsx). The handlers compute a new endpoint list from the
    list of the render they run in; a `Modal` is the state of one render. */
module TestConfigModal {
  import Text

  datatype Endpoint = Endpoint(path: string, httpMethod: string, headers: map<string, string>, payload: string)

  /** The fields the endpoint inputs edit. */
  datatype Field = Path | Method | Payload

  datatype Modal = Modal(targetUrl: string, workers: int, duration: int, pattern: string, rateLimit: int,
                         endpoints: seq<Endpoint>)

  /** What `runTest` is called with. */
  datatype TestRequest = TestRequest(baseUrl: string, workers: int, duration: string, pattern: string,
                                     rateLimit: int, endpoints: seq<Endpoint>)

  const BlankEndpoint: Endpoint := Endpoint("", "GET", map[], "")

  /** The state of the first render: one `GET /users` endpoint, 50 workers, 30 seconds,
      the interleaved pattern and 100 requests per second. */
  function Initial(): (m: Modal)
    ensures m.endpoints == [Endpoint("/users", "GET", map[], "")]
    ensures m.workers == 50 && m.duration == 30 && m.pattern == "interleaved" && m.rateLimit == 100
  {
    Modal("https://api.example.com", 50, 30, "interleaved", 100, [Endpoint("/users", "GET", map[], "")])
  }

  /** `handleAddEndpoint` */
  function AddEndpoint(eps: seq<Endpoint>): (r: seq<Endpoint>)
    ensures |r| == |eps| + 1 && r[..|eps|] == eps && r[|eps|] == BlankEndpoint
  {
    eps + [BlankEndpoint]
  }

  /** `{ ...endpoint, [field]: value }` */
  function WithField(e: Endpoint, field: Field, value: string): Endpoint {
    match field
    case Path => e.(path := value)
    case Method => e.(httpMethod := value)
    case Payload => e.(payload := value)
  }

  /** `handleEndpointChange(index, field, value)`: a copy of the list with one entry
      replaced. */
  function ChangeEndpoint(eps: seq<Endpoint>, index: int, field: Field, value: string): (r: seq<Endpoint>)
    requires 0 <= index < |eps|
  {
    eps[index := WithField(eps[index], field, value)]
  }

  /** `endpoints.filter((_, i) => i !== index)`, position by position. */
  function RemoveEndpoint(eps: seq<Endpoint>, index: int): (r: seq<Endpoint>) {
    if eps == [] then []
    else
      var n := |eps| - 1;
      RemoveEndpoint(eps[..n], index) + (if n != index then [eps[n]] else [])
  }

  /** `handleRemoveEndpoint` is only offered while there is more than one endpoint. */
  predicate RemovalOffered(eps: seq<Endpoint>) { |eps| > 1 }

  /** `handleSubmit`: the duration is sent as its decimal text followed by `s`. */
  function Submit(m: Modal): TestRequest {
    TestRequest(m.targetUrl, m.workers, Text.IntToString(m.duration) + "s", m.pattern, m.rateLimit, m.endpoints)
  }

  // ------------------------------------------------------------------
  // Properties

  /** Changing a field replaces that field of that entry: every other entry and every
      other field are as they were. */
  lemma ChangeEndpointOnly(eps: seq<Endpoint>, index: int, field: Field, value: string)
    requires 0 <= index < |eps|
    ensures var r := ChangeEndpoint(eps, index, field, value);
            |r| == |eps| && (forall i :: 0 <= i < |eps| && i != index ==> r[i] == eps[i])
            && r[index].headers == eps[index].headers
            && (field == Path ==> r[index] == eps[index].(path := value))
            && (field == Method ==> r[index] == eps[index].(httpMethod := value))
            && (field == Payload ==> r[index] == eps[index].(payload := value))
  {
  }

  /** Removal drops exactly the entry at `index` and keeps the others in order; an index
      outside the list removes nothing. */
  lemma {:induction false} RemoveEndpointSlices(eps: seq<Endpoint>, index: int)
    ensures 0 <= index < |eps| ==> RemoveEndpoint(eps, index) == eps[..index] + eps[index + 1..]
    ensures !(0 <= index < |eps|) ==> RemoveEndpoint(eps, index) == eps
  {
    if eps != [] {
      var n := |eps| - 1;
      var init := eps[..n];
      RemoveEndpointSlices(init, index);
      if 0 <= index < n {
        assert init[..index] == eps[..index];
        assert init[index + 1..] + [eps[n]] == eps[index + 1..];
      } else if index == n {
        assert init == eps[..index];
        assert eps[index + 1..] == [];
      } else {
        assert init + [eps[n]] == eps;
      }
    }
  }

  /** Removal shortens the list by one: the entries before `index` keep their places and
      those after it move up by one. */
  lemma RemoveEndpointLength(eps: seq<Endpoint>, index: int)
    requires 0 <= index < |eps|
    ensures |RemoveEndpoint(eps, index)| == |eps| - 1
    ensures forall i :: 0 <= i < index ==> RemoveEndpoint(eps, index)[i] == eps[i]
    ensures forall i :: index <= i < |eps| - 1 ==> RemoveEndpoint(eps, index)[i] == eps[i + 1]
  {
    RemoveEndpointSlices(eps, index);
  }

  /** A user action on the endpoint list. */
  datatype Event = Add | Change(index: int, field: Field, value: string) | Remove(index: int)

  /** A change to an entry that is not rendered and a removal that is not offered cannot
      happen; they leave the list as it is. */
  function Apply(eps: seq<Endpoint>, e: Event): seq<Endpoint> {
    match e
    case Add => AddEndpoint(eps)
    case Change(i, f, v) => if 0 <= i < |eps| then ChangeEndpoint(eps, i, f, v) else eps
    case Remove(i) => if RemovalOffered(eps) && 0 <= i < |eps| then RemoveEndpoint(eps, i) else eps
  }

  /** The list after the actions `es`, in order. */
  function Run(eps: seq<Endpoint>, es: seq<Event>): seq<Endpoint> {
    if es == [] then eps else Apply(Run(eps, es[..|es| - 1]), es[|es| - 1])
  }

  /** Because removal is offered only while more than one endpoint exists, the list is
      never empty. */
  lemma {:induction false} NeverEmpty(es: seq<Event>)
    ensures |Run(Initial().endpoints, es)| >= 1
  {
    if es != [] {
      NeverEmpty(es[..|es| - 1]);
      var eps := Run(Initial().endpoints, es[..|es| - 1]);
      match es[|es| - 1]
      case Add =>
      case Change(i, f, v) =>
      case Remove(i) =>
        if RemovalOffered(eps) && 0 <= i < |eps| {
          RemoveEndpointLength(eps, i);
        }
    }
  }

  /** The submitted duration is `<duration>s`, and reading its digits back gives the
      duration. */
  lemma SubmittedDuration(m: Modal)
    ensures var d := Submit(m).duration;
            |d| >= 2 && d[|d| - 1] == 's' && d[..|d| - 1] == Text.IntToString(m.duration)
    ensures m.duration >= 0 ==> var d := Submit(m).duration;
            Text.AllDigits(d[..|d| - 1]) && Text.DigitsValue(d[..|d| - 1]) == m.duration
  {
    var d := Submit(m).duration;
    assert d[..|d| - 1] == Text.IntToString(m.duration);
    if m.duration >= 0 {
      Text.NatToStringRoundTrip(m.duration);
    }
  }

  /** The other fields of the request are the modal's own. */
  lemma SubmittedFields(m: Modal)
    ensures var r := Submit(m);
            r.baseUrl == m.targetUrl && r.workers == m.workers && r.pattern == m.pattern
            && r.rateLimit == m.rateLimit && r.endpoints == m.endpoints
  {
  }
}
