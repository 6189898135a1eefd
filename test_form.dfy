/** The header editor and the submit check of `TestForm` (src/components/TestForm.tsx).
    Each handler builds a new state from the state of the render it runs in; a `Form` is
    that state. Header records are maps: the order in which the form lists them is not
    part of the model. */
module TestForm {
  import opened Wrappers
  import Text

  datatype FormConfig = FormConfig(
    url: string,
    httpMethod: string,
    concurrentUsers: int,
    duration: int,
    headers: map<string, string>,
    body: string)

  /** `config`, the two header inputs and `headersDisplay`. */
  datatype Form = Form(config: FormConfig, headerKey: string, headerValue: string, headersDisplay: map<string, string>)

  /** The configuration and the header list shown to the user agree. */
  predicate InSync(f: Form) {
    f.config.headers == f.headersDisplay
  }

  /** The state of the first render. */
  function Initial(): (f: Form)
    ensures InSync(f) && f.config.headers == map[] && f.headerKey == "" && f.headerValue == ""
  {
    Form(FormConfig("https://jsonplaceholder.typicode.com/posts", "GET", 10, 10, map[], ""), "", "", map[])
  }

  /** `handleUrlChange` */
  function ChangeUrl(f: Form, url: string): Form {
    f.(config := f.config.(url := url))
  }

  /** Typing into the header-name and header-value inputs. */
  function ChangeHeaderInputs(f: Form, key: string, value: string): Form {
    f.(headerKey := key, headerValue := value)
  }

  /** `addHeader`: ignored when the name is blank after trimming; otherwise the untrimmed
      name is set to the value in both records and the inputs are cleared. */
  function AddHeader(f: Form): Form {
    if Text.Trim(f.headerKey) == "" then f
    else
      var headers := f.config.headers[f.headerKey := f.headerValue];
      Form(f.config.(headers := headers), "", "", f.headersDisplay[f.headerKey := f.headerValue])
  }

  /** `removeHeader(key)`: `delete` on fresh copies of both records. */
  function RemoveHeader(f: Form, key: string): Form {
    f.(config := f.config.(headers := f.config.headers - {key}), headersDisplay := f.headersDisplay - {key})
  }

  /** `handleSubmit`: an empty URL is rejected with the message the toast shows; otherwise
      the configuration the test is run with. */
  function Submit(f: Form): (r: Result<FormConfig>)
    ensures r.Err? <==> f.config.url == ""
    ensures r.Err? ==> r.error == "Please enter a valid URL"
    ensures r.Ok? ==> r.value == f.config
  {
    if f.config.url == "" then Err("Please enter a valid URL") else Ok(f.config)
  }

  // ------------------------------------------------------------------
  // Properties

  /** Every handler keeps the two header records equal. */
  lemma HandlersKeepInSync(f: Form, url: string, key: string, value: string)
    requires InSync(f)
    ensures InSync(ChangeUrl(f, url)) && InSync(ChangeHeaderInputs(f, key, value))
    ensures InSync(AddHeader(f)) && InSync(RemoveHeader(f, key))
  {
  }

  /** A blank name changes nothing, not even the inputs. */
  lemma AddBlankHeaderIgnored(f: Form)
    requires Text.AllJsWhitespace(f.headerKey)
    ensures AddHeader(f) == f
  {
  }

  /** A named header is set to the typed value under the name as typed, every other header
      is kept as it was, the rest of the configuration is untouched and the inputs are
      cleared. */
  lemma AddHeaderSets(f: Form)
    requires !Text.AllJsWhitespace(f.headerKey)
    ensures var r := AddHeader(f);
            var k := f.headerKey;
            k in r.config.headers && r.config.headers[k] == f.headerValue
            && (forall h :: h != k ==> (h in r.config.headers <==> h in f.config.headers))
            && (forall h :: h != k && h in f.config.headers ==> r.config.headers[h] == f.config.headers[h])
            && r.config.(headers := f.config.headers) == f.config
            && r.headerKey == "" && r.headerValue == ""
  {
  }

  /** Removal takes out exactly the given name and keeps the other headers and their
      values. */
  lemma RemoveHeaderDeletes(f: Form, key: string)
    ensures var r := RemoveHeader(f, key);
            key !in r.config.headers && key !in r.headersDisplay
            && (forall h :: h != key ==> (h in r.config.headers <==> h in f.config.headers))
            && (forall h :: h != key && h in f.config.headers ==> r.config.headers[h] == f.config.headers[h])
            && r.config.(headers := f.config.headers) == f.config
  {
  }

  /** Adding a header that was not there and then removing it gives back the records as
      they were. */
  lemma AddThenRemove(f: Form)
    requires !Text.AllJsWhitespace(f.headerKey) && f.headerKey !in f.config.headers && f.headerKey !in f.headersDisplay
    ensures var r := RemoveHeader(AddHeader(f), f.headerKey);
            r.config == f.config && r.headersDisplay == f.headersDisplay
  {
    var k, v := f.headerKey, f.headerValue;
    assert f.config.headers[k := v] - {k} == f.config.headers;
    assert f.headersDisplay[k := v] - {k} == f.headersDisplay;
  }

  /** A user action the form handles. */
  datatype Event = Url(url: string) | HeaderInputs(key: string, value: string) | Add | Remove(key: string)

  function Apply(f: Form, e: Event): Form {
    match e
    case Url(u) => ChangeUrl(f, u)
    case HeaderInputs(k, v) => ChangeHeaderInputs(f, k, v)
    case Add => AddHeader(f)
    case Remove(k) => RemoveHeader(f, k)
  }

  /** The state after the actions `es`, in order. */
  function Run(f: Form, es: seq<Event>): Form {
    if es == [] then f else Apply(Run(f, es[..|es| - 1]), es[|es| - 1])
  }

  /** The header records of any state reached from the first render stay equal. */
  lemma {:induction false} RunKeepsInSync(es: seq<Event>)
    ensures InSync(Run(Initial(), es))
  {
    if es != [] {
      RunKeepsInSync(es[..|es| - 1]);
      var f := Run(Initial(), es[..|es| - 1]);
      match es[|es| - 1]
      case Url(u) => HandlersKeepInSync(f, u, "", "");
      case HeaderInputs(k, v) => HandlersKeepInSync(f, "", k, v);
      case Add => HandlersKeepInSync(f, "", "", "");
      case Remove(k) => HandlersKeepInSync(f, "", k, "");
    }
  }
}
