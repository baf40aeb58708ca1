/**
 * The request descriptor built at the start of a send: the editable draft
 * is turned into the configuration handed to the HTTP client.
 */
module RequestBuilder {
  import opened Wrappers
  import opened Values

  /** One row of the query-parameter or header editor: `{key, value}`. */
  datatype Pair = Pair(key: string, value: string)

  /** The editable request: the builder's part of the screen state. */
  datatype Draft = Draft(
    httpMethod: string,
    url: string,
    activeTab: string,
    queryParams: seq<Pair>,
    headers: seq<Pair>,
    body: string)

  /** What is handed to the HTTP client; `data == None` is `undefined`. */
  datatype RequestConfig = RequestConfig(
    httpMethod: string,
    url: string,
    params: map<string, string>,
    headers: map<string, string>,
    data: Option<Value>)

  /** The editor tab whose text is sent as a JSON body. */
  const BodyTab := "Body"

  predicate IsUpper(c: char)
  {
    'A' <= c <= 'Z'
  }

  function LowerChar(c: char): char
  {
    if IsUpper(c) then (c as int + 32) as char else c
  }

  /**
   * `String.prototype.toLowerCase` on the ASCII letters: upper-case letters
   * are replaced by their lower-case forms, every other character is kept.
   */
  function Lower(s: string): (r: string)
    ensures |r| == |s|
    ensures forall i :: 0 <= i < |r| ==> !IsUpper(r[i])
    ensures forall i :: 0 <= i < |s| && !IsUpper(s[i]) ==> r[i] == s[i]
    ensures forall i :: 0 <= i < |s| && IsUpper(s[i]) ==> r[i] as int == s[i] as int + 32
  {
    seq(|s|, i requires 0 <= i < |s| => LowerChar(s[i]))
  }

  /** The set of keys that occur in a list of rows. */
  function KeysOf(ps: seq<Pair>): set<string>
  {
    set p | p in ps :: p.key
  }

  /** Row `i` is the last row of `ps` that carries its key. */
  ghost predicate IsLastFor(ps: seq<Pair>, i: int)
    requires 0 <= i < |ps|
  {
    forall j :: i < j < |ps| ==> ps[j].key != ps[i].key
  }

  /**
   * `Object.fromEntries(ps.map(p => [p.key, p.value]))`: the rows collapse
   * into a key-unique map; a key is present exactly when some row carries
   * it, and its value is that of the LAST such row (later rows overwrite).
   */
  function FromEntries(ps: seq<Pair>): (m: map<string, string>)
    ensures m.Keys == KeysOf(ps)
    ensures forall i :: 0 <= i < |ps| && IsLastFor(ps, i) ==> m[ps[i].key] == ps[i].value
    decreases |ps|
  {
    if ps == [] then map[]
    else
      var init, last := ps[..|ps| - 1], ps[|ps| - 1];
      assert ps == init + [last];
      FromEntries(init)[last.key := last.value]
  }

  /**
   * The object literal built at the start of a send: the method is
   * lower-cased, the URL is kept, both row lists collapse into maps, and
   * the body is parsed and attached only on the Body tab. A parse error
   * is thrown before any request exists.
   */
  function BuildConfig(d: Draft, parse: string -> Result<Value, string>): (r: Result<RequestConfig, string>)
    ensures r.Failure? <==> d.activeTab == BodyTab && parse(d.body).Failure?
    ensures r.Failure? ==> r.error == parse(d.body).error
    ensures r.Success? ==>
      && r.value.httpMethod == Lower(d.httpMethod)
      && r.value.url == d.url
      && r.value.params == FromEntries(d.queryParams)
      && r.value.headers == FromEntries(d.headers)
      && (r.value.data.Some? <==> d.activeTab == BodyTab)
      && (r.value.data.Some? ==> parse(d.body) == Success(r.value.data.value))
  {
    if d.activeTab == BodyTab then
      match parse(d.body)
      case Failure(e) => Failure(e)
      case Success(v) => Success(RequestConfig(Lower(d.httpMethod), d.url, FromEntries(d.queryParams), FromEntries(d.headers), Some(v)))
    else
      Success(RequestConfig(Lower(d.httpMethod), d.url, FromEntries(d.queryParams), FromEntries(d.headers), None))
  }

  /**
   * Off the Body tab the body text is never looked at: neither its content
   * nor whether it parses changes the request.
   */
  lemma BodyIgnoredOffBodyTab(d: Draft, text: string, parse: string -> Result<Value, string>, parse': string -> Result<Value, string>)
    requires d.activeTab != BodyTab
    ensures BuildConfig(d, parse).Success?
    ensures BuildConfig(d, parse) == BuildConfig(d.(body := text), parse')
    ensures BuildConfig(d, parse).value.data == None
  {
  }
}
