/** The slice of net/http that the builders touch: a request object that every
    copy of a builder shares by pointer, its header multimap and its decoded
    query. Parsing the URL text, canonicalising header keys and encoding the
    query back into text are net/http and net/url internals and are not part
    of this model: keys are opaque strings and the parsed URL is an input. */
module Http {

  /** `http.Header` and `url.Values`: each key maps to its list of values. */
  type Multimap = map<string, seq<string>>

  /** The values under `key`, the empty list when the key is absent. */
  function ValuesAt(m: Multimap, key: string): seq<string>
  {
    if key in m then m[key] else []
  }

  /** `Header.Add` / `Values.Add`: append one value under a key. */
  function AddValue(m: Multimap, key: string, value: string): (r: Multimap)
    ensures r.Keys == m.Keys + {key}
    ensures ValuesAt(r, key) == ValuesAt(m, key) + [value]
    ensures forall k :: k != key ==> ValuesAt(r, k) == ValuesAt(m, k)
  {
    m[key := ValuesAt(m, key) + [value]]
  }

  /** `Header.Set` / `Values.Set`: make one value the only one under a key. */
  function SetValue(m: Multimap, key: string, value: string): (r: Multimap)
    ensures r.Keys == m.Keys + {key}
    ensures ValuesAt(r, key) == [value]
    ensures forall k :: k != key ==> ValuesAt(r, k) == ValuesAt(m, k)
  {
    m[key := [value]]
  }

  /** `Header.Get`: the first value under a key, "" when there is none. */
  function FirstValue(m: Multimap, key: string): (v: string)
    ensures ValuesAt(m, key) != [] ==> v == ValuesAt(m, key)[0]
    ensures ValuesAt(m, key) == [] ==> v == ""
  {
    if key in m && m[key] != [] then m[key][0] else ""
  }

  /** The multimap after every pair of `kv` has been added with AddValue, in
      any order: each key of `kv` gains its one value at the end of its list. */
  function AddEach(m: Multimap, kv: map<string, string>): (r: Multimap)
    ensures r.Keys == m.Keys + kv.Keys
    ensures forall k :: k in kv ==> ValuesAt(r, k) == ValuesAt(m, k) + [kv[k]]
    ensures forall k :: k !in kv ==> ValuesAt(r, k) == ValuesAt(m, k)
  {
    map k | k in m.Keys + kv.Keys :: ValuesAt(m, k) + if k in kv then [kv[k]] else []
  }

  /** The multimap after every pair of `kv` has been set with SetValue, in any
      order: each key of `kv` holds exactly its new value, the rest are kept. */
  function SetEach(m: Multimap, kv: map<string, string>): (r: Multimap)
    ensures r.Keys == m.Keys + kv.Keys
    ensures forall k :: k in kv ==> ValuesAt(r, k) == [kv[k]]
    ensures forall k :: k !in kv ==> ValuesAt(r, k) == ValuesAt(m, k)
  {
    map k | k in m.Keys + kv.Keys :: if k in kv then [kv[k]] else m[k]
  }

  /** Adding one more pair whose key is not yet done extends AddEach by one
      AddValue, so the loop order over a Go map does not matter. */
  lemma AddEachStep(m: Multimap, done: map<string, string>, key: string, value: string)
    requires key !in done
    ensures AddEach(m, done[key := value]) == AddValue(AddEach(m, done), key, value)
  {
    var l := AddEach(m, done[key := value]);
    var r := AddValue(AddEach(m, done), key, value);
    assert l.Keys == r.Keys;
    forall k | k in l.Keys ensures l[k] == r[k] {
      assert l[k] == ValuesAt(l, k) && r[k] == ValuesAt(r, k);
    }
  }

  /** The same for SetEach and SetValue. */
  lemma SetEachStep(m: Multimap, done: map<string, string>, key: string, value: string)
    requires key !in done
    ensures SetEach(m, done[key := value]) == SetValue(SetEach(m, done), key, value)
  {
    var l := SetEach(m, done[key := value]);
    var r := SetValue(SetEach(m, done), key, value);
    assert l.Keys == r.Keys;
    forall k | k in l.Keys ensures l[k] == r[k] {
      assert l[k] == ValuesAt(l, k) && r[k] == ValuesAt(r, k);
    }
  }

  /** Moving one key from the pending set to the done part of a loop over a map. */
  lemma DoneGrows(kv: map<string, string>, rest: set<string>, k: string)
    requires k in rest && rest <= kv.Keys
    ensures k !in kv - rest
    ensures (kv - rest)[k := kv[k]] == kv - (rest - {k})
  {
  }

  /** What net/url makes of a URL's text: its path and its decoded query. */
  datatype Url = Url(path: string, query: Multimap)

  /** An `*http.Request`: a heap object, so that every builder value holding the
      pointer sees the same method, URL, headers and body. */
  class Request {
    var httpMethod: string
    var target: string      // the text passed to `http.NewRequest`; `Params` leaves it alone
    var path: string
    var query: Multimap
    var header: Multimap
    var body: string

    /** `http.NewRequest(httpMethod, target, body)` on the path where the URL
        parses to `url`: an empty method means "GET", and no headers yet. */
    constructor (httpMethod: string, target: string, url: Url, body: string)
      ensures this.httpMethod == (if httpMethod == "" then "GET" else httpMethod)
      ensures this.target == target && this.body == body
      ensures path == url.path && query == url.query && header == map[]
    {
      this.httpMethod := if httpMethod == "" then "GET" else httpMethod;
      this.target := target;
      this.path := url.path;
      this.query := url.query;
      this.header := map[];
      this.body := body;
    }

    /** `Header.Add(key, value)` on this request. */
    method AddHeader(key: string, value: string)
      modifies this
      ensures header == AddValue(old(header), key, value)
      ensures httpMethod == old(httpMethod) && target == old(target) && path == old(path)
      ensures query == old(query) && body == old(body)
    {
      header := AddValue(header, key, value);
    }

    /** `SetBasicAuth`: Authorization becomes the single value "Basic "
        followed by the base64 text of "user:password", the encoder being
        given. */
    method SetBasicAuth(userName: string, password: string, base64: string -> string)
      modifies this
      ensures header == SetValue(old(header), "Authorization", "Basic " + base64(userName + ":" + password))
      ensures httpMethod == old(httpMethod) && target == old(target) && path == old(path)
      ensures query == old(query) && body == old(body)
    {
      header := SetValue(header, "Authorization", "Basic " + base64(userName + ":" + password));
    }

    /** The `for k, v := range headers { Header.Add(k, v) }` loop that both
        builders' Headers run; Go's map order is arbitrary, so each step picks
        any key not yet done. */
    method AddHeaders(headers: map<string, string>)
      modifies this
      ensures header == AddEach(old(header), headers)
      ensures httpMethod == old(httpMethod) && target == old(target) && path == old(path)
      ensures query == old(query) && body == old(body)
    {
      var rest := headers.Keys;
      while rest != {}
        invariant rest <= headers.Keys
        invariant header == AddEach(old(header), headers - rest)
        invariant httpMethod == old(httpMethod) && target == old(target) && path == old(path)
        invariant query == old(query) && body == old(body)
        decreases rest
      {
        var k :| k in rest;
        AddEachStep(old(header), headers - rest, k, headers[k]);
        DoneGrows(headers, rest, k);
        AddHeader(k, headers[k]);
        rest := rest - {k};
      }
      assert headers - rest == headers;
    }
  }
}
