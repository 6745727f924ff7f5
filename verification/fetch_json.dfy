/** The JSON request helper of the widget (`fetchJson` in
    src/fetch-json.ts): how the outgoing request is put together, and how the
    response is classified by status and content type.  The network itself,
    `JSON.stringify` and `response.json()` are not modelled: the response's
    status, content-type header and parsed body are inputs. */
module FetchJson {
  import opened Wrappers
  import opened JsText

  datatype Method = Get | Post | Put | Patch | Delete

  /** The serialised request body: either no body (`null`), or the JSON text
      of a value, kept symbolic as the value that is stringified. */
  datatype Payload<B> = NoPayload | JsonText(value: B)

  /** Request headers, one value per name, keyed by the lower-cased name
      since `Headers` matches names case-insensitively (the spelling a
      header was first set with is not kept). */
  type Headers = map<string, string>

  /** Caller-supplied headers, in the order their entries are enumerated. */
  type HeaderEntries = seq<(string, string)>

  datatype Request<B> = Request(url: string, verb: Method, body: Payload<B>, headers: Headers)

  /** The name the code sets, and the key it is stored under. */
  const ContentTypeHeader := "Content-Type"
  const ContentTypeKey := "content-type"
  const JsonMediaType := "application/json"

  /** Status 204 No Content. */
  const NoContent := 204

  // ----- request headers (src/fetch-json.ts:11-21) -----

  /** Some entry of `es` has a name that lower-cases to `key`. */
  predicate Named(es: HeaderEntries, key: string) {
    exists i :: 0 <= i < |es| && LowerAscii(es[i].0) == key
  }

  /** Entry `i` is the last one of `es` with its (case-insensitive) name. */
  predicate LastNamed(es: HeaderEntries, i: int)
    requires 0 <= i < |es|
  {
    forall j :: i < j < |es| ==> LowerAscii(es[j].0) != LowerAscii(es[i].0)
  }

  /** `Headers.set`: the value of the header whose name matches `name`
      case-insensitively becomes `value`; keyed by the lower-cased name. */
  function SetHeader(h: Headers, name: string, value: string): (r: Headers)
    ensures LowerAscii(name) in r && r[LowerAscii(name)] == value
    ensures forall k :: k != LowerAscii(name) ==> (k in r <==> k in h)
    ensures forall k :: k != LowerAscii(name) && k in h ==> r[k] == h[k]
  {
    h[LowerAscii(name) := value]
  }

  /** `Headers.set` for every entry of `es`, in order: the last entry of each
      name wins, and names no entry mentions keep their value from `h`. */
  function SetAll(h: Headers, es: HeaderEntries): (r: Headers)
    ensures forall k :: k in r <==> k in h || Named(es, k)
    ensures forall k :: k in h && !Named(es, k) ==> r[k] == h[k]
    ensures forall i :: 0 <= i < |es| ==> LowerAscii(es[i].0) in r
    ensures forall i :: 0 <= i < |es| && LastNamed(es, i) ==> r[LowerAscii(es[i].0)] == es[i].1
  {
    if es == [] then h
    else
      var init := es[..|es| - 1];
      var last := es[|es| - 1];
      SetAllStep(h, es, init, last);
      SetHeader(SetAll(h, init), last.0, last.1)
  }

  /** How naming and last-ness in `es` split between its prefix and last entry. */
  lemma SetAllStep(h: Headers, es: HeaderEntries, init: HeaderEntries, last: (string, string))
    requires es != [] && init == es[..|es| - 1] && last == es[|es| - 1]
    ensures forall k :: Named(es, k) <==> Named(init, k) || LowerAscii(last.0) == k
    ensures forall i :: 0 <= i < |init| && LastNamed(es, i) ==> LastNamed(init, i) && LowerAscii(init[i].0) != LowerAscii(last.0)
  {
    forall k | Named(es, k) ensures Named(init, k) || LowerAscii(last.0) == k {
      var i :| 0 <= i < |es| && LowerAscii(es[i].0) == k;
      if i < |init| {
        assert init[i] == es[i];
      }
    }
    forall k | Named(init, k) ensures Named(es, k) {
      var i :| 0 <= i < |init| && LowerAscii(init[i].0) == k;
      assert es[i] == init[i];
    }
    assert es[|es| - 1] == last;
  }

  /** The headers `fetchJson` sends: `Content-Type: application/json` when
      there is a body, then every caller header set over it. */
  function RequestHeaders<B>(body: Option<B>, headers: Option<HeaderEntries>): (r: Headers)
    ensures forall k :: k in r <==> (k == ContentTypeKey && body.Some?) || Named(headers.GetOr([]), k)
    ensures forall i :: 0 <= i < |headers.GetOr([])| ==> LowerAscii(headers.GetOr([])[i].0) in r
    ensures forall i :: 0 <= i < |headers.GetOr([])| && LastNamed(headers.GetOr([]), i) ==>
      r[LowerAscii(headers.GetOr([])[i].0)] == headers.GetOr([])[i].1
    ensures body.Some? && !Named(headers.GetOr([]), ContentTypeKey) ==> r[ContentTypeKey] == JsonMediaType
  {
    var defaults: Headers := if body.Some? then SetHeader(map[], ContentTypeHeader, JsonMediaType) else map[];
    assert LowerAscii(ContentTypeHeader) == ContentTypeKey;
    match headers
    case None => defaults
    case Some(es) => SetAll(defaults, es)
  }

  /** The request `fetchJson` hands to `fetch` (src/fetch-json.ts:11-27). */
  function BuildRequest<B>(url: string, verb: Method, body: Option<B>, headers: Option<HeaderEntries>): (r: Request<B>)
    ensures r.url == url && r.verb == verb
    ensures r.body.NoPayload? <==> body.None?
    ensures body.Some? ==> r.body == JsonText(body.value)
    ensures r.headers == RequestHeaders(body, headers)
  {
    Request(url, verb, if body.Some? then JsonText(body.value) else NoPayload, RequestHeaders(body, headers))
  }

  // ----- content-type test (src/fetch-json.ts:33-34) -----

  const ApplicationPrefix := "application/"
  const JsonWord := "json"

  /** What `/application\/.*json/.test(s)` accepts: "application/" occurs,
      and "json" occurs at or after its end with no line terminator in
      between (`.` does not match one).  Matching is case-sensitive. */
  ghost predicate JsonPattern(s: string) {
    exists i, j ::
      && OccursAt(s, ApplicationPrefix, i)
      && OccursAt(s, JsonWord, j)
      && i + |ApplicationPrefix| <= j
      && NoLineTerminator(s, i + |ApplicationPrefix|, j)
  }

  /** The content-type header makes the response JSON: it is present,
      non-empty, and matches the pattern. */
  ghost predicate JsonContentType(contentType: Option<string>) {
    contentType.Some? && contentType.value != "" && JsonPattern(contentType.value)
  }

  /** Does `.*json` match starting at index `k`? */
  function JsonFrom(s: string, k: nat): bool
    decreases |s| - k
  {
    if k + |JsonWord| > |s| then false
    else if OccursAt(s, JsonWord, k) then true
    else if IsLineTerminator(s[k]) then false
    else JsonFrom(s, k + 1)
  }

  /** Does the whole pattern match at some start index `i` or later? */
  function ApplicationFrom(s: string, i: nat): bool
    decreases |s| - i
  {
    if i + |ApplicationPrefix| > |s| then false
    else (OccursAt(s, ApplicationPrefix, i) && JsonFrom(s, i + |ApplicationPrefix|)) || ApplicationFrom(s, i + 1)
  }

  /** The regular-expression test, tried at every start index. */
  function MatchesJson(s: string): (b: bool)
    ensures b <==> JsonPattern(s)
  {
    MatchesJsonCorrect(s);
    ApplicationFrom(s, 0)
  }

  /** The scan for "json" from `k` finds one exactly when one starts at or
      after `k` with no line terminator before it. */
  lemma {:induction false} JsonFromCorrect(s: string, k: nat)
    ensures JsonFrom(s, k) <==> exists j :: k <= j && OccursAt(s, JsonWord, j) && NoLineTerminator(s, k, j)
    decreases |s| - k
  {
    if k + |JsonWord| > |s| {
    } else if OccursAt(s, JsonWord, k) {
      assert NoLineTerminator(s, k, k);
    } else if IsLineTerminator(s[k]) {
      forall j | k <= j && OccursAt(s, JsonWord, j) ensures !NoLineTerminator(s, k, j) {
        if j == k {
          assert false;
        }
      }
    } else {
      JsonFromCorrect(s, k + 1);
      if JsonFrom(s, k + 1) {
        var j :| k + 1 <= j && OccursAt(s, JsonWord, j) && NoLineTerminator(s, k + 1, j);
        assert NoLineTerminator(s, k, j);
      }
      forall j | k <= j && OccursAt(s, JsonWord, j) && NoLineTerminator(s, k, j) ensures JsonFrom(s, k + 1) {
        assert j != k;
        assert NoLineTerminator(s, k + 1, j);
      }
    }
  }

  /** The scan for "application/" from `i` succeeds exactly when some later
      occurrence is followed by a match of the "json" scan. */
  lemma {:induction false} ApplicationFromCorrect(s: string, i: nat)
    ensures ApplicationFrom(s, i) <==> exists i' :: i <= i' && OccursAt(s, ApplicationPrefix, i') && JsonFrom(s, i' + |ApplicationPrefix|)
    decreases |s| - i
  {
    if i + |ApplicationPrefix| > |s| {
    } else {
      ApplicationFromCorrect(s, i + 1);
    }
  }

  /** The scan from the start is the regular expression's meaning. */
  lemma MatchesJsonCorrect(s: string)
    ensures ApplicationFrom(s, 0) <==> JsonPattern(s)
  {
    ApplicationFromCorrect(s, 0);
    if ApplicationFrom(s, 0) {
      var i :| 0 <= i && OccursAt(s, ApplicationPrefix, i) && JsonFrom(s, i + |ApplicationPrefix|);
      JsonFromCorrect(s, i + |ApplicationPrefix|);
      var j :| i + |ApplicationPrefix| <= j && OccursAt(s, JsonWord, j) && NoLineTerminator(s, i + |ApplicationPrefix|, j);
      assert JsonPattern(s);
    }
    if JsonPattern(s) {
      var i, j :| && OccursAt(s, ApplicationPrefix, i) && OccursAt(s, JsonWord, j)
                  && i + |ApplicationPrefix| <= j && NoLineTerminator(s, i + |ApplicationPrefix|, j);
      JsonFromCorrect(s, i + |ApplicationPrefix|);
      assert JsonFrom(s, i + |ApplicationPrefix|);
    }
  }

  /** `contentType && /application\/.*json/.test(contentType)`: a missing or
      empty header is not JSON. */
  function IsJson(contentType: Option<string>): (b: bool)
    ensures b <==> JsonContentType(contentType)
  {
    contentType.Some? && contentType.value != "" && MatchesJson(contentType.value)
  }

  // ----- response classification (src/fetch-json.ts:29-47) -----

  /** `response.ok`: the status is in the range 200 to 299, section 2.2.3
      "Statuses" of the WHATWG Fetch Standard. */
  predicate IsOkStatus(status: int) {
    200 <= status <= 299
  }

  /** What `fetchJson` settles with: `null` for 204, the parsed body, or one
      of the errors it throws (non-JSON content type, a body `response.json()`
      cannot parse, a non-ok status). */
  datatype Classification<J> =
    | NullResult
    | NonJson
    | Unparsable
    | HttpFailure(status: int)
    | Ok(body: J)

  /** Classifies a response from its status, its content-type header and the
      outcome of parsing its body (`None` when the body is not valid JSON).
      The checks run in the code's order: 204, then content type, then
      parsing, then the ok range. */
  function Classify<J>(status: int, contentType: Option<string>, body: Option<J>): (c: Classification<J>)
    ensures c.NullResult? <==> status == NoContent
    ensures c.NonJson? <==> status != NoContent && !JsonContentType(contentType)
    ensures c.Unparsable? <==> status != NoContent && JsonContentType(contentType) && body.None?
    ensures c.HttpFailure? <==> status != NoContent && JsonContentType(contentType) && body.Some? && !IsOkStatus(status)
    ensures c.HttpFailure? ==> c.status == status
    ensures c.Ok? <==> status != NoContent && JsonContentType(contentType) && body.Some? && IsOkStatus(status)
    ensures c.Ok? ==> body == Some(c.body)
  {
    if status == NoContent then NullResult
    else if !IsJson(contentType) then NonJson
    else if body.None? then Unparsable
    else if !IsOkStatus(status) then HttpFailure(status)
    else Ok(body.value)
  }

  /** `response.json()` is reached only for a non-204 JSON response. */
  predicate ParsesBody(status: int, contentType: Option<string>) {
    status != NoContent && IsJson(contentType)
  }

  /** A response whose body is never parsed is classified the same whatever
      its body: 204 and non-JSON responses do not depend on it. */
  lemma UnparsedBodyIgnored<J>(status: int, contentType: Option<string>, b1: Option<J>, b2: Option<J>)
    requires !ParsesBody(status, contentType)
    ensures Classify(status, contentType, b1) == Classify(status, contentType, b2)
    ensures Classify(status, contentType, b1).NullResult? || Classify(status, contentType, b1).NonJson?
  {
  }
}
