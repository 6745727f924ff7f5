/** Consequences of the request-building and classification rules of
    `fetchJson`: header precedence, the order of the response checks, and
    what the content-type pattern does and does not accept. */
module FetchJsonProperties {
  import opened Wrappers
  import opened JsText
  import opened FetchJson

  // ----- request headers -----

  /** Without a body, and without caller headers, nothing is set. */
  lemma NoBodyNoHeaders<B>()
    ensures RequestHeaders<B>(None, None) == map[]
    ensures RequestHeaders<B>(None, Some([])) == map[]
  {
  }

  /** A caller's Content-Type, written in any ASCII case, replaces the JSON
      default. */
  lemma CallerContentTypeWins<B>(body: B, name: string, value: string)
    requires LowerAscii(name) == ContentTypeKey
    ensures RequestHeaders(Some(body), Some([(name, value)])) == map[ContentTypeKey := value]
  {
    var r := RequestHeaders(Some(body), Some([(name, value)]));
    assert LastNamed([(name, value)], 0);
    assert forall k :: Named([(name, value)], k) <==> k == ContentTypeKey;
    assert r.Keys == {ContentTypeKey};
  }

  lemma UpperCaseContentTypeWins<B>(body: B)
    ensures RequestHeaders(Some(body), Some([("CONTENT-TYPE", "text/plain")])) == map[ContentTypeKey := "text/plain"]
  {
    CallerContentTypeWins(body, "CONTENT-TYPE", "text/plain");
  }

  /** Two caller headers differing only in case are one header: the later
      entry's value is the one sent. */
  lemma LaterCaseVariantWins(a: string, b: string)
    ensures RequestHeaders<int>(None, Some([("X-Token", a), ("x-token", b)])) == map["x-token" := b]
  {
    var es := [("X-Token", a), ("x-token", b)];
    assert LowerAscii("X-Token") == "x-token" && LowerAscii("x-token") == "x-token";
    assert LastNamed(es, 1);
    assert forall k :: Named(es, k) <==> k == "x-token";
  }

  // ----- check order -----

  /** 204 is tested first: no content type and no body matters. */
  lemma NoContentFirst<J>(contentType: Option<string>, body: Option<J>)
    ensures Classify(NoContent, contentType, body) == NullResult
  {
  }

  /** The content type is tested before the status: an HTML error page is
      `NonJson`, not an HTTP failure. */
  lemma ContentTypeBeforeStatus<J>(status: int, body: Option<J>)
    requires status != NoContent
    ensures Classify(status, Some("text/html"), body) == NonJson
    ensures Classify(status, None, body) == NonJson
    ensures Classify(status, Some(""), body) == NonJson
  {
    assert !MatchesJson("text/html");
  }

  /** A JSON error response is an HTTP failure carrying its status, and a
      JSON success response yields its parsed body unchanged; the ok range
      ends at 299. */
  lemma JsonByStatus<J>(body: J)
    ensures Classify(500, Some(JsonMediaType), Some(body)) == HttpFailure(500)
    ensures Classify(300, Some(JsonMediaType), Some(body)) == HttpFailure(300)
    ensures Classify(200, Some(JsonMediaType), Some(body)) == Ok(body)
    ensures Classify(299, Some(JsonMediaType), Some(body)) == Ok(body)
  {
    assert MatchesJson(JsonMediaType);
  }

  /** Media types with a suffix or parameters are JSON too. */
  lemma JsonVariants<J>(body: J)
    ensures Classify(404, Some("application/problem+json"), Some(body)) == HttpFailure(404)
    ensures Classify(201, Some("application/json; charset=utf-8"), Some(body)) == Ok(body)
  {
    var s := "application/problem+json";
    assert OccursAt(s, ApplicationPrefix, 0) && OccursAt(s, JsonWord, |s| - 4);
    assert NoLineTerminator(s, |ApplicationPrefix|, |s| - 4);
    var t := "application/json; charset=utf-8";
    assert OccursAt(t, ApplicationPrefix, 0) && OccursAt(t, JsonWord, |ApplicationPrefix|);
    assert NoLineTerminator(t, |ApplicationPrefix|, |ApplicationPrefix|);
  }

  /** A JSON response whose body does not parse fails before the status is
      looked at. */
  lemma ParseBeforeStatus<J>(status: int)
    requires status != NoContent
    ensures Classify<J>(status, Some("application/json"), None) == Unparsable
  {
    assert MatchesJson("application/json");
  }

  // ----- the content-type pattern -----

  /** The match is case-sensitive: an upper-case media type is not JSON. */
  lemma UpperCaseIsNotJson()
    ensures !MatchesJson("Application/JSON")
  {
    var s := "Application/JSON";
    forall i | 0 <= i <= |s| - |ApplicationPrefix| ensures !OccursAt(s, ApplicationPrefix, i) {
      assert s[i] != 'a' && ApplicationPrefix[0] == 'a';
      assert s[i..i + |ApplicationPrefix|][0] == s[i];
    }
  }

  /** `.` does not cross a line break. */
  lemma LineBreakIsNotJson()
    ensures !MatchesJson("application/\njson")
  {
    var s := "application/\njson";
    forall i | 0 < i <= |s| - |ApplicationPrefix| ensures !OccursAt(s, ApplicationPrefix, i) {
      assert s[i] != 'a' && ApplicationPrefix[0] == 'a';
      assert s[i..i + |ApplicationPrefix|][0] == s[i];
    }
    assert IsLineTerminator(s[12]) && s[12] != 'j';
    assert s[12..16][0] == s[12];
    forall j | |ApplicationPrefix| <= j ensures !(OccursAt(s, JsonWord, j) && NoLineTerminator(s, |ApplicationPrefix|, j)) {
      if j == 12 {
        assert !OccursAt(s, JsonWord, j);
      }
    }
  }

  /** The pattern is a substring test: "json" anywhere after "application/"
      suffices, even in a parameter of another media type. */
  lemma SubstringMatch()
    ensures MatchesJson("application/xml; profile=json")
  {
    var s := "application/xml; profile=json";
    assert OccursAt(s, ApplicationPrefix, 0) && OccursAt(s, JsonWord, |s| - 4);
    assert NoLineTerminator(s, |ApplicationPrefix|, |s| - 4);
  }

  /** Without "application/" before it, "json" is not enough. */
  lemma JsonAloneIsNotJson()
    ensures !MatchesJson("text/json")
  {
    var s := "text/json";
    assert |s| < |ApplicationPrefix|;
  }

  lemma OrderMatters()
    ensures !MatchesJson("json; application/")
  {
    var s := "json; application/";
    forall i, j | OccursAt(s, ApplicationPrefix, i) && OccursAt(s, JsonWord, j)
      ensures j < i + |ApplicationPrefix|
    {
      assert s[j] == s[j..j + |JsonWord|][0];
    }
  }
}
