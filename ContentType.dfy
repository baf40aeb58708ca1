/**
 * The response-type rule applied to a successful response: a plain,
 * case-sensitive substring test on the content-type header, "json" before
 * "xml", with "html" as the fallback.
 */
module ContentType {

  /** How the response body is shown. */
  datatype ResponseType = Json | Xml | Html

  /** `t` occurs in `s` starting at position `i`. */
  ghost predicate OccursAt(t: string, s: string, i: int)
  {
    0 <= i <= |s| - |t| && s[i..i + |t|] == t
  }

  /** `t` occurs in `s` at some position (the meaning of `includes`). */
  ghost predicate OccursIn(t: string, s: string)
  {
    exists i :: OccursAt(t, s, i)
  }

  /** When `t` is not a prefix of `s`, its occurrences are those in `s[1..]`, shifted by one. */
  lemma OccursInTail(t: string, s: string)
    requires s != [] && !StartsWith(s, t)
    ensures OccursIn(t, s) <==> OccursIn(t, s[1..])
  {
    if OccursIn(t, s) {
      var i :| OccursAt(t, s, i);
      assert i != 0;
      assert s[1..][i - 1..i - 1 + |t|] == s[i..i + |t|];
      assert OccursAt(t, s[1..], i - 1);
    }
    if OccursIn(t, s[1..]) {
      var i :| OccursAt(t, s[1..], i);
      assert s[1..][i..i + |t|] == s[i + 1..i + 1 + |t|];
      assert OccursAt(t, s, i + 1);
    }
  }

  predicate StartsWith(s: string, t: string)
  {
    |t| <= |s| && s[..|t|] == t
  }

  /** `s.includes(t)`, by scanning the start positions of `s` in order. */
  function Includes(s: string, t: string): (b: bool)
    ensures b <==> OccursIn(t, s)
    decreases |s|
  {
    if StartsWith(s, t) then
      assert OccursAt(t, s, 0);
      true
    else if s == [] then
      false
    else
      OccursInTail(t, s);
      Includes(s[1..], t)
  }

  /**
   * The if/else chain on the content type: a type containing "json" is
   * shown as JSON even when it also contains "xml"; otherwise one
   * containing "xml" is shown as XML; anything else as HTML.
   */
  function Classify(contentType: string): (r: ResponseType)
    ensures r == Json <==> OccursIn("json", contentType)
    ensures r == Xml <==> !OccursIn("json", contentType) && OccursIn("xml", contentType)
    ensures r == Html <==> !OccursIn("json", contentType) && !OccursIn("xml", contentType)
  {
    if Includes(contentType, "json") then Json
    else if Includes(contentType, "xml") then Xml
    else Html
  }

  /** A string lacking one of the characters of `t` has no occurrence of `t`. */
  lemma MissingCharMeansAbsent(t: string, s: string, k: nat)
    requires k < |t| && t[k] !in s
    ensures !OccursIn(t, s)
  {
    forall i | 0 <= i <= |s| - |t|
      ensures !OccursAt(t, s, i)
    {
      assert s[i..i + |t|][k] == s[i + k] != t[k];
    }
  }

  /** A JSON media type with parameters is shown as JSON. */
  lemma ClassifyJsonWithParameters()
    ensures Classify("application/json; charset=utf-8") == Json
  {
    assert OccursAt("json", "application/json; charset=utf-8", 12);
  }

  /** An XML media type is shown as XML. */
  lemma ClassifyXml()
    ensures Classify("text/xml") == Xml
  {
    MissingCharMeansAbsent("json", "text/xml", 0);
    assert OccursAt("xml", "text/xml", 5);
  }

  /** A type naming both is shown as JSON, the first test in the chain. */
  lemma ClassifyJsonBeforeXml()
    ensures Classify("application/xml; profile=json") == Json
  {
    assert OccursAt("json", "application/xml; profile=json", 25);
  }

  /** Plain text, and an upper-case "JSON" the case-sensitive test misses, are shown as HTML. */
  lemma ClassifyFallback()
    ensures Classify("text/plain") == Html
    ensures Classify("APPLICATION/JSON") == Html
  {
    MissingCharMeansAbsent("json", "text/plain", 0);
    MissingCharMeansAbsent("xml", "text/plain", 1);
    MissingCharMeansAbsent("json", "APPLICATION/JSON", 0);
    MissingCharMeansAbsent("xml", "APPLICATION/JSON", 0);
  }
}
