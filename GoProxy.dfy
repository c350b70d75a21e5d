/**
 * The two map-rewriting steps of the Go HTTP proxy (`handleProxy` in
 * main.go): merging the caller's query into the target URL's query, and
 * copying the upstream response headers while dropping the ones that
 * describe the original body's length and encoding.  `url.Values` and
 * `http.Header` are both maps from a key to its list of values.
 */
module GoProxy {
  import opened Decimal

  type Values = map<string, seq<string>>

  const UrlKey: string := "url"
  const ContentLength: string := "Content-Length"

  predicate IsAscii(s: string) {
    forall i :: 0 <= i < |s| ==> s[i] < 128 as char
  }

  function AsciiLower(c: char): (l: char) {
    if 'A' <= c <= 'Z' then (c as int + 32) as char else c
  }

  /**
   * Go's simple case folding of a rune `c` against an ASCII rune `p`: equal
   * up to ASCII case, plus the two non-ASCII runes whose fold orbit holds an
   * ASCII letter, the Kelvin sign (U+212A, with k) and the long s (U+017F,
   * with s).
   */
  predicate FoldsTo(c: char, p: char)
    requires p < 128 as char
  {
    || AsciiLower(c) == AsciiLower(p)
    || (AsciiLower(p) == 'k' && c == '\U{212A}')
    || (AsciiLower(p) == 's' && c == '\U{017F}')
  }

  /** `s` with every ASCII capital replaced by its small letter. */
  function Lowered(s: string): (r: string)
    ensures |r| == |s| && forall i :: 0 <= i < |s| ==> r[i] == AsciiLower(s[i])
  {
    if s == [] then [] else [AsciiLower(s[0])] + Lowered(s[1..])
  }

  /**
   * `strings.EqualFold(s, pattern)` for an ASCII `pattern`.  On ASCII text it
   * is plain comparison after lowering capitals; only the Kelvin sign and
   * the long s let non-ASCII text match.
   */
  predicate EqualFold(s: string, pattern: string): (r: bool)
    requires IsAscii(pattern)
    ensures r ==> |s| == |pattern|
    ensures s == pattern ==> r
  {
    |s| == |pattern| && forall i :: 0 <= i < |s| ==> FoldsTo(s[i], pattern[i])
  }

  /**
   * The response headers handleProxy does not copy: the three names, in any
   * letter case.  Nothing of another length is stripped.
   */
  predicate IsStripped(k: string): (r: bool)
    ensures k == ContentLength || k == "Transfer-Encoding" || k == "Content-Encoding" ==> r
    ensures r ==> |k| == 14 || |k| == 16 || |k| == 17
  {
    || EqualFold(k, "Content-Length")
    || EqualFold(k, "Transfer-Encoding")
    || EqualFold(k, "Content-Encoding")
  }

  /** On ASCII text folding is plain comparison after lowering capitals. */
  lemma EqualFoldOnAscii(s: string, pattern: string)
    requires IsAscii(s) && IsAscii(pattern)
    ensures EqualFold(s, pattern) <==> Lowered(s) == Lowered(pattern)
  {
  }

  /** Folding compares ASCII text up to case, so lowering the text first changes nothing. */
  lemma EqualFoldIgnoresCase(s: string, pattern: string)
    requires IsAscii(s) && IsAscii(pattern)
    ensures IsAscii(Lowered(s))
    ensures EqualFold(Lowered(s), pattern) == EqualFold(s, pattern)
  {
  }

  /** Lowering the capitals of an ASCII header name does not change whether it is stripped. */
  lemma StrippedIgnoresCase(k: string)
    requires IsAscii(k)
    ensures IsAscii(Lowered(k))
    ensures IsStripped(Lowered(k)) == IsStripped(k)
  {
    EqualFoldIgnoresCase(k, ContentLength);
    EqualFoldIgnoresCase(k, "Transfer-Encoding");
    EqualFoldIgnoresCase(k, "Content-Encoding");
  }

  /**
   * Every key of the incoming query except "url" is `Set` on the target
   * URL's query with its first value, replacing whatever values that key had
   * there; the target's other keys, its own "url" included, are kept.
   * (Every key of a parsed query has at least one value.)
   */
  method MergeQuery(targetQuery: Values, incoming: Values) returns (q: Values)
    requires forall k :: k in incoming ==> incoming[k] != []
    ensures forall k :: k in q <==> k in targetQuery || (k in incoming && k != UrlKey)
    ensures forall k :: k in incoming && k != UrlKey ==> q[k] == [incoming[k][0]]
    ensures forall k :: k in targetQuery && (k !in incoming || k == UrlKey) ==> q[k] == targetQuery[k]
  {
    q := targetQuery;
    var pending := incoming.Keys;
    while pending != {}
      invariant pending <= incoming.Keys
      invariant forall k :: k in q <==> k in targetQuery || (k in incoming && k !in pending && k != UrlKey)
      invariant forall k :: k in incoming && k !in pending && k != UrlKey ==> q[k] == [incoming[k][0]]
      invariant forall k :: k in targetQuery && !(k in incoming && k !in pending && k != UrlKey) ==>
        q[k] == targetQuery[k]
      decreases pending
    {
      var k :| k in pending;
      if k != UrlKey {
        q := q[k := [incoming[k][0]]];
      }
      pending := pending - {k};
    }
  }

  /**
   * Copy every upstream response header that is not stripped onto the
   * response's headers (overwriting a same-named one), then set
   * Content-Length to the length of the body actually sent.
   */
  method CopyResponseHeaders(header: Values, respHeader: Values, bodyLength: nat) returns (out: Values)
    ensures ContentLength in out && out[ContentLength] == [FormatInt(bodyLength)]
    ensures forall k :: k != ContentLength ==>
      (k in out <==> k in header || (k in respHeader && !IsStripped(k)))
    ensures forall k :: k != ContentLength && k in respHeader && !IsStripped(k) ==> out[k] == respHeader[k]
    ensures forall k :: k != ContentLength && k in header && !(k in respHeader && !IsStripped(k)) ==>
      out[k] == header[k]
  {
    out := header;
    var pending := respHeader.Keys;
    while pending != {}
      invariant pending <= respHeader.Keys
      invariant forall k :: k in out <==> k in header || (k in respHeader && k !in pending && !IsStripped(k))
      invariant forall k :: k in respHeader && k !in pending && !IsStripped(k) ==> out[k] == respHeader[k]
      invariant forall k :: k in header && !(k in respHeader && k !in pending && !IsStripped(k)) ==>
        out[k] == header[k]
      decreases pending
    {
      var k :| k in pending;
      if !IsStripped(k) {
        out := out[k := respHeader[k]];
      }
      pending := pending - {k};
    }
    out := out[ContentLength := [FormatInt(bodyLength)]];
  }
}
