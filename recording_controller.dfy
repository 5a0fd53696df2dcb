/**
 * The two string helpers of the recordings endpoint on the server: the file
 * name placed in a download's Content-Disposition header, and the token taken
 * from an Authorization header. Java's `null` is `None`; a thrown
 * IllegalArgumentException is an `Err`.
 */
module RecordingController {
  import opened Wrappers
  import opened Text

  /** Java's `Character.isWhitespace`, which `String.isBlank` tests every character with. */
  predicate IsWhitespace(c: char) {
    var n := c as int;
    || 9 <= n <= 13 || 28 <= n <= 32
    || n == 0x1680 || 0x2000 <= n <= 0x2006 || 0x2008 <= n <= 0x200A
    || n == 0x2028 || n == 0x2029 || n == 0x205F || n == 0x3000
  }

  /** `String.isBlank`: empty, or whitespace only. */
  predicate IsBlank(s: string) {
    forall i :: 0 <= i < |s| ==> IsWhitespace(s[i])
  }

  /** The name used when the stored one is missing or blank. */
  const Fallback: string := "recording"

  /** The characters that could end the quoted name or the header line. */
  predicate Unsafe(c: char) {
    c == '\r' || c == '\n' || c == '"'
  }

  /** `replaceAll("[\\r\\n\"]", "_")`: each unsafe character becomes `_`, every other one stays. */
  function Sanitize(s: string): (r: string)
    ensures |r| == |s|
    ensures forall i :: 0 <= i < |s| ==> !Unsafe(r[i])
    ensures forall i :: 0 <= i < |s| && !Unsafe(s[i]) ==> r[i] == s[i]
    ensures forall i :: 0 <= i < |s| && Unsafe(s[i]) ==> r[i] == '_'
  {
    if |s| == 0 then ""
    else [if Unsafe(s[0]) then '_' else s[0]] + Sanitize(s[1..])
  }

  /**
   * `safeFileName`: the fallback for a missing or blank name; otherwise the
   * name, character for character, with no unsafe character left.
   */
  function SafeFileName(name: Option<string>): (r: string)
    ensures forall i :: 0 <= i < |r| ==> !Unsafe(r[i])
    ensures name.None? || IsBlank(name.value) ==> r == Fallback
    ensures name.Some? && !IsBlank(name.value) ==>
              && |r| == |name.value|
              && forall i :: 0 <= i < |r| && !Unsafe(name.value[i]) ==> r[i] == name.value[i]
  {
    if name.None? || IsBlank(name.value) then Fallback else Sanitize(name.value)
  }

  /** A character kept or replaced by `_` is whitespace only if it was kept. */
  lemma SanitizeKeepsNonBlank(s: string)
    requires !IsBlank(s)
    ensures !IsBlank(Sanitize(s))
  {
    var k :| 0 <= k < |s| && !IsWhitespace(s[k]);
    assert !IsWhitespace(Sanitize(s)[k]);
  }

  /** The name `safeFileName` gives is never blank. */
  lemma SafeFileNameNeverBlank(name: Option<string>)
    ensures !IsBlank(SafeFileName(name))
  {
    if name.None? || IsBlank(name.value) {
      assert !IsWhitespace(Fallback[0]);
    } else {
      SanitizeKeepsNonBlank(name.value);
    }
  }

  /** Sanitising an already safe name changes nothing: `safeFileName` is idempotent. */
  lemma SafeFileNameIdempotent(name: Option<string>)
    ensures SafeFileName(Some(SafeFileName(name))) == SafeFileName(name)
  {
    SafeFileNameNeverBlank(name);
    var r := SafeFileName(name);
    assert Sanitize(r) == r;
  }

  /** What the header value starts with, up to and including the opening quote. */
  const DispositionPrefix: string := "attachment; filename=\""

  /** The Content-Disposition value of a download. */
  function ContentDisposition(fileName: Option<string>): string {
    DispositionPrefix + SafeFileName(fileName) + "\""
  }

  /**
   * The header value holds no line break, its only quotes are the two around
   * the name, and what lies between them is the safe name: a stored name
   * cannot close the quotes early or start a new header line.
   */
  lemma HeaderQuotesOnlyTheName(fileName: Option<string>)
    ensures var h := ContentDisposition(fileName);
            && (forall i :: 0 <= i < |h| ==> h[i] != '\r' && h[i] != '\n')
            && (forall i :: 0 <= i < |h| && h[i] == '"' ==> i == |DispositionPrefix| - 1 || i == |h| - 1)
            && h[|DispositionPrefix|..|h| - 1] == SafeFileName(fileName)
  {
    var h := ContentDisposition(fileName);
    var n := SafeFileName(fileName);
    var p := |DispositionPrefix|;
    assert forall i :: 0 <= i < p - 1 ==> !Unsafe(DispositionPrefix[i]);
    forall i | 0 <= i < |h|
      ensures h[i] != '\r' && h[i] != '\n'
      ensures h[i] == '"' ==> i == p - 1 || i == |h| - 1
    {
      if i < p {
        assert h[i] == DispositionPrefix[i];
      } else if i < |h| - 1 {
        assert h[i] == n[i - p];
      }
    }
    assert h[p..|h| - 1] == n;
  }

  /** Java's `trim` at the front: characters up to U+0020 are dropped. */
  function TrimStart(s: string): (r: string)
    ensures |r| <= |s| && r == s[|s| - |r|..]
    ensures forall i :: 0 <= i < |s| - |r| ==> s[i] <= ' '
    ensures |r| > 0 ==> r[0] > ' '
  {
    if |s| > 0 && s[0] <= ' ' then TrimStart(s[1..]) else s
  }

  /** Java's `trim` at the back. */
  function TrimEnd(s: string): (r: string)
    ensures |r| <= |s| && r == s[..|r|]
    ensures forall i :: |r| <= i < |s| ==> s[i] <= ' '
    ensures |r| > 0 ==> r[|r| - 1] > ' '
  {
    if |s| > 0 && s[|s| - 1] <= ' ' then TrimEnd(s[..|s| - 1]) else s
  }

  /** `String.trim`: neither end of the result is a character up to U+0020. */
  function Trim(s: string): (r: string)
    ensures |r| <= |s|
    ensures |r| > 0 ==> r[0] > ' ' && r[|r| - 1] > ' '
  {
    TrimEnd(TrimStart(s))
  }

  /** A string with clean ends is its own trim. */
  lemma TrimClean(s: string)
    requires |s| == 0 || (s[0] > ' ' && s[|s| - 1] > ' ')
    ensures Trim(s) == s
  {
  }

  /** Trimming twice trims no more than once. */
  lemma TrimIdempotent(s: string)
    ensures Trim(Trim(s)) == Trim(s)
  {
    TrimClean(Trim(s));
  }

  /**
   * Java's `String.replace(p, "")`: every occurrence of p, found left to
   * right without overlap, is removed.
   */
  function RemoveAll(s: string, p: string): (r: string)
    requires |p| > 0
    ensures |r| <= |s|
    decreases |s|
  {
    if |s| == 0 then s
    else if StartsWith(s, p) then RemoveAll(s[|p|..], p)
    else [s[0]] + RemoveAll(s[1..], p)
  }

  /** A string where p does not occur is left as it is. */
  lemma {:induction false} RemoveAllAbsent(s: string, p: string)
    requires |p| > 0
    requires forall j :: !OccursAt(s, p, j)
    ensures RemoveAll(s, p) == s
    decreases |s|
  {
    if |s| > 0 {
      assert !OccursAt(s, p, 0);
      forall j: nat
        ensures !OccursAt(s[1..], p, j)
      {
        if j + |p| <= |s| - 1 {
          assert s[1..][j..j + |p|] == s[j + 1..j + 1 + |p|];
          assert !OccursAt(s, p, j + 1);
        }
      }
      RemoveAllAbsent(s[1..], p);
    }
  }

  const BearerPrefix: string := "Bearer "

  /**
   * `resolveUserIdOrThrow` up to the token check: a missing or blank header is
   * an error; otherwise the token is the header with every "Bearer " removed,
   * then trimmed. The token is no longer than the header and has clean ends.
   */
  function ResolveToken(authorization: Option<string>): (r: Result<string, string>)
    ensures r.Err? <==> authorization.None? || IsBlank(authorization.value)
    ensures r.Ok? ==> |r.value| <= |authorization.value|
    ensures r.Ok? ==> |r.value| == 0 || (r.value[0] > ' ' && r.value[|r.value| - 1] > ' ')
  {
    if authorization.None? || IsBlank(authorization.value) then Err("Authorization is required")
    else Ok(Trim(RemoveAll(authorization.value, BearerPrefix)))
  }

  /**
   * The header "Bearer " + t yields exactly t, for a token t that holds no
   * "Bearer " of its own and has clean ends.
   */
  lemma BearerTokenRoundTrip(t: string)
    requires forall j :: !OccursAt(t, BearerPrefix, j)
    requires |t| == 0 || (t[0] > ' ' && t[|t| - 1] > ' ')
    ensures ResolveToken(Some(BearerPrefix + t)) == Ok(t)
  {
    var h := BearerPrefix + t;
    assert !IsWhitespace(h[0]);
    assert StartsWith(h, BearerPrefix);
    assert h[|BearerPrefix|..] == t;
    RemoveAllAbsent(t, BearerPrefix);
    TrimClean(t);
  }

  /** A header without the scheme is passed on as the token itself. */
  lemma BareTokenPassesThrough(t: string)
    requires !IsBlank(t)
    requires forall j :: !OccursAt(t, BearerPrefix, j)
    requires t[0] > ' ' && t[|t| - 1] > ' '
    ensures ResolveToken(Some(t)) == Ok(t)
  {
    RemoveAllAbsent(t, BearerPrefix);
    TrimClean(t);
  }
}
