/** The three Python string operations the bot's handlers rely on:
    `str.strip()`, `str.replace(pat, "")` and `str.startswith(pat)`.
    Strings are sequences of Unicode code points, as Python's are. */
module Text {

  /** `str.isspace()` for one code point: the characters Python's `strip()`
      removes when called without arguments. */
  predicate IsSpace(c: char)
  {
    || ('\t' <= c <= '\r')                    // U+0009 .. U+000D
    || ('\U{1C}' <= c <= ' ')                 // U+001C .. U+0020
    || c == '\U{85}' || c == '\U{A0}' || c == '\U{1680}'
    || ('\U{2000}' <= c <= '\U{200A}')
    || c == '\U{2028}' || c == '\U{2029}' || c == '\U{202F}'
    || c == '\U{205F}' || c == '\U{3000}'
  }

  /** Drops leading white space: the result is a suffix of `s`, everything
      dropped is white space, and the result does not start with white space. */
  function TrimStart(s: string): (r: string)
    ensures |r| <= |s| && r == s[|s| - |r|..]
    ensures forall k :: 0 <= k < |s| - |r| ==> IsSpace(s[k])
    ensures r == [] || !IsSpace(r[0])
  {
    if |s| > 0 && IsSpace(s[0]) then TrimStart(s[1..]) else s
  }

  /** Drops trailing white space: the result is a prefix of `s`, everything
      dropped is white space, and the result does not end with white space. */
  function TrimEnd(s: string): (r: string)
    ensures |r| <= |s| && r == s[..|r|]
    ensures forall k :: |r| <= k < |s| ==> IsSpace(s[k])
    ensures r == [] || !IsSpace(r[|r| - 1])
  {
    if |s| > 0 && IsSpace(s[|s| - 1]) then TrimEnd(s[..|s| - 1]) else s
  }

  /** Python's `s.strip()`: leading, then trailing white space removed;
      neither end of the result is white space. */
  function Strip(s: string): (r: string)
    ensures |r| <= |s| && Stripped(r)
  {
    TrimEndStripped(TrimStart(s));
    TrimEnd(TrimStart(s))
  }

  /** Neither end of `s` is white space: what `strip()` leaves behind. */
  predicate Stripped(s: string)
  {
    s == [] || (!IsSpace(s[0]) && !IsSpace(s[|s| - 1]))
  }

  /** Trimming the end of a string that does not start with white space
      leaves both ends free of white space. */
  lemma TrimEndStripped(t: string)
    requires t == [] || !IsSpace(t[0])
    ensures Stripped(TrimEnd(t))
  {
    var r := TrimEnd(t);
    if r != [] {
      assert r[0] == t[0];
    }
  }

  /** `Strip(s)` is the infix `s[i..j]` whose two ends are not white space and
      around which there is nothing but white space. */
  lemma StripIsTrimmedInfix(s: string) returns (i: nat, j: nat)
    ensures i <= j <= |s| && Strip(s) == s[i..j]
    ensures Stripped(Strip(s))
    ensures forall k :: 0 <= k < i ==> IsSpace(s[k])
    ensures forall k :: j <= k < |s| ==> IsSpace(s[k])
  {
    var t := TrimStart(s);
    TrimEndStripped(t);
    i := |s| - |t|;
    j := i + |TrimEnd(t)|;
    assert t == s[i..];
    assert TrimEnd(t) == t[..j - i] == s[i..j];
    forall k | j <= k < |s| ensures IsSpace(s[k]) {
      assert s[k] == t[k - i];
    }
  }

  /** `strip()` is idempotent: a stripped nickname strips to itself. */
  lemma StripIdempotent(s: string)
    ensures Strip(Strip(s)) == Strip(s)
  {
    var r := Strip(s);
    assert Stripped(r) by { var _, _ := StripIsTrimmedInfix(s); }
    assert TrimStart(r) == r;
    assert TrimEnd(r) == r;
  }

  /** `s.startswith(pat)`. */
  predicate StartsWith(s: string, pat: string)
  {
    |pat| <= |s| && s[..|pat|] == pat
  }

  /** `pat` occurs somewhere in `s` as a contiguous piece. */
  predicate OccursIn(pat: string, s: string)
    decreases |s|
  {
    StartsWith(s, pat) || (|s| > 0 && OccursIn(pat, s[1..]))
  }

  /** Python's `s.replace(pat, "")` for a non-empty `pat`: scanning from the
      left, every non-overlapping occurrence of `pat` is deleted. */
  function RemoveAll(s: string, pat: string): (r: string)
    requires pat != []
    ensures |r| <= |s|
    decreases |s|
  {
    if |s| == 0 then []
    else if StartsWith(s, pat) then RemoveAll(s[|pat|..], pat)
    else [s[0]] + RemoveAll(s[1..], pat)
  }

  /** Deleting a pattern that does not occur leaves the string as it was. */
  lemma {:induction false} RemoveAllAbsent(s: string, pat: string)
    requires pat != [] && !OccursIn(pat, s)
    ensures RemoveAll(s, pat) == s
    decreases |s|
  {
    if |s| > 0 {
      RemoveAllAbsent(s[1..], pat);
      assert s == [s[0]] + s[1..];
    }
  }

  /** A pattern holding a character that `s` lacks cannot occur in `s`. */
  lemma {:induction false} MissingCharNoOccurrence(pat: string, s: string, c: char)
    requires c in pat && c !in s
    ensures !OccursIn(pat, s)
    decreases |s|
  {
    if |s| > 0 {
      assert forall k :: 0 <= k < |s[1..]| ==> s[1..][k] == s[k + 1];
      MissingCharNoOccurrence(pat, s[1..], c);
    }
  }

  /** The callback round trip: a tag built as `prefix + id` decodes back to
      `id` under `replace(prefix, "")`, provided `id` contains a character the
      prefix has and `id` lacks (every tag in the bot ends its prefix with `_`
      and has no `_` in its identifier). */
  lemma TagRoundTrip(prefix: string, id: string, c: char)
    requires prefix != [] && c in prefix && c !in id
    ensures StartsWith(prefix + id, prefix)
    ensures RemoveAll(prefix + id, prefix) == id
  {
    var s := prefix + id;
    assert s[..|prefix|] == prefix;
    assert s[|prefix|..] == id;
    MissingCharNoOccurrence(prefix, id, c);
    RemoveAllAbsent(id, prefix);
  }
}
