/**
 * The handful of Python `str` operations the core relies on: `strip()`,
 * `lower()`, `split(sep)` and the substring test `w in s`. Characters are
 * restricted to ASCII: `strip()` removes exactly the ASCII characters for
 * which Python's `str.isspace()` holds, and `lower()` maps `A`-`Z` to `a`-`z`.
 */
module Text {

  /** The ASCII characters Python's `str.isspace()` accepts. */
  predicate IsSpace(c: char) {
    c == ' ' || c == '\t' || c == '\n' || c == '\r' || c == '\U{0B}' || c == '\U{0C}'
    || c == '\U{1C}' || c == '\U{1D}' || c == '\U{1E}' || c == '\U{1F}'
  }

  predicate AllSpace(s: string) {
    forall k :: 0 <= k < |s| ==> IsSpace(s[k])
  }

  /** Neither end of `s` is whitespace: what `strip()` leaves. */
  predicate Trimmed(s: string) {
    s == [] || (!IsSpace(s[0]) && !IsSpace(s[|s| - 1]))
  }

  /** `r` is a slice of `s` with nothing but whitespace cut off at either end. */
  predicate StrippedFrom(r: string, s: string) {
    exists a, b :: 0 <= a <= b <= |s| && r == s[a..b] && AllSpace(s[..a]) && AllSpace(s[b..])
  }

  /** `s.lstrip()`: drops the leading whitespace and nothing else. */
  function TrimStart(s: string): (r: string)
    ensures |r| <= |s| && r == s[|s| - |r|..]
    ensures forall k :: 0 <= k < |s| - |r| ==> IsSpace(s[k])
    ensures r != [] ==> !IsSpace(r[0])
    decreases |s|
  {
    if s != [] && IsSpace(s[0]) then TrimStart(s[1..]) else s
  }

  /** `s.rstrip()`: drops the trailing whitespace and nothing else. */
  function TrimEnd(s: string): (r: string)
    ensures |r| <= |s| && r == s[..|r|]
    ensures forall k :: |r| <= k < |s| ==> IsSpace(s[k])
    ensures r != [] ==> !IsSpace(r[|r| - 1])
    decreases |s|
  {
    if s != [] && IsSpace(s[|s| - 1]) then TrimEnd(s[..|s| - 1]) else s
  }

  /** `s.strip()`. */
  function Strip(s: string): (r: string)
    ensures Trimmed(r)
    ensures |r| <= |s|
    ensures r == [] <==> AllSpace(s)
    ensures Trimmed(s) ==> r == s
  {
    var t := TrimStart(s);
    var r := TrimEnd(t);
    assert r == [] ==> t == [];
    r
  }

  /** Stripping cuts off whitespace only, leaving a slice of the input. */
  lemma StripIsSlice(s: string)
    ensures StrippedFrom(Strip(s), s)
  {
    var t := TrimStart(s);
    var r := TrimEnd(t);
    var a := |s| - |t|;
    var b := a + |r|;
    assert r == s[a..b];
    assert forall k :: 0 <= k < a ==> s[..a][k] == s[k];
    assert forall k :: 0 <= k < |s| - b ==> s[b..][k] == t[|r| + k];
    assert AllSpace(s[..a]) && AllSpace(s[b..]);
  }

  /** A character absent from a string is absent from every slice of it. */
  lemma NotInSlice(s: string, c: char, a: nat, b: nat)
    requires c !in s && a <= b <= |s|
    ensures c !in s[a..b]
  {
    forall k | 0 <= k < b - a ensures s[a..b][k] != c {
      assert s[a..b][k] == s[a + k];
    }
  }

  /** Stripping only removes characters: a character absent from the input is absent from the result. */
  lemma StripOmitsNothingNew(s: string, c: char)
    requires c !in s
    ensures c !in Strip(s)
  {
    var t := TrimStart(s);
    assert t == s[|s| - |t|..|s|];
    NotInSlice(s, c, |s| - |t|, |s|);
    var r := TrimEnd(t);
    assert r == t[0..|r|];
    NotInSlice(t, c, 0, |r|);
  }

  lemma StripIdempotent(s: string)
    ensures Strip(Strip(s)) == Strip(s)
  {
  }

  /** Python's `w in s` for strings: `w` occurs in `s` as a contiguous piece. */
  predicate Occurs(w: string, s: string) {
    exists i | 0 <= i <= |s| :: w <= s[i..]
  }

  /** An occurrence in a suffix is an occurrence in the whole. */
  lemma OccursInSuffix(w: string, s: string, a: nat)
    requires a <= |s| && Occurs(w, s[a..])
    ensures Occurs(w, s)
  {
    var i :| 0 <= i <= |s[a..]| && w <= s[a..][i..];
    assert s[a..][i..] == s[a + i..];
  }

  /** Removing leading whitespace cannot create or destroy an occurrence of a word without whitespace. */
  lemma OccursTrimStart(w: string, s: string)
    requires w != [] && !IsSpace(w[0])
    ensures Occurs(w, TrimStart(s)) <==> Occurs(w, s)
  {
    var t := TrimStart(s);
    var a := |s| - |t|;
    if Occurs(w, t) {
      OccursInSuffix(w, s, a);
    }
    if Occurs(w, s) {
      var i :| 0 <= i <= |s| && w <= s[i..];
      assert s[i..][0] == s[i];
      assert i >= a;
      assert s[i..] == t[i - a..];
    }
  }

  /** Removing trailing whitespace cannot create or destroy an occurrence of a word without whitespace. */
  lemma {:induction false} OccursTrimEnd(w: string, s: string)
    requires w != [] && !IsSpace(w[|w| - 1])
    ensures Occurs(w, TrimEnd(s)) <==> Occurs(w, s)
  {
    var t := TrimEnd(s);
    if Occurs(w, t) {
      var i :| 0 <= i <= |t| && w <= t[i..];
      assert w <= s[i..] by {
        forall k | 0 <= k < |w| ensures s[i..][k] == w[k] {
          assert t[i..][k] == w[k];
        }
      }
    }
    if Occurs(w, s) {
      var i :| 0 <= i <= |s| && w <= s[i..];
      var last := i + |w| - 1;
      assert s[i..][|w| - 1] == s[last];
      assert last < |t|;
      assert w <= t[i..] by {
        forall k | 0 <= k < |w| ensures t[i..][k] == w[k] {
          assert s[i..][k] == w[k];
        }
      }
    }
  }

  /** `w in s.strip()` is `w in s` when `w` is non-empty and has no whitespace at its ends. */
  lemma OccursStrip(w: string, s: string)
    requires w != [] && !IsSpace(w[0]) && !IsSpace(w[|w| - 1])
    ensures Occurs(w, Strip(s)) <==> Occurs(w, s)
  {
    OccursTrimStart(w, s);
    OccursTrimEnd(w, TrimStart(s));
  }

  /** One character of `str.lower()` on ASCII. */
  function LowerChar(c: char): char {
    if 'A' <= c <= 'Z' then (c as int + 32) as char else c
  }

  /** `s.lower()`: the same length, every character lower-cased on its own. */
  function Lower(s: string): (r: string)
    ensures |r| == |s|
    ensures forall k :: 0 <= k < |s| ==> r[k] == LowerChar(s[k])
  {
    if s == [] then [] else [LowerChar(s[0])] + Lower(s[1..])
  }

  /** `s.split(sep)`: the pieces between occurrences of `sep`, empty pieces included. */
  function Split(s: string, sep: char): (pieces: seq<string>)
    ensures |pieces| >= 1
    ensures forall k :: 0 <= k < |pieces| ==> sep !in pieces[k]
    ensures pieces[0] <= s && (|pieces[0]| < |s| ==> s[|pieces[0]|] == sep)
    decreases |s|
  {
    if s == [] then [""]
    else
      var rest := Split(s[1..], sep);
      if s[0] == sep then [""] + rest
      else [[s[0]] + rest[0]] + rest[1..]
  }

  /** `sep.join(pieces)`. */
  function Join(pieces: seq<string>, sep: char): string
  {
    if pieces == [] then ""
    else if |pieces| == 1 then pieces[0]
    else pieces[0] + [sep] + Join(pieces[1..], sep)
  }

  /** Splitting loses nothing: joining the pieces back with the separator gives the input. */
  lemma {:induction false} JoinSplit(s: string, sep: char)
    ensures Join(Split(s, sep), sep) == s
    decreases |s|
  {
    if s != [] {
      var rest := Split(s[1..], sep);
      JoinSplit(s[1..], sep);
      if s[0] == sep {
        assert Split(s, sep)[1..] == rest;
      } else if |rest| > 1 {
        var pieces := Split(s, sep);
        assert pieces[1..] == rest[1..];
        assert Join(rest, sep) == rest[0] + [sep] + Join(rest[1..], sep);
      }
    }
  }
}
