/** The Python `str` operations the application relies on, over `seq<char>`:
    `strip()`, `startswith`, `endswith`, `replace(tag, "")` and `sep.join(parts)`. */
module Text {

  /** Python's `str.isspace` for one character: the characters `str.strip()`
      removes when it is called without arguments. */
  predicate IsSpace(c: char) {
    c == ' ' || ('\t' <= c <= '\r') || ('\U{1C}' <= c <= '\U{1F}')
    || c == '\U{85}' || c == '\U{A0}' || c == '\U{1680}'
    || ('\U{2000}' <= c <= '\U{200A}') || c == '\U{2028}' || c == '\U{2029}'
    || c == '\U{202F}' || c == '\U{205F}' || c == '\U{3000}'
  }

  /** `s.startswith(p)`. */
  predicate StartsWith(s: string, p: string) {
    p <= s
  }

  /** `s.endswith(x)`; case-sensitive, like Python's. */
  predicate EndsWith(s: string, x: string) {
    |x| <= |s| && s[|s| - |x|..] == x
  }

  /** The characters of a suffix sit at the end of the string. */
  lemma EndsWithAt(s: string, x: string, i: nat)
    requires EndsWith(s, x) && i < |x|
    ensures s[|s| - |x| + i] == x[i]
  {
    assert s[|s| - |x|..][i] == x[i];
  }

  /** `t in s` for strings: `t` occurs somewhere in `s`. */
  predicate Contains(s: string, t: string) {
    exists i :: 0 <= i <= |s| && t <= s[i..]
  }

  /** `s.lstrip()`: the longest suffix of `s` that does not start with whitespace. */
  function LStrip(s: string): (r: string)
    ensures |r| <= |s| && r == s[|s| - |r|..]
    ensures forall i :: 0 <= i < |s| - |r| ==> IsSpace(s[i])
    ensures r != [] ==> !IsSpace(r[0])
  {
    if s != [] && IsSpace(s[0]) then LStrip(s[1..]) else s
  }

  /** `s.rstrip()`: the longest prefix of `s` that does not end with whitespace. */
  function RStrip(s: string): (r: string)
    ensures |r| <= |s| && r == s[..|r|]
    ensures forall i :: |r| <= i < |s| ==> IsSpace(s[i])
    ensures r != [] ==> !IsSpace(r[|r| - 1])
  {
    if s != [] && IsSpace(s[|s| - 1]) then RStrip(s[..|s| - 1]) else s
  }

  /** Neither the first nor the last character is whitespace. */
  predicate Trimmed(s: string) {
    s != [] ==> !IsSpace(s[0]) && !IsSpace(s[|s| - 1])
  }

  /** Every character is whitespace. */
  predicate AllSpace(s: string) {
    forall i :: 0 <= i < |s| ==> IsSpace(s[i])
  }

  /** `s.strip()`. */
  function Strip(s: string): (r: string)
    ensures Trimmed(r)
    ensures Contains(s, r)
  {
    var l := LStrip(s);
    var r := RStrip(l);
    assert r <= s[|s| - |l|..];
    r
  }

  /** The stripped text is empty exactly when the string is all whitespace. */
  lemma StripEmptyIff(s: string)
    ensures Strip(s) == [] <==> AllSpace(s)
  {
  }

  /** Stripping a string that neither starts nor ends with whitespace changes nothing. */
  lemma StripKeepsTrimmed(s: string)
    requires Trimmed(s)
    ensures Strip(s) == s
  {
  }

  /** `strip()` is idempotent. */
  lemma StripIdempotent(s: string)
    ensures Strip(Strip(s)) == Strip(s)
  {
    StripKeepsTrimmed(Strip(s));
  }

  /** Concatenation regroups freely; stated once so that callers can regroup
      long concatenations one step at a time. */
  lemma AppendAssoc(a: string, b: string, c: string)
    ensures (a + b) + c == a + (b + c)
  {
  }

  /** Dropping the first part of a concatenation leaves the second. */
  lemma DropPrefix(a: string, b: string)
    ensures (a + b)[|a|..] == b
  {
  }

  /** `s.replace(pat, "")`: scanning left to right, every non-overlapping
      occurrence of `pat` is cut out. */
  function RemoveAll(s: string, pat: string): (r: string)
    requires pat != []
    ensures |r| <= |s|
    decreases |s|
  {
    if s == [] then []
    else if pat <= s then RemoveAll(s[|pat|..], pat)
    else [s[0]] + RemoveAll(s[1..], pat)
  }

  /** Removing a pattern that occurs nowhere leaves the string as it was. */
  lemma {:induction false} RemoveAllAbsent(s: string, pat: string)
    requires pat != [] && !Contains(s, pat)
    ensures RemoveAll(s, pat) == s
    decreases |s|
  {
    if s != [] {
      assert s[0..] == s;
      forall i | 0 <= i <= |s[1..]| ensures !(pat <= s[1..][i..]) {
        assert s[1..][i..] == s[i + 1..];
      }
      RemoveAllAbsent(s[1..], pat);
    }
  }

  /** No character of `s` is `c`. */
  predicate Avoids(s: string, c: char) {
    forall i :: 0 <= i < |s| ==> s[i] != c
  }

  /** A stretch without the pattern's first character passes through unchanged. */
  lemma {:induction false} RemoveAllSkips(x: string, z: string, pat: string)
    requires pat != [] && Avoids(x, pat[0])
    ensures RemoveAll(x + z, pat) == x + RemoveAll(z, pat)
    decreases |x|
  {
    if x == [] {
      assert x + z == z;
    } else {
      assert !(pat <= x + z) by { assert (x + z)[0] == x[0] != pat[0]; }
      assert (x + z)[1..] == x[1..] + z;
      assert Avoids(x[1..], pat[0]) by {
        forall i | 0 <= i < |x[1..]| ensures x[1..][i] != pat[0] { assert x[1..][i] == x[i + 1]; }
      }
      RemoveAllSkips(x[1..], z, pat);
      AppendAssoc([x[0]], x[1..], RemoveAll(z, pat));
      assert [x[0]] + x[1..] == x;
    }
  }

  /** A prefix of a concatenation is a prefix of its first part, or runs
      over into the second. */
  lemma PrefixOfConcat(pat: string, x: string, z: string)
    ensures pat <= x + z && |pat| <= |x| ==> pat <= x
    ensures pat <= x + z && |x| < |pat| ==> pat[|x|..] <= z
  {
    if pat <= x + z {
      if |x| < |pat| {
        assert pat[|x|..] == (x + z)[|x|..|pat|] == z[..|pat| - |x|];
      } else {
        assert pat == (x + z)[..|pat|] == x[..|pat|];
      }
    }
  }

  /** A stretch in which the pattern does not occur passes through unchanged,
      provided no occurrence can start in it and run over into what follows:
      no proper suffix of the pattern begins the rest. */
  lemma {:induction false} RemoveAllKeepsFront(x: string, z: string, pat: string)
    requires pat != [] && !Contains(x, pat)
    requires forall k :: 1 <= k < |pat| ==> !(pat[k..] <= z)
    ensures RemoveAll(x + z, pat) == x + RemoveAll(z, pat)
    decreases |x|
  {
    if x == [] {
      assert x + z == z;
    } else {
      PrefixOfConcat(pat, x, z);
      assert x[0..] == x;
      assert !(pat <= x + z);
      assert (x + z)[1..] == x[1..] + z;
      forall i | 0 <= i <= |x[1..]| ensures !(pat <= x[1..][i..]) {
        assert x[1..][i..] == x[i + 1..];
      }
      RemoveAllKeepsFront(x[1..], z, pat);
      AppendAssoc([x[0]], x[1..], RemoveAll(z, pat));
      assert [x[0]] + x[1..] == x;
    }
  }

  /** Removing a pattern that does occur makes the string strictly shorter. */
  lemma {:induction false} RemoveAllShrinks(s: string, pat: string)
    requires pat != [] && Contains(s, pat)
    ensures |RemoveAll(s, pat)| < |s|
    decreases |s|
  {
    var i :| 0 <= i <= |s| && pat <= s[i..];
    if !(pat <= s) {
      assert i != 0 && s != [];
      assert s[1..][i - 1..] == s[i..];
      RemoveAllShrinks(s[1..], pat);
    }
  }

  /** `replace(pat, "")` changes a string exactly when the pattern occurs in it. */
  lemma RemoveAllUnchangedIff(s: string, pat: string)
    requires pat != []
    ensures RemoveAll(s, pat) == s <==> !Contains(s, pat)
  {
    if Contains(s, pat) { RemoveAllShrinks(s, pat); } else { RemoveAllAbsent(s, pat); }
  }

  /** A leading occurrence is removed together with all later ones. */
  lemma RemoveAllLeading(pat: string, t: string)
    requires pat != []
    ensures RemoveAll(pat + t, pat) == RemoveAll(t, pat)
  {
    assert (pat + t)[|pat|..] == t;
  }

  /** `sep.join(parts)`. */
  function Join(parts: seq<string>, sep: string): string {
    if |parts| == 0 then []
    else if |parts| == 1 then parts[0]
    else parts[0] + sep + Join(parts[1..], sep)
  }

  /** Joining a first part in front of at least one part puts a separator after it. */
  lemma JoinCons(p: string, rest: seq<string>, sep: string)
    requires rest != []
    ensures Join([p] + rest, sep) == p + sep + Join(rest, sep)
  {
    assert ([p] + rest)[1..] == rest;
  }

  /** Joining one more part appends the separator and that part. */
  lemma {:induction false} JoinSnoc(parts: seq<string>, p: string, sep: string)
    requires parts != []
    ensures Join(parts + [p], sep) == Join(parts, sep) + sep + p
    decreases |parts|
  {
    if |parts| == 1 {
      assert (parts + [p])[1..] == [p];
    } else {
      assert (parts + [p])[1..] == parts[1..] + [p];
      JoinSnoc(parts[1..], p, sep);
    }
  }
}
