/**
 * String operations shared by the frontend and the lambdas: prefix, suffix
 * and substring tests, ASCII case mapping, splitting on a separator, the
 * last path segment, and Python's whitespace class.
 */
module Text {

  predicate IsPrefix(p: string, s: string)
  {
    |p| <= |s| && s[..|p|] == p
  }

  /** Python `s.endswith(suffix)`. */
  predicate EndsWith(s: string, suffix: string)
  {
    |suffix| <= |s| && s[|s| - |suffix|..] == suffix
  }

  /** `sub` occurs in `s` starting at index `i`. */
  predicate OccursAt(s: string, sub: string, i: int)
  {
    0 <= i <= |s| - |sub| && s[i..i + |sub|] == sub
  }

  /** JavaScript `s.includes(sub)`: `sub` occurs in `s` at some position. */
  function Contains(s: string, sub: string): (r: bool)
    ensures r <==> exists i :: OccursAt(s, sub, i)
    decreases |s|
  {
    if IsPrefix(sub, s) then
      assert OccursAt(s, sub, 0);
      true
    else if s == [] then
      false
    else
      var r := Contains(s[1..], sub);
      if r then
        var i :| OccursAt(s[1..], sub, i);
        assert s[1..][i..i + |sub|] == s[i + 1..i + 1 + |sub|];
        assert OccursAt(s, sub, i + 1);
        true
      else
        forall i ensures !OccursAt(s, sub, i) {
          if i == 0 && |sub| <= |s| {
            assert s[0..|sub|] == s[..|sub|];
          } else if 0 < i <= |s| - |sub| {
            assert !OccursAt(s[1..], sub, i - 1);
            assert s[1..][i - 1..i - 1 + |sub|] == s[i..i + |sub|];
          }
        }
        false
  }

  /** ASCII lower case; other characters are unchanged. */
  function LowerChar(c: char): char
  {
    if 'A' <= c <= 'Z' then (c as int + 32) as char else c
  }

  /** ASCII upper case; other characters are unchanged. */
  function UpperChar(c: char): char
  {
    if 'a' <= c <= 'z' then (c as int - 32) as char else c
  }

  /** `s.toLowerCase()` / `s.lower()` restricted to ASCII letters. */
  function Lower(s: string): (r: string)
    ensures |r| == |s|
    ensures forall i :: 0 <= i < |s| ==> r[i] == LowerChar(s[i])
  {
    seq(|s|, i requires 0 <= i < |s| => LowerChar(s[i]))
  }

  /** Index of the first occurrence of `c` in `s`. */
  function IndexOf(s: string, c: char): (i: nat)
    requires c in s
    ensures i < |s| && s[i] == c && c !in s[..i]
  {
    if s[0] == c then 0 else 1 + IndexOf(s[1..], c)
  }

  /** Index of the last occurrence of `c` in `s`. */
  function LastIndexOf(s: string, c: char): (i: nat)
    requires c in s
    ensures i < |s| && s[i] == c && c !in s[i + 1..]
    decreases |s|
  {
    if s[|s| - 1] == c then |s| - 1
    else
      var i := LastIndexOf(s[..|s| - 1], c);
      assert s[i + 1..] == s[..|s| - 1][i + 1..] + [s[|s| - 1]];
      i
  }

  /** Python `sep.join(parts)` for a one-character separator. */
  function Join(parts: seq<string>, sep: char): string
    requires |parts| >= 1
    decreases |parts|
  {
    if |parts| == 1 then parts[0] else parts[0] + [sep] + Join(parts[1..], sep)
  }

  /** Python `s.split(sep)` for a one-character separator. */
  function Split(s: string, sep: char): (parts: seq<string>)
    ensures |parts| >= 1
    ensures forall k :: 0 <= k < |parts| ==> sep !in parts[k]
    ensures Join(parts, sep) == s
    decreases |s|
  {
    if sep !in s then [s]
    else
      var i := IndexOf(s, sep);
      var rest := Split(s[i + 1..], sep);
      var parts := [s[..i]] + rest;
      assert parts[1..] == rest;
      assert s == s[..i] + [sep] + s[i + 1..];
      parts
  }

  /** Splitting `a + sep + b` where `a` has no separator yields `a` and then the parts of `b`. */
  lemma SplitAfterSegment(a: string, sep: char, b: string)
    requires sep !in a
    ensures Split(a + [sep] + b, sep) == [a] + Split(b, sep)
  {
    var s := a + [sep] + b;
    assert s[|a|] == sep;
    assert s[..|a|] == a;
    var i := IndexOf(s, sep);
    assert s[i + 1..] == b;
  }

  /**
   * Python `os.path.basename(p)` on POSIX: the text after the last '/'.
   */
  function Basename(p: string): (r: string)
    ensures '/' !in r
    ensures EndsWith(p, r)
    ensures '/' !in p ==> r == p
    ensures '/' in p ==> |r| < |p| && p[|p| - |r| - 1] == '/'
  {
    if '/' !in p then
      assert p[|p| - |p|..] == p;
      p
    else
      p[LastIndexOf(p, '/') + 1..]
  }

  /** The characters Python's `\s` and `str.strip()` treat as whitespace (Latin-1 range). */
  predicate IsSpace(c: char)
  {
    c == ' ' || c == '\t' || c == '\n' || c == '\r' || c == '\U{B}' || c == '\U{C}'
    || ('\U{1C}' <= c <= '\U{1F}') || c == '\U{85}' || c == '\U{A0}'
  }

  /** Python `s.strip()`. */
  function Strip(s: string): (r: string)
    ensures |r| <= |s|
    ensures r == [] || (!IsSpace(r[0]) && !IsSpace(r[|r| - 1]))
    decreases |s|
  {
    if s == [] then s
    else if IsSpace(s[0]) then Strip(s[1..])
    else if IsSpace(s[|s| - 1]) then Strip(s[..|s| - 1])
    else s
  }

  /**
   * `r` is `s[i..j]`, and everything `s` holds before `i` and from `j` on is
   * whitespace.
   */
  predicate TrimmedTo(s: string, r: string, i: int, j: int)
  {
    && 0 <= i <= j <= |s| && r == s[i..j]
    && (forall k :: 0 <= k < i ==> IsSpace(s[k]))
    && (forall k :: j <= k < |s| ==> IsSpace(s[k]))
  }

  /** `strip()` removes exactly a whitespace prefix and a whitespace suffix. */
  lemma {:induction false} StripTrims(s: string)
    ensures exists i, j :: TrimmedTo(s, Strip(s), i, j)
    decreases |s|
  {
    if s == [] {
      assert TrimmedTo(s, Strip(s), 0, 0);
    } else if IsSpace(s[0]) {
      var t := s[1..];
      StripTrims(t);
      var i, j :| TrimmedTo(t, Strip(t), i, j);
      TrimmedAfterSpace(s, Strip(t), i, j);
      assert Strip(s) == Strip(t);
      assert TrimmedTo(s, Strip(s), i + 1, j + 1);
    } else if IsSpace(s[|s| - 1]) {
      var t := s[..|s| - 1];
      StripTrims(t);
      var i, j :| TrimmedTo(t, Strip(t), i, j);
      TrimmedBeforeSpace(s, Strip(t), i, j);
      assert Strip(s) == Strip(t);
      assert TrimmedTo(s, Strip(s), i, j);
    } else {
      assert s[0..|s|] == s;
      assert TrimmedTo(s, Strip(s), 0, |s|);
    }
  }

  /** A slice trimmed from the tail of `s` is trimmed from `s` when `s` opens with whitespace. */
  lemma TrimmedAfterSpace(s: string, r: string, i: int, j: int)
    requires s != [] && IsSpace(s[0]) && TrimmedTo(s[1..], r, i, j)
    ensures TrimmedTo(s, r, i + 1, j + 1)
  {
    assert s[1..][i..j] == s[i + 1..j + 1];
    forall k | 1 <= k < |s| ensures s[k] == s[1..][k - 1] {}
  }

  /** A slice trimmed from `s` without its last character is trimmed from `s` when that is whitespace. */
  lemma TrimmedBeforeSpace(s: string, r: string, i: int, j: int)
    requires s != [] && IsSpace(s[|s| - 1]) && TrimmedTo(s[..|s| - 1], r, i, j)
    ensures TrimmedTo(s, r, i, j)
  {
    assert s[..|s| - 1][i..j] == s[i..j];
    forall k | 0 <= k < |s| - 1 ensures s[k] == s[..|s| - 1][k] {}
  }

  /** The first `n` characters (all of them when there are fewer): `s[:n]`, `s.substring(0, n)`. */
  function Take(s: string, n: nat): (r: string)
    ensures |r| == if |s| <= n then |s| else n
    ensures IsPrefix(r, s)
  {
    if |s| <= n then s else s[..n]
  }

  /** The last `n` characters: `s.slice(-n)` for `0 < n <= |s|`. */
  function TakeLast(s: string, n: nat): (r: string)
    requires n <= |s|
    ensures |r| == n && EndsWith(s, r)
  {
    s[|s| - n..]
  }
}
