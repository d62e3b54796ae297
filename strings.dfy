/** The handful of Python string operations the modelled code relies on:
    `str.split` with an explicit separator, `str.join`, ASCII case mapping,
    `str.endswith`, decimal formatting of integers and POSIX path helpers. */
module Strings {

  predicate IsUpper(c: char) { 'A' <= c <= 'Z' }
  predicate IsLower(c: char) { 'a' <= c <= 'z' }

  /** `c.upper()` / `c.lower()` restricted to ASCII letters. */
  function Upper(c: char): (u: char)
    ensures IsLower(c) ==> IsUpper(u)
    ensures !IsLower(c) ==> u == c
  {
    if IsLower(c) then (c as int - 32) as char else c
  }

  function Lower(c: char): (l: char)
    ensures IsUpper(c) ==> IsLower(l)
    ensures !IsUpper(c) ==> l == c
  {
    if IsUpper(c) then (c as int + 32) as char else c
  }

  lemma LowerUpper(c: char)
    requires IsLower(c)
    ensures Lower(Upper(c)) == c
  {
  }

  lemma UpperLower(c: char)
    requires IsUpper(c)
    ensures Upper(Lower(c)) == c
  {
  }

  /** `s.lower()` on ASCII. */
  function LowerStr(s: string): (r: string)
    ensures |r| == |s|
    ensures forall i :: 0 <= i < |s| ==> r[i] == Lower(s[i])
  {
    if s == [] then [] else [Lower(s[0])] + LowerStr(s[1..])
  }

  lemma LowerStrNoUpper(s: string)
    requires forall i :: 0 <= i < |s| ==> !IsUpper(s[i])
    ensures LowerStr(s) == s
  {
  }

  /** `s.split(sep)` for a one-character separator: the maximal runs between
      separators, empty runs included; never an empty list. */
  function Split(s: string, sep: char): (parts: seq<string>)
    ensures |parts| >= 1
    ensures forall k, i :: 0 <= k < |parts| && 0 <= i < |parts[k]| ==> parts[k][i] != sep
    decreases |s|
  {
    if s == [] then [""]
    else
      var rest := Split(s[1..], sep);
      if s[0] == sep then [""] + rest else [[s[0]] + rest[0]] + rest[1..]
  }

  /** `sep.join(parts)`. */
  function Join(sep: char, parts: seq<string>): string
  {
    if parts == [] then ""
    else if |parts| == 1 then parts[0]
    else parts[0] + [sep] + Join(sep, parts[1..])
  }

  /** `''.join(parts)`. */
  function Concat(parts: seq<string>): string
  {
    if parts == [] then "" else parts[0] + Concat(parts[1..])
  }

  lemma {:induction false} JoinSplit(s: string, sep: char)
    ensures Join(sep, Split(s, sep)) == s
    decreases |s|
  {
    if s != [] {
      JoinSplit(s[1..], sep);
      var rest := Split(s[1..], sep);
      if s[0] == sep {
        assert Split(s, sep) == [""] + rest;
        assert s == [s[0]] + s[1..];
      } else {
        var parts := Split(s, sep);
        assert parts == [[s[0]] + rest[0]] + rest[1..];
        if |rest| == 1 {
          assert Join(sep, rest) == rest[0];
        } else {
          assert Join(sep, rest) == rest[0] + [sep] + Join(sep, rest[1..]);
          assert parts[1..] == rest[1..];
        }
        assert s == [s[0]] + s[1..];
      }
    }
  }

  predicate Free(w: string, sep: char) { forall i :: 0 <= i < |w| ==> w[i] != sep }

  lemma {:induction false} SplitFree(w: string, sep: char)
    requires Free(w, sep)
    ensures Split(w, sep) == [w]
    decreases |w|
  {
    if w != [] {
      SplitFree(w[1..], sep);
      assert [w[0]] + w[1..] == w;
    }
  }

  lemma {:induction false} SplitAppend(w: string, sep: char, t: string)
    requires Free(w, sep)
    ensures Split(w + [sep] + t, sep) == [w] + Split(t, sep)
    decreases |w|
  {
    if w == [] {
      assert w + [sep] + t == [sep] + t;
      assert ([sep] + t)[1..] == t;
    } else {
      var s := w + [sep] + t;
      assert s[0] == w[0];
      assert s[1..] == w[1..] + [sep] + t;
      SplitAppend(w[1..], sep, t);
      assert [w[0]] + w[1..] == w;
    }
  }

  /** Splitting a join recovers the parts, provided no part holds the separator. */
  lemma {:induction false} SplitJoin(parts: seq<string>, sep: char)
    requires |parts| >= 1
    requires forall k :: 0 <= k < |parts| ==> Free(parts[k], sep)
    ensures Split(Join(sep, parts), sep) == parts
  {
    if |parts| == 1 {
      SplitFree(parts[0], sep);
    } else {
      SplitJoin(parts[1..], sep);
      SplitAppend(parts[0], sep, Join(sep, parts[1..]));
      assert [parts[0]] + parts[1..] == parts;
    }
  }

  /** `s.endswith(suffix)`. */
  predicate EndsWith(s: string, suffix: string)
  {
    |suffix| <= |s| && s[|s| - |suffix|..] == suffix
  }

  /** `sep` occurs in `s` at index `i`. */
  predicate OccursAt(s: string, i: int, sep: string)
  {
    0 <= i && i + |sep| <= |s| && s[i..i + |sep|] == sep
  }

  /** An occurrence after the first character is one in the rest of `s`. */
  lemma OccursShift(s: string, sep: string)
    requires |s| >= 1
    ensures forall i :: 1 <= i <= |s| ==> (OccursAt(s, i, sep) <==> OccursAt(s[1..], i - 1, sep))
  {
    forall i | 1 <= i <= |s|
      ensures OccursAt(s, i, sep) <==> OccursAt(s[1..], i - 1, sep)
    {
      if i + |sep| <= |s| {
        var t := s[1..];
        var a, b := s[i..i + |sep|], t[i - 1..i - 1 + |sep|];
        forall k | 0 <= k < |a| ensures a[k] == b[k] {
          assert a[k] == s[i + k] && b[k] == t[i - 1 + k];
        }
        assert a == b;
      }
    }
  }

  /** `s.split(sep)[0]` for a non-empty separator string: the text before the
      first occurrence of `sep`, or all of `s` when it does not occur. */
  function UntilFirst(s: string, sep: string): (r: string)
    requires |sep| > 0
    ensures |r| <= |s| && r == s[..|r|]
    ensures forall i :: 0 <= i < |r| ==> !OccursAt(s, i, sep)
    ensures |r| < |s| ==> OccursAt(s, |r|, sep)
    decreases |s|
  {
    if |s| < |sep| then s
    else if s[..|sep|] == sep then ""
    else
      var rest := UntilFirst(s[1..], sep);
      OccursShift(s, sep);
      assert !OccursAt(s, 0, sep);
      assert [s[0]] + rest == s[..|rest| + 1];
      [s[0]] + rest
  }

  /** The decimal digits of a natural number, as `str(n)` / an f-string. */
  function Digit(d: nat): char
    requires d < 10
  {
    "0123456789"[d]
  }

  function NatToString(n: nat): (r: string)
    ensures |r| >= 1
    decreases n
  {
    if n < 10 then [Digit(n)] else NatToString(n / 10) + [Digit(n % 10)]
  }

  lemma {:induction false} NatToStringInjective(a: nat, b: nat)
    requires NatToString(a) == NatToString(b)
    ensures a == b
    decreases a
  {
    var sa, sb := NatToString(a), NatToString(b);
    if a < 10 && b < 10 {
      assert Digit(a) == sa[0] == sb[0] == Digit(b);
    } else if a >= 10 && b >= 10 {
      assert sa[|sa| - 1] == Digit(a % 10) && sb[|sb| - 1] == Digit(b % 10);
      assert a % 10 == b % 10;
      assert NatToString(a / 10) == sa[..|sa| - 1] == sb[..|sb| - 1] == NatToString(b / 10);
      NatToStringInjective(a / 10, b / 10);
    }
  }

  /** Prefixing a constant keeps decimal names distinct. */
  lemma PrefixedNamesDistinct(prefix: string, a: nat, b: nat)
    requires a != b
    ensures prefix + NatToString(a) != prefix + NatToString(b)
  {
    if prefix + NatToString(a) == prefix + NatToString(b) {
      assert NatToString(a) == (prefix + NatToString(a))[|prefix|..];
      assert NatToString(b) == (prefix + NatToString(b))[|prefix|..];
      NatToStringInjective(a, b);
    }
  }

  /** Index of the last `c` in `s`, or -1 (`s.rfind(c)`). */
  function RFind(s: string, c: char): (i: int)
    ensures -1 <= i < |s|
    ensures i >= 0 ==> s[i] == c
    ensures forall k :: i < k < |s| ==> s[k] != c
  {
    if s == [] then -1
    else if s[|s| - 1] == c then |s| - 1
    else RFind(s[..|s| - 1], c)
  }

  /** `os.path.basename(p)` for POSIX paths: the text after the last '/'. */
  function Basename(p: string): (r: string)
    ensures |r| <= |p| && r == p[|p| - |r|..]
    ensures Free(r, '/')
  {
    p[RFind(p, '/') + 1..]
  }

  /** `os.path.join(a, b)` for POSIX paths. */
  function PathJoin(a: string, b: string): string
  {
    if |b| > 0 && b[0] == '/' then b
    else if a == [] || a[|a| - 1] == '/' then a + b
    else a + "/" + b
  }

  lemma BasenameOfJoin(a: string, b: string)
    requires |b| > 0 && Free(b, '/')
    ensures Basename(PathJoin(a, b)) == b
  {
    var p := PathJoin(a, b);
    var n := |p| - |b|;
    assert p[n..] == b;
    assert n == 0 || p[n - 1] == '/';
    var i := RFind(p, '/');
    assert i < n;
    assert i == n - 1;
  }
}
