/** String helpers shared by the model: the few pieces of Python's `str` and `int`
    behaviour the source relies on (decimal rendering, `int()` on digit strings,
    `str.join`, `str.strip`, `str.lstrip`, width padding of format specifications). */
module Text {

  import opened Wrappers

  predicate IsDigit(c: char) { '0' <= c <= '9' }

  predicate AllDigits(s: string) { forall i :: 0 <= i < |s| ==> IsDigit(s[i]) }

  function DigitChar(d: nat): (c: char)
    requires d < 10
    ensures IsDigit(c)
  {
    ('0' as int + d) as char
  }

  function DigitValue(c: char): (d: nat)
    requires IsDigit(c)
    ensures d < 10 && DigitChar(d) == c
  {
    c as int - '0' as int
  }

  /** Python's `str(n)` for a non-negative integer: decimal digits without leading zeros. */
  function NatStr(n: nat): (s: string)
    ensures |s| >= 1 && AllDigits(s)
    ensures s[0] == '0' <==> n == 0
    ensures n < 10 <==> |s| == 1
    decreases n
  {
    if n < 10 then [DigitChar(n)] else NatStr(n / 10) + [DigitChar(n % 10)]
  }

  /** Python's `str(i)` for any integer. */
  function IntStr(i: int): (s: string)
    ensures |s| >= 1
  {
    if i < 0 then "-" + NatStr(-i) else NatStr(i)
  }

  /** The value of a string of decimal digits, most significant first. */
  function DigitsValue(s: string): nat
    requires AllDigits(s)
    decreases |s|
  {
    if s == [] then 0 else DigitsValue(s[..|s| - 1]) * 10 + DigitValue(s[|s| - 1])
  }

  lemma {:induction false} DigitsValueOfNatStr(n: nat)
    ensures DigitsValue(NatStr(n)) == n
    decreases n
  {
    var s := NatStr(n);
    if n >= 10 {
      DigitsValueOfNatStr(n / 10);
      assert s[..|s| - 1] == NatStr(n / 10);
      assert DigitValue(s[|s| - 1]) == n % 10;
    } else {
      assert s[..|s| - 1] == [];
    }
  }

  /** Distinct numbers render as distinct strings. */
  lemma NatStrInjective(m: nat, n: nat)
    requires NatStr(m) == NatStr(n)
    ensures m == n
  {
    DigitsValueOfNatStr(m);
    DigitsValueOfNatStr(n);
  }

  /** Python's `int(s)`, restricted to the inputs the source hands it: a non-empty run
      of digits is a number, anything else (the empty string in particular) raises
      `ValueError`. */
  function ParseNat(s: string): (r: Option<nat>)
    ensures r.Some? <==> s != [] && AllDigits(s)
  {
    if s != [] && AllDigits(s) then Some(DigitsValue(s)) else None
  }

  lemma ParseNatStr(n: nat)
    ensures ParseNat(NatStr(n)) == Some(n)
  {
    DigitsValueOfNatStr(n);
  }

  function Repeat(c: char, k: nat): (s: string)
    ensures |s| == k && forall i :: 0 <= i < k ==> s[i] == c
  {
    if k == 0 then "" else [c] + Repeat(c, k - 1)
  }

  /** A format specification `{x:W}` or `{x:0W}`: right-aligned in a field of width W,
      padded on the left with `fill`; a longer string is left as it is. */
  function PadLeft(s: string, width: nat, fill: char): (r: string)
    ensures |r| == if |s| >= width then |s| else width
    ensures r[|r| - |s|..] == s
    ensures forall i :: 0 <= i < |r| - |s| ==> r[i] == fill
  {
    if |s| >= width then s else Repeat(fill, width - |s|) + s
  }

  /** `sep.join(parts)`. */
  function Join(sep: string, parts: seq<string>): (r: string)
    decreases |parts|
  {
    if |parts| == 0 then ""
    else if |parts| == 1 then parts[0]
    else parts[0] + sep + Join(sep, parts[1..])
  }

  lemma {:induction false} JoinLength(sep: string, parts: seq<string>, total: nat)
    requires total == SumLengths(parts)
    ensures |Join(sep, parts)| == total + (if |parts| == 0 then 0 else (|parts| - 1) * |sep|)
    decreases |parts|
  {
    if |parts| > 1 {
      JoinLength(sep, parts[1..], SumLengths(parts[1..]));
    }
  }

  function SumLengths(parts: seq<string>): nat
  {
    if parts == [] then 0 else |parts[0]| + SumLengths(parts[1..])
  }

  /** `str.join` over an empty list gives the empty string, over one part that part. */
  lemma JoinSmall(sep: string, parts: seq<string>)
    requires |parts| <= 1
    ensures Join(sep, parts) == if parts == [] then "" else parts[0]
  {
  }

  /** `sep.join(parts + [x])` extends `sep.join(parts)` by the separator and `x`. */
  lemma {:induction false} JoinAppend(sep: string, parts: seq<string>, x: string)
    ensures Join(sep, parts + [x]) == if parts == [] then x else Join(sep, parts) + sep + x
    decreases |parts|
  {
    if |parts| >= 2 {
      assert (parts + [x])[1..] == parts[1..] + [x];
      JoinAppend(sep, parts[1..], x);
    } else if |parts| == 1 {
      assert (parts + [x])[1..] == [x];
    }
  }

  /** Joining two non-empty runs of parts joins the two joins. */
  lemma {:induction false} JoinConcat(sep: string, a: seq<string>, b: seq<string>)
    requires a != [] && b != []
    ensures Join(sep, a + b) == Join(sep, a) + sep + Join(sep, b)
    decreases |a|
  {
    assert (a + b)[1..] == a[1..] + b;
    if |a| >= 2 {
      JoinConcat(sep, a[1..], b);
    }
  }

  /** `t in s` for strings: `t` occurs in `s` at some position. */
  ghost predicate Contains(s: string, t: string) {
    exists i :: 0 <= i <= |s| && OccursAt(s, t, i)
  }

  predicate OccursAt(s: string, t: string, i: int) {
    0 <= i <= |s| - |t| && s[i..i + |t|] == t
  }

  /** `sep.join(parts)` shows every part. */
  lemma {:induction false} JoinContains(sep: string, parts: seq<string>, k: nat)
    requires k < |parts|
    ensures Contains(Join(sep, parts), parts[k])
    decreases |parts|
  {
    var j := Join(sep, parts);
    if |parts| == 1 {
      assert OccursAt(j, parts[k], 0);
    } else if k == 0 {
      assert j == parts[0] + sep + Join(sep, parts[1..]);
      assert j[0..|parts[0]|] == parts[0];
      assert OccursAt(j, parts[k], 0);
    } else {
      JoinContains(sep, parts[1..], k - 1);
      var rest := Join(sep, parts[1..]);
      var i :| 0 <= i <= |rest| && OccursAt(rest, parts[k], i);
      assert 0 <= i <= |rest| - |parts[k]| && rest[i..i + |parts[k]|] == parts[k];
      var off := |parts[0]| + |sep|;
      assert j == parts[0] + sep + rest;
      assert j[off + i..off + i + |parts[k]|] == rest[i..i + |parts[k]|];
      assert OccursAt(j, parts[k], off + i);
    }
  }

  /** A string shows what any of its pieces shows. */
  lemma ContainsInConcat(a: string, b: string, t: string)
    requires Contains(b, t)
    ensures Contains(a + b, t) && Contains(b + a, t)
  {
    var i :| 0 <= i <= |b| && OccursAt(b, t, i);
    assert 0 <= i <= |b| - |t| && b[i..i + |t|] == t;
    assert (a + b)[|a| + i..|a| + i + |t|] == t;
    assert OccursAt(a + b, t, |a| + i);
    assert (b + a)[i..i + |t|] == t;
    assert OccursAt(b + a, t, i);
  }

  /** A string built from three pieces starts with the first and ends with the last. */
  lemma ConcatEnds(a: string, b: string, c: string)
    ensures |a + b + c| == |a| + |b| + |c|
    ensures (a + b + c)[..|a|] == a
    ensures (a + b + c)[|a + b + c| - |c|..] == c
  {
    assert (a + b + c)[..|a|] == a;
    assert (a + b + c)[|a + b + c| - |c|..] == c;
  }

  /** A string shows itself. */
  lemma ContainsSelf(s: string)
    ensures Contains(s, s)
  {
    assert OccursAt(s, s, 0);
  }

  /** The characters `str.strip()` removes: those `str.isspace` accepts. */
  predicate IsSpace(c: char) {
    || c == ' ' || c == '\t' || c == '\n' || c == '\r' || c == '\U{000B}' || c == '\U{000C}'
    || ('\U{001C}' <= c <= '\U{001F}')
    || c == '\U{0085}' || c == '\U{00A0}' || c == '\U{1680}'
    || ('\U{2000}' <= c <= '\U{200A}')
    || c == '\U{2028}' || c == '\U{2029}' || c == '\U{202F}' || c == '\U{205F}' || c == '\U{3000}'
  }

  function StripLeft(s: string): (r: string)
    ensures |r| <= |s| && r == s[|s| - |r|..]
    ensures r == [] || !IsSpace(r[0])
    ensures forall i :: 0 <= i < |s| - |r| ==> IsSpace(s[i])
  {
    if s != [] && IsSpace(s[0]) then StripLeft(s[1..]) else s
  }

  function StripRight(s: string): (r: string)
    ensures |r| <= |s| && r == s[..|r|]
    ensures r == [] || !IsSpace(r[|r| - 1])
    ensures forall i :: |r| <= i < |s| ==> IsSpace(s[i])
  {
    if s != [] && IsSpace(s[|s| - 1]) then StripRight(s[..|s| - 1]) else s
  }

  /** The number of whitespace characters `str.strip()` removes at the front of `s`. */
  function LeadingSpaces(s: string): (k: nat)
    ensures k <= |s| && StripLeft(s) == s[k..]
  {
    |s| - |StripLeft(s)|
  }

  /** `str.strip()`: the longest slice of `s` that neither starts nor ends with whitespace,
      everything cut off being whitespace. */
  function Strip(s: string): (r: string)
    ensures LeadingSpaces(s) + |r| <= |s|
    ensures r == s[LeadingSpaces(s)..LeadingSpaces(s) + |r|]
    ensures forall k :: 0 <= k < LeadingSpaces(s) ==> IsSpace(s[k])
    ensures forall k :: LeadingSpaces(s) + |r| <= k < |s| ==> IsSpace(s[k])
    ensures r == [] || (!IsSpace(r[0]) && !IsSpace(r[|r| - 1]))
  {
    StripRight(StripLeft(s))
  }

  /** Whitespace in front of a string that does not start with whitespace is all that
      `lstrip` removes. */
  lemma StripLeftPadded(pad: string, s: string)
    requires forall j :: 0 <= j < |pad| ==> IsSpace(pad[j])
    requires s == [] || !IsSpace(s[0])
    ensures StripLeft(pad + s) == s
  {
    var x := pad + s;
    var r := StripLeft(x);
    if s != [] {
      assert !IsSpace(x[|pad|]);
    }
    assert r != [] ==> x[|x| - |r|] == r[0];
    assert r == x[|pad|..];
  }

  /** Likewise at the end, for `rstrip`. */
  lemma StripRightPadded(s: string, pad: string)
    requires forall j :: 0 <= j < |pad| ==> IsSpace(pad[j])
    requires s == [] || !IsSpace(s[|s| - 1])
    ensures StripRight(s + pad) == s
  {
    var x := s + pad;
    var r := StripRight(x);
    if s != [] {
      assert !IsSpace(x[|s| - 1]);
    }
    assert r != [] ==> x[|r| - 1] == r[|r| - 1];
    assert r == x[..|s|];
  }

  /** `strip()` gives back a string without outer whitespace from any whitespace padding. */
  lemma StripPadded(pre: string, s: string, post: string)
    requires forall j :: 0 <= j < |pre| ==> IsSpace(pre[j])
    requires forall j :: 0 <= j < |post| ==> IsSpace(post[j])
    requires s != [] && !IsSpace(s[0]) && !IsSpace(s[|s| - 1])
    ensures Strip(pre + s + post) == s
  {
    assert pre + s + post == pre + (s + post);
    StripLeftPadded(pre, s + post);
    StripRightPadded(s, post);
  }

  /** `s.lstrip(c)` for a single character `c`. */
  function LStripChar(s: string, c: char): (r: string)
    ensures |r| <= |s| && s == Repeat(c, |s| - |r|) + r
    ensures r == [] || r[0] != c
  {
    if s != [] && s[0] == c then LStripChar(s[1..], c) else s
  }

  /** Python's `s.replace(pat, "")`: every non-overlapping occurrence of `pat`,
      scanning left to right, removed. */
  function RemoveAll(s: string, pat: string): (r: string)
    requires pat != []
    ensures |r| <= |s|
    decreases |s|
  {
    if |s| < |pat| then s
    else if s[..|pat|] == pat then RemoveAll(s[|pat|..], pat)
    else [s[0]] + RemoveAll(s[1..], pat)
  }

  /** Removing a pattern that does not occur leaves the string as it is. */
  lemma {:induction false} RemoveAllAbsent(s: string, pat: string)
    requires pat != [] && !Contains(s, pat)
    ensures RemoveAll(s, pat) == s
    decreases |s|
  {
    if |s| >= |pat| {
      assert !OccursAt(s, pat, 0);
      assert s[0..|pat|] == s[..|pat|];
      assert !Contains(s[1..], pat) by {
        forall i | 0 <= i <= |s[1..]| && OccursAt(s[1..], pat, i)
          ensures false
        {
          assert s[1..][i..i + |pat|] == s[i + 1..i + 1 + |pat|];
          assert OccursAt(s, pat, i + 1);
        }
      }
      RemoveAllAbsent(s[1..], pat);
      assert s == [s[0]] + s[1..];
    }
  }

  /** `[f(x) for x in xs]`. */
  function MapSeq<T, U>(f: T -> U, xs: seq<T>): (ys: seq<U>)
    ensures |ys| == |xs|
  {
    if xs == [] then [] else [f(xs[0])] + MapSeq(f, xs[1..])
  }

  lemma {:induction false} MapSeqAt<T, U>(f: T -> U, xs: seq<T>, k: nat)
    requires k < |xs|
    ensures MapSeq(f, xs)[k] == f(xs[k])
    decreases k
  {
    if k > 0 {
      MapSeqAt(f, xs[1..], k - 1);
    }
  }

  lemma {:induction false} MapSeqConcat<T, U>(f: T -> U, a: seq<T>, b: seq<T>)
    ensures MapSeq(f, a + b) == MapSeq(f, a) + MapSeq(f, b)
    decreases |a|
  {
    if a != [] {
      assert (a + b)[0] == a[0] && (a + b)[1..] == a[1..] + b;
      MapSeqConcat(f, a[1..], b);
    } else {
      assert a + b == b;
    }
  }

  /** `{key(x) for x in xs}`: exactly the keys of the elements. */
  function KeySet<T>(key: T -> int, xs: seq<T>): (keys: set<int>)
    ensures forall k :: 0 <= k < |xs| ==> key(xs[k]) in keys
    ensures forall id :: id in keys ==> exists k :: 0 <= k < |xs| && key(xs[k]) == id
    decreases |xs|
  {
    if xs == [] then {} else KeySet(key, xs[..|xs| - 1]) + {key(xs[|xs| - 1])}
  }

  /** Where the parts of a string built from six pieces start: the first, third and fifth
      piece at their offsets, and the sixth as the rest. */
  lemma SixParts(a: string, b: string, c: string, d: string, e: string, f: string)
    ensures var p := a + b + c + d + e + f;
      && OccursAt(p, a, 0)
      && OccursAt(p, c, |a| + |b|)
      && OccursAt(p, e, |a| + |b| + |c| + |d|)
      && p[|a| + |b| + |c| + |d| + |e|..] == f
  {
    var p := a + b + c + d + e + f;
    assert p == a + (b + (c + (d + (e + f))));
    assert p[0..|a|] == a;
    assert p[|a| + |b|..|a| + |b| + |c|] == c;
    assert p[|a| + |b| + |c| + |d|..|a| + |b| + |c| + |d| + |e|] == e;
  }

  /** A string of four pieces shows its second and its last piece. */
  lemma FourPartsShow(a: string, b: string, c: string, d: string)
    ensures Contains(a + b + c + d, b) && Contains(a + b + c + d, d)
  {
    var p := a + b + c + d;
    assert p == a + (b + (c + d));
    assert p[|a|..|a| + |b|] == b;
    assert OccursAt(p, b, |a|);
    assert p[|a| + |b| + |c|..] == d;
    assert OccursAt(p, d, |a| + |b| + |c|);
  }

  /** What a part of a string shows, the string shows. */
  lemma ContainsTransitive(s: string, m: string, x: string)
    requires Contains(s, m) && Contains(m, x)
    ensures Contains(s, x)
  {
    var i :| 0 <= i <= |s| && OccursAt(s, m, i);
    var j :| 0 <= j <= |m| && OccursAt(m, x, j);
    assert s[i..i + |m|] == m && m[j..j + |x|] == x;
    forall t | 0 <= t < |x|
      ensures s[i + j + t] == x[t]
    {
      assert s[i + j + t] == s[i..i + |m|][j + t];
      assert x[t] == m[j..j + |x|][t];
    }
    assert s[i + j..i + j + |x|] == x;
    assert OccursAt(s, x, i + j);
  }
}
