/**
  The Python string operations the interface code relies on: `sep in s`,
  `s.split(sep)`, `sep.join(parts)`, `s.strip(chars)`, `s.lower()`, `str(n)`
  and `int(s)`, each as a function with the facts the parsers need.
*/
module Text {
  import opened Outcomes

  /** `w` occurs in `s` starting at index `i`. */
  predicate OccursAt(s: string, w: string, i: nat) {
    i + |w| <= |s| && s[i..i + |w|] == w
  }

  /** The leftmost occurrence of `w` in `s` at or after `from`. */
  function Find(s: string, w: string, from: nat): (r: Option<nat>)
    decreases |s| - from
    ensures r.Some? ==> from <= r.value && OccursAt(s, w, r.value)
    ensures r.Some? ==> forall j: nat :: from <= j < r.value ==> !OccursAt(s, w, j)
    ensures r.None? ==> forall j: nat :: from <= j ==> !OccursAt(s, w, j)
  {
    if from + |w| > |s| then None
    else if s[from..from + |w|] == w then Some(from)
    else Find(s, w, from + 1)
  }

  /** Python's `w in s` for strings. */
  predicate Contains(s: string, w: string) {
    Find(s, w, 0).Some?
  }

  lemma ContainsAt(s: string, w: string, i: nat)
    requires OccursAt(s, w, i)
    ensures Contains(s, w)
  {
  }

  /** A one-character needle is contained exactly when that character occurs. */
  lemma ContainsChar(s: string, c: char)
    ensures Contains(s, [c]) <==> c in s
  {
    if c in s {
      var i :| 0 <= i < |s| && s[i] == c;
      assert s[i..i + 1] == [c];
      ContainsAt(s, [c], i);
    }
    if Contains(s, [c]) {
      var i := Find(s, [c], 0).value;
      assert s[i..i + 1][0] == s[i];
    }
  }

  /** A needle with a character the haystack lacks does not occur in it. */
  lemma MissingChar(s: string, w: string, k: nat)
    requires k < |w| && w[k] !in s
    ensures !Contains(s, w)
  {
    forall i: nat
      ensures !OccursAt(s, w, i)
    {
      if i + |w| <= |s| {
        assert s[i..i + |w|][k] == s[i + k];
      }
    }
  }

  lemma ContainsSuffix(x: string, w: string)
    ensures Contains(x + w, w)
  {
    assert (x + w)[|x|..|x| + |w|] == w;
    ContainsAt(x + w, w, |x|);
  }

  /**
    Gluing two strings creates no new occurrence of `w` when the second string
    starts with a character that `w` does not contain.
  */
  lemma ConcatFree(a: string, b: string, w: string)
    requires |b| > 0 && b[0] !in w
    requires !Contains(a, w) && !Contains(b, w)
    ensures !Contains(a + b, w)
  {
    var s := a + b;
    forall i: nat
      ensures !OccursAt(s, w, i)
    {
      if i + |w| <= |s| {
        if i + |w| <= |a| {
          assert s[i..i + |w|] == a[i..i + |w|];
          assert !OccursAt(a, w, i);
        } else if i >= |a| {
          assert s[i..i + |w|] == b[i - |a|..i - |a| + |w|];
          assert !OccursAt(b, w, i - |a|);
        } else {
          assert s[i..i + |w|][|a| - i] == b[0];
        }
      }
    }
  }

  /** Python's `s.split(sep)` with an explicit, non-empty separator. */
  function Split(s: string, sep: string): (r: seq<string>)
    requires |sep| > 0
    decreases |s|
    ensures |r| >= 1
  {
    match Find(s, sep, 0)
    case None => [s]
    case Some(i) => [s[..i]] + Split(s[i + |sep|..], sep)
  }

  /** Python's `sep.join(parts)`. */
  function Join(parts: seq<string>, sep: string): string {
    if |parts| == 0 then ""
    else if |parts| == 1 then parts[0]
    else parts[0] + sep + Join(parts[1..], sep)
  }

  /** A part that holds the separator joins as the two parts on either side of it would. */
  lemma {:induction false} JoinSpliced(a: seq<string>, x: string, y: string, b: seq<string>, sep: string)
    ensures Join(a + [x + sep + y] + b, sep) == Join(a + [x, y] + b, sep)
  {
    if a == [] {
      assert a + [x + sep + y] + b == [x + sep + y] + b;
      assert a + [x, y] + b == [x, y] + b;
      assert ([x, y] + b)[1..] == [y] + b;
      if b != [] {
        assert ([x + sep + y] + b)[1..] == b;
        assert ([y] + b)[1..] == b;
      }
    } else {
      JoinSpliced(a[1..], x, y, b, sep);
      assert (a + [x + sep + y] + b)[1..] == a[1..] + [x + sep + y] + b;
      assert (a + [x, y] + b)[1..] == a[1..] + [x, y] + b;
    }
  }

  /** Joining the pieces of a split with the same separator gives back the string. */
  lemma {:induction false} JoinSplit(s: string, sep: string)
    requires |sep| > 0
    ensures Join(Split(s, sep), sep) == s
    decreases |s|
  {
    match Find(s, sep, 0)
    case None =>
    case Some(i) =>
      var rest := s[i + |sep|..];
      var tail := Split(rest, sep);
      JoinSplit(rest, sep);
      var pieces := [s[..i]] + tail;
      assert Split(s, sep) == pieces;
      assert pieces[0] == s[..i] && pieces[1..] == tail;
      assert Join(pieces, sep) == s[..i] + sep + Join(tail, sep);
      assert s[i..i + |sep|] == sep;
      assert s == s[..i] + s[i..i + |sep|] + rest;
  }

  /** No piece of a split contains the separator. */
  lemma {:induction false} SplitPiecesFree(s: string, sep: string)
    requires |sep| > 0
    ensures forall k :: 0 <= k < |Split(s, sep)| ==> !Contains(Split(s, sep)[k], sep)
    decreases |s|
  {
    match Find(s, sep, 0)
    case None =>
    case Some(i) =>
      var rest := s[i + |sep|..];
      SplitPiecesFree(rest, sep);
      var head := s[..i];
      forall j: nat
        ensures !OccursAt(head, sep, j)
      {
        if j + |sep| <= |head| {
          assert head[j..j + |sep|] == s[j..j + |sep|];
          assert !OccursAt(s, sep, j);
        }
      }
      assert !Contains(head, sep);
      assert Split(s, sep) == [head] + Split(rest, sep);
  }

  lemma NoCharNoSplit(s: string, c: char)
    requires c !in s
    ensures Split(s, [c]) == [s]
  {
    ContainsChar(s, c);
  }

  lemma FindFirstChar(a: string, c: char, b: string)
    requires c !in a
    ensures Find(a + [c] + b, [c], 0) == Some(|a|)
  {
    var s := a + [c] + b;
    assert s[|a|..|a| + 1] == [c];
    assert OccursAt(s, [c], |a|);
    forall j: nat | j < |a|
      ensures !OccursAt(s, [c], j)
    {
      assert s[j..j + 1] == [a[j]];
    }
  }

  /** A character in neither the parts nor the separator is not in their join. */
  lemma {:induction false} JoinFree(parts: seq<string>, sep: string, c: char)
    requires c !in sep
    requires forall k :: 0 <= k < |parts| ==> c !in parts[k]
    ensures c !in Join(parts, sep)
  {
    if |parts| > 1 {
      JoinFree(parts[1..], sep, c);
    }
  }

  /**
    Splitting on a single character undoes joining with it, provided no part
    contains that character.
  */
  lemma {:induction false} SplitJoin(parts: seq<string>, c: char)
    requires |parts| > 0
    requires forall k :: 0 <= k < |parts| ==> c !in parts[k]
    ensures Split(Join(parts, [c]), [c]) == parts
  {
    if |parts| == 1 {
      NoCharNoSplit(parts[0], c);
    } else {
      var tail := Join(parts[1..], [c]);
      var s := parts[0] + [c] + tail;
      assert Join(parts, [c]) == s;
      FindFirstChar(parts[0], c, tail);
      assert s[..|parts[0]|] == parts[0];
      assert s[|parts[0]| + 1..] == tail;
      SplitJoin(parts[1..], c);
      assert parts == [parts[0]] + parts[1..];
    }
  }

  /** Python's `s.lstrip(cs)`. */
  function StripLeft(s: string, cs: set<char>): (r: string)
    decreases |s|
    ensures |r| <= |s| && r == s[|s| - |r|..]
    ensures forall k :: 0 <= k < |s| - |r| ==> s[k] in cs
    ensures |r| > 0 ==> r[0] !in cs
  {
    if |s| > 0 && s[0] in cs then StripLeft(s[1..], cs) else s
  }

  /** Python's `s.rstrip(cs)`. */
  function StripRight(s: string, cs: set<char>): (r: string)
    decreases |s|
    ensures |r| <= |s| && r == s[..|r|]
    ensures forall k :: |r| <= k < |s| ==> s[k] in cs
    ensures |r| > 0 ==> r[|r| - 1] !in cs
  {
    if |s| > 0 && s[|s| - 1] in cs then StripRight(s[..|s| - 1], cs) else s
  }

  /** Python's `s.strip(cs)`: drop leading and trailing characters drawn from `cs`. */
  function Strip(s: string, cs: set<char>): string {
    StripRight(StripLeft(s, cs), cs)
  }

  /**
    Stripping a string framed by characters of `cs` leaves exactly the middle,
    when the middle neither starts nor ends with a character of `cs`.
  */
  lemma StripFrame(p: string, t: string, q: string, cs: set<char>)
    requires forall k :: 0 <= k < |p| ==> p[k] in cs
    requires forall k :: 0 <= k < |q| ==> q[k] in cs
    requires |t| > 0 ==> t[0] !in cs && t[|t| - 1] !in cs
    ensures Strip(p + t + q, cs) == t
  {
    if |t| == 0 {
      assert p + t + q == p + q;
      StripAll(p + q, cs);
    } else {
      assert p + t + q == p + (t + q);
      StripLeftFrame(p, t + q, cs);
      StripRightFrame(t, q, cs);
    }
  }

  /** Characters of `cs` strip off entirely. */
  lemma StripAll(s: string, cs: set<char>)
    requires forall k :: 0 <= k < |s| ==> s[k] in cs
    ensures StripLeft(s, cs) == []
  {
  }

  /** Left-stripping stops at the first character outside `cs`. */
  lemma StripLeftFrame(p: string, u: string, cs: set<char>)
    requires forall k :: 0 <= k < |p| ==> p[k] in cs
    requires |u| > 0 && u[0] !in cs
    ensures StripLeft(p + u, cs) == u
  {
    var s := p + u;
    var r := StripLeft(s, cs);
    assert s[|p|] == u[0];
    assert |s| - |r| <= |p|;
    assert r[0] == s[|s| - |r|];
    assert |s| - |r| == |p|;
  }

  /** Right-stripping stops at the last character outside `cs`. */
  lemma StripRightFrame(u: string, q: string, cs: set<char>)
    requires forall k :: 0 <= k < |q| ==> q[k] in cs
    requires |u| > 0 && u[|u| - 1] !in cs
    ensures StripRight(u + q, cs) == u
  {
    var s := u + q;
    var r := StripRight(s, cs);
    assert s[|u| - 1] == u[|u| - 1];
    assert |r| >= |u|;
    assert r[|r| - 1] == s[|r| - 1];
    assert |r| == |u|;
  }

  predicate IsUpper(c: char) {
    'A' <= c <= 'Z'
  }

  function LowerChar(c: char): char {
    if IsUpper(c) then (c as int + 32) as char else c
  }

  /** Python's `s.lower()` on the ASCII letters. */
  function Lower(s: string): (r: string)
    ensures |r| == |s|
    ensures forall i :: 0 <= i < |r| ==> !IsUpper(r[i])
    ensures forall i :: 0 <= i < |s| && !IsUpper(s[i]) ==> r[i] == s[i]
    ensures forall i :: 0 <= i < |s| && IsUpper(s[i]) ==> r[i] as int == s[i] as int + 32
  {
    if s == [] then [] else [LowerChar(s[0])] + Lower(s[1..])
  }

  /** Strings that agree letter by letter up to case lower-case to the same string. */
  lemma {:induction false} LowerCaseless(a: string, b: string)
    requires |a| == |b| && forall i :: 0 <= i < |a| ==> LowerChar(a[i]) == LowerChar(b[i])
    ensures Lower(a) == Lower(b)
  {
    if a != [] {
      assert LowerChar(a[0]) == LowerChar(b[0]);
      LowerCaseless(a[1..], b[1..]);
    }
  }

  /** Lowering a string with no upper-case letter leaves it unchanged. */
  lemma LowerFixes(s: string)
    requires forall i :: 0 <= i < |s| ==> !IsUpper(s[i])
    ensures Lower(s) == s
  {
  }

  lemma LowerIdempotent(s: string)
    ensures Lower(Lower(s)) == Lower(s)
  {
    LowerFixes(Lower(s));
  }

  /** The characters Python's `int()` strips from around its argument: those `str.isspace()` accepts. */
  const Whitespace: set<char> := {
    '\t', '\n', '\U{000B}', '\U{000C}', '\r', '\U{001C}', '\U{001D}', '\U{001E}', '\U{001F}', ' ',
    '\U{0085}', '\U{00A0}', '\U{1680}', '\U{2000}', '\U{2001}', '\U{2002}', '\U{2003}', '\U{2004}',
    '\U{2005}', '\U{2006}', '\U{2007}', '\U{2008}', '\U{2009}', '\U{200A}', '\U{2028}', '\U{2029}',
    '\U{202F}', '\U{205F}', '\U{3000}'}

  predicate IsDigit(c: char) {
    '0' <= c <= '9'
  }

  predicate AllDigits(s: string) {
    forall i :: 0 <= i < |s| ==> IsDigit(s[i])
  }

  /** The value of a decimal numeral. */
  function DigitsValue(s: string): nat
    requires AllDigits(s)
  {
    if s == [] then 0 else DigitsValue(s[..|s| - 1]) * 10 + (s[|s| - 1] as int - '0' as int)
  }

  function DigitChar(d: nat): (c: char)
    requires d < 10
    ensures IsDigit(c) && c as int - '0' as int == d
  {
    ('0' as int + d) as char
  }

  /** The decimal numeral of `n`, without leading zeros. */
  function Digits(n: nat): (s: string)
    ensures |s| > 0 && AllDigits(s)
  {
    if n < 10 then [DigitChar(n)] else Digits(n / 10) + [DigitChar(n % 10)]
  }

  lemma {:induction false} DigitsValueOf(n: nat)
    ensures DigitsValue(Digits(n)) == n
  {
    if n >= 10 {
      DigitsValueOf(n / 10);
      var s := Digits(n);
      assert s[..|s| - 1] == Digits(n / 10);
    }
  }

  /** Python's `str(n)` for an integer. */
  function Str(n: int): (s: string)
    ensures |s| > 0
  {
    if n < 0 then "-" + Digits(-n) else Digits(n)
  }

  /**
    Python's `int(s)` in base 10: optional surrounding whitespace, an optional
    sign, then one or more decimal digits; anything else is a `ValueError`
    (here `None`).
  */
  function ParseInt(s: string): Option<int> {
    var t := Strip(s, Whitespace);
    if |t| > 0 && (t[0] == '-' || t[0] == '+') then
      if |t| > 1 && AllDigits(t[1..]) then
        var v: int := DigitsValue(t[1..]);
        Some(if t[0] == '-' then -v else v)
      else None
    else if |t| > 0 && AllDigits(t) then Some(DigitsValue(t))
    else None
  }

  /** A string that neither starts nor ends with a character of `cs` is its own strip. */
  lemma StripUnframed(t: string, cs: set<char>)
    requires |t| > 0 ==> t[0] !in cs && t[|t| - 1] !in cs
    ensures Strip(t, cs) == t
  {
    StripFrame("", t, "", cs);
    assert "" + t + "" == t;
  }

  /** `int(str(n)) == n`. */
  lemma ParseIntStr(n: int)
    ensures ParseInt(Str(n)) == Some(n)
  {
    var s := Str(n);
    var m: nat := if n < 0 then -n else n;
    var d := Digits(m);
    assert IsDigit(d[0]) && IsDigit(d[|d| - 1]);
    assert s[|s| - 1] == d[|d| - 1];
    assert s[0] == '-' || s[0] == d[0];
    StripUnframed(s, Whitespace);
    DigitsValueOf(m);
    if n < 0 {
      assert s[1..] == d;
    } else {
      assert s == d;
    }
  }
}
