/** Option and Result, used for Python's `None` and for the error dictionaries. */
module Wrappers {
  datatype Option<+T> = None | Some(value: T)

  datatype Result<+T, +E> = Success(value: T) | Failure(error: E)
}

/** The handful of Python `str` operations the core uses, restricted to ASCII. */
module Strings {

  /** `str.isspace` on the ASCII range: space, tab, line feed, vertical tab,
      form feed, carriage return and the four separators 0x1C..0x1F. */
  predicate IsSpace(c: char) {
    c == ' ' || ('\t' <= c <= '\r') || ('\U{1C}' <= c <= '\U{1F}')
  }

  /** Leading-whitespace removal (`str.lstrip()`). */
  function TrimStart(s: string): (r: string)
    ensures |r| <= |s| && r == s[|s| - |r|..]
    ensures r == [] || !IsSpace(r[0])
    ensures forall i :: 0 <= i < |s| - |r| ==> IsSpace(s[i])
  {
    if s != [] && IsSpace(s[0]) then TrimStart(s[1..]) else s
  }

  /** Trailing-whitespace removal (`str.rstrip()`). */
  function TrimEnd(s: string): (r: string)
    ensures |r| <= |s| && r == s[..|r|]
    ensures r == [] || !IsSpace(r[|r| - 1])
    ensures forall i :: |r| <= i < |s| ==> IsSpace(s[i])
  {
    if s != [] && IsSpace(s[|s| - 1]) then TrimEnd(s[..|s| - 1]) else s
  }

  /** A non-empty string with no whitespace at either end. */
  predicate Clean(s: string) {
    s != [] && !IsSpace(s[0]) && !IsSpace(s[|s| - 1])
  }

  /** `str.strip()`: the result is empty or Clean. */
  function Strip(s: string): (r: string)
    ensures r == [] || Clean(r)
  {
    TrimEnd(TrimStart(s))
  }

  lemma StripClean(s: string)
    requires Clean(s)
    ensures Strip(s) == s
    ensures Strip(s + " ") == s
  {
    assert TrimStart(s) == s;
    assert TrimEnd(s) == s;
    var t := s + " ";
    assert TrimStart(t) == t;
    assert t[..|t| - 1] == s;
  }

  predicate IsDigit(c: char) {
    '0' <= c <= '9'
  }

  /** `str.isdigit()` on ASCII: non-empty and all decimal digits. */
  predicate IsDigits(s: string) {
    s != [] && forall i :: 0 <= i < |s| ==> IsDigit(s[i])
  }

  /** A string with a character other than a digit is neither empty nor all digits. */
  lemma NotAllDigits(s: string, k: nat)
    requires k < |s| && !IsDigit(s[k])
    ensures s != [] && !IsDigits(s)
  {
  }

  /** The value of a run of decimal digits (`int(s)`; "" reads as 0). */
  function DigitsValue(s: string): nat
    requires forall i :: 0 <= i < |s| ==> IsDigit(s[i])
  {
    if s == [] then 0
    else
      var d := s[|s| - 1] as int - '0' as int;
      assert IsDigit(s[|s| - 1]);
      10 * DigitsValue(s[..|s| - 1]) + d
  }

  function DigitChar(d: nat): (c: char)
    requires d < 10
    ensures IsDigit(c) && c as int - '0' as int == d
  {
    ('0' as int + d) as char
  }

  /** Decimal rendering of a natural number (`str(n)`, `f"{n}"`). */
  function NatToString(n: nat): (r: string)
    ensures IsDigits(r)
    ensures DigitsValue(r) == n
    ensures |r| == 1 <==> n < 10
  {
    if n < 10 then [DigitChar(n)]
    else
      var prefix := NatToString(n / 10);
      var r := prefix + [DigitChar(n % 10)];
      assert r[..|r| - 1] == prefix;
      r
  }

  /** `f"{n:02d}"`: zero-padded to at least two digits. */
  function Pad2(n: nat): (r: string)
    ensures IsDigits(r) && |r| >= 2
    ensures n < 100 ==> |r| == 2
    ensures DigitsValue(r) == n
  {
    if n < 10 then
      var r := "0" + NatToString(n);
      assert r[..1] == "0";
      r
    else NatToString(n)
  }

  /** `str.lower()` on ASCII letters. */
  function Lower(s: string): (r: string)
    ensures |r| == |s|
  {
    seq(|s|, i requires 0 <= i < |s| => if 'A' <= s[i] <= 'Z' then (s[i] as int + 32) as char else s[i])
  }

  /** `str.replace(a, b)` for single characters. */
  function Replace(s: string, a: char, b: char): (r: string)
    ensures |r| == |s|
    ensures forall i :: 0 <= i < |s| ==> r[i] == if s[i] == a then b else s[i]
  {
    seq(|s|, i requires 0 <= i < |s| => if s[i] == a then b else s[i])
  }

  /** `pat` occurs in `s` starting at position `k`. */
  predicate At(s: string, k: nat, pat: string) {
    k + |pat| <= |s| && s[k..k + |pat|] == pat
  }

  lemma AtTail(s: string, pat: string)
    requires s != []
    ensures forall j :: 1 <= j ==> (At(s, j, pat) <==> At(s[1..], j - 1, pat))
  {
    forall j | 1 <= j
      ensures At(s, j, pat) <==> At(s[1..], j - 1, pat)
    {
      if j + |pat| <= |s| {
        assert s[1..][j - 1..j - 1 + |pat|] == s[j..j + |pat|];
      }
    }
  }

  /** `str.find(pat)`, with "not found" reported as `|s|` instead of -1. */
  function IndexOf(s: string, pat: string): (k: nat)
    requires pat != []
    ensures k <= |s|
    ensures k < |s| ==> At(s, k, pat)
    ensures forall j :: 0 <= j < k ==> !At(s, j, pat)
    decreases |s|
  {
    if |s| < |pat| then |s|
    else if s[..|pat|] == pat then 0
    else AtTail(s, pat); 1 + IndexOf(s[1..], pat)
  }

  /** Python's `pat in s` for a non-empty `pat`. */
  predicate Contains(s: string, pat: string)
    requires pat != []
  {
    IndexOf(s, pat) < |s|
  }

  /** The first occurrence of a single character is where `IndexOf` stops. */
  lemma IndexOfChar(s: string, c: char, k: nat)
    requires k <= |s|
    requires forall i :: 0 <= i < k ==> s[i] != c
    requires k < |s| ==> s[k] == c
    ensures IndexOf(s, [c]) == k
  {
    forall i | 0 <= i < k
      ensures !At(s, i, [c])
    {
      AtChar(s, c, i);
    }
    if k < |s| {
      AtChar(s, c, k);
    }
  }

  lemma AtChar(s: string, c: char, i: nat)
    requires i < |s|
    ensures At(s, i, [c]) <==> s[i] == c
  {
    assert s[i..i + 1] == [s[i]];
  }

  /** `str.split(sep)`: maximal pieces between non-overlapping, left-to-right separators. */
  function Split(s: string, sep: string): (parts: seq<string>)
    requires sep != []
    ensures |parts| >= 1
    decreases |s|
  {
    var k := IndexOf(s, sep);
    if k == |s| then [s] else [s[..k]] + Split(s[k + |sep|..], sep)
  }

  /** `sep.join(parts)`. */
  function Join(parts: seq<string>, sep: string): string
  {
    if |parts| == 0 then ""
    else if |parts| == 1 then parts[0]
    else parts[0] + sep + Join(parts[1..], sep)
  }

  lemma {:induction false} JoinSnoc(parts: seq<string>, sep: string, last: string)
    requires parts != []
    ensures Join(parts + [last], sep) == Join(parts, sep) + sep + last
  {
    if |parts| == 1 {
      assert (parts + [last])[1..] == [last];
    } else {
      assert (parts + [last])[1..] == parts[1..] + [last];
      JoinSnoc(parts[1..], sep, last);
    }
  }

  /** Joining Clean pieces with a single space gives a Clean string. */
  lemma {:induction false} JoinClean(parts: seq<string>)
    requires parts != []
    requires forall k :: 0 <= k < |parts| ==> Clean(parts[k])
    ensures Clean(Join(parts, " "))
  {
    if |parts| > 1 {
      JoinClean(parts[1..]);
    }
  }

  /** A pattern found at `k` whose first character occurs nowhere before `k`
      is found first there. */
  lemma IndexOfAt(s: string, pat: string, k: nat)
    requires pat != [] && At(s, k, pat)
    requires forall i :: 0 <= i < k ==> s[i] != pat[0]
    ensures IndexOf(s, pat) == k
  {
    forall j | 0 <= j < |s| && At(s, j, pat)
      ensures s[j] == pat[0]
    {
      assert s[j..j + |pat|][0] == s[j];
    }
  }

  /** A pattern that occurs somewhere is contained. */
  lemma AtContains(s: string, pat: string, k: nat)
    requires pat != [] && At(s, k, pat)
    ensures Contains(s, pat)
  {
  }

  /** A pattern whose first character does not occur is not found. */
  lemma IndexOfAbsent(s: string, pat: string)
    requires pat != []
    requires forall i :: 0 <= i < |s| ==> s[i] != pat[0]
    ensures IndexOf(s, pat) == |s|
  {
  }

  /** Splitting on a separator undoes joining on it, when no piece contains the
      separator's first character. */
  lemma {:induction false} SplitJoinSep(parts: seq<string>, sep: string)
    requires sep != [] && |parts| >= 1
    requires forall k :: 0 <= k < |parts| ==> sep[0] !in parts[k]
    ensures Split(Join(parts, sep), sep) == parts
  {
    var s := Join(parts, sep);
    if |parts| == 1 {
      IndexOfAbsent(s, sep);
    } else {
      var p := parts[0];
      var rest := Join(parts[1..], sep);
      assert s == p + sep + rest;
      assert s[|p|..|p| + |sep|] == sep;
      IndexOfAt(s, sep, |p|);
      assert s[..|p|] == p;
      assert s[|p| + |sep|..] == rest;
      SplitJoinSep(parts[1..], sep);
    }
  }

  /** A character in neither the pieces nor the separator is not in their join. */
  lemma {:induction false} JoinAvoids(parts: seq<string>, sep: string, c: char)
    requires c !in sep
    requires forall k :: 0 <= k < |parts| ==> c !in parts[k]
    ensures c !in Join(parts, sep)
  {
    if |parts| > 1 {
      JoinAvoids(parts[1..], sep, c);
    }
  }

  /** No piece of a split on a single character contains that character. */
  lemma {:induction false} SplitAvoids(s: string, c: char)
    ensures forall k :: 0 <= k < |Split(s, [c])| ==> c !in Split(s, [c])[k]
    decreases |s|
  {
    var k := IndexOf(s, [c]);
    forall j | 0 <= j < k
      ensures s[j] != c
    {
      assert !At(s, j, [c]);
      assert j + 1 <= |s|;
      assert s[j..j + 1] == [s[j]];
    }
    if k < |s| {
      assert forall j :: 0 <= j < k ==> s[..k][j] == s[j];
      SplitAvoids(s[k + 1..], c);
    }
  }

  /** Stripping keeps no character the string did not have. */
  lemma StripAvoids(s: string, c: char)
    requires c !in s
    ensures c !in Strip(s)
  {
    TrimStartAvoids(s, c);
    TrimEndAvoids(TrimStart(s), c);
  }

  lemma TrimStartAvoids(s: string, c: char)
    requires c !in s
    ensures c !in TrimStart(s)
  {
    var t := TrimStart(s);
    var d := |s| - |t|;
    forall i | 0 <= i < |t|
      ensures t[i] != c
    {
      assert t[i] == s[d..][i] == s[d + i];
    }
  }

  lemma TrimEndAvoids(s: string, c: char)
    requires c !in s
    ensures c !in TrimEnd(s)
  {
    var t := TrimEnd(s);
    forall i | 0 <= i < |t|
      ensures t[i] != c
    {
      assert t[i] == s[i];
    }
  }

  /** Splitting on a character undoes joining on it, when no piece contains it. */
  lemma {:induction false} SplitJoin(parts: seq<string>, c: char)
    requires |parts| >= 1
    requires forall k :: 0 <= k < |parts| ==> c !in parts[k]
    ensures Split(Join(parts, [c]), [c]) == parts
  {
    var s := Join(parts, [c]);
    if |parts| == 1 {
      IndexOfChar(s, c, |s|);
    } else {
      var p := parts[0];
      var rest := Join(parts[1..], [c]);
      assert s == p + [c] + rest;
      IndexOfChar(s, c, |p|);
      assert s[..|p|] == p;
      assert s[|p| + 1..] == rest;
      SplitJoin(parts[1..], c);
    }
  }

  /** Concatenation of a sequence of strings. */
  function Concat(texts: seq<string>): string
  {
    if texts == [] then "" else texts[0] + Concat(texts[1..])
  }
}

/** Sequence helpers: the first element with a property (a `for ... break`
    loop), a list comprehension, and regrouping of concatenations. */
module Seqs {

  function Find<T>(s: seq<T>, p: T -> bool): (k: nat)
    ensures k <= |s|
    ensures k < |s| ==> p(s[k])
    ensures forall j :: 0 <= j < k ==> !p(s[j])
  {
    if s == [] || p(s[0]) then 0 else 1 + Find(s[1..], p)
  }

  /** `[f(x) for x in s]`. */
  function Map<A, B>(s: seq<A>, f: A -> B): (r: seq<B>)
    ensures |r| == |s|
    ensures forall k :: 0 <= k < |s| ==> r[k] == f(s[k])
  {
    if s == [] then [] else [f(s[0])] + Map(s[1..], f)
  }

  lemma MapCons<A, B>(s: seq<A>, f: A -> B)
    requires s != []
    ensures Map(s, f) == [f(s[0])] + Map(s[1..], f)
  {
  }

  // Regrouping concatenations. Each is stated on its own so that callers whose
  // context holds large recursive terms need not prove sequence equality there.

  lemma AssocRight<T>(x: seq<T>, y: seq<T>, z: seq<T>)
    ensures x + y + z == x + (y + z)
  {
  }

  lemma AssocRight4<T>(x: seq<T>, y: seq<T>, z: seq<T>, w: seq<T>)
    ensures x + y + z + w == x + (y + z + w)
  {
  }

  lemma AssocShift<T>(a: seq<T>, b: seq<T>, c: seq<T>, d: seq<T>)
    ensures a + (b + c) + d == a + b + (c + d)
  {
  }

  lemma GroupMiddle<T>(a: seq<T>, b: seq<T>, c: seq<T>, d: seq<T>, e: seq<T>)
    ensures a + b + c + d + e == a + (b + c + d) + e
    ensures b + c + d == b + (c + d)
  {
  }

  lemma GroupInner<T>(a: seq<T>, b: seq<T>, c: seq<T>, d: seq<T>)
    ensures a + b + c + d == a + (b + c) + d
  {
  }

  lemma SplitAtJoin<T>(a: seq<T>, b: seq<T>)
    ensures (a + b)[..|a|] == a && (a + b)[|a|..] == b
  {
  }

  lemma AppendEmpty<T>(empty: seq<T>, s: seq<T>)
    requires empty == []
    ensures empty + s == s && s + empty == s
  {
  }

  lemma ConsSplit<T>(s: seq<T>, rest: seq<T>)
    requires s != []
    ensures s + rest == [s[0]] + (s[1..] + rest)
  {
  }

  lemma UncoverFirst<T>(before: seq<T>, x: T, after: seq<T>)
    requires before != []
    ensures before + [x] + after == [before[0]] + (before[1..] + [x] + after)
    ensures before + after == [before[0]] + (before[1..] + after)
  {
  }

  lemma Pair<T>(a: T, b: T)
    ensures [a, b] == [a] + [b] && [] + [a] == [a]
  {
  }

  lemma Triple<T>(a: T, b: T, c: T)
    ensures [a, b, c] == [a] + [b, c]
  {
  }

  lemma ConsPair<T>(a: T, b: T, rest: seq<T>)
    ensures [a, b] + rest == [a] + ([b] + rest)
  {
  }

  lemma SnocPair<T>(s: seq<T>, x: T, y: T)
    ensures s + [x, y] == s + [x] + [y]
  {
  }

  lemma ConsOfShifted<T>(s: seq<T>, x: T, rest: seq<T>)
    requires |s| == |rest| + 1 && s[0] == x
    requires forall k :: 0 <= k < |rest| ==> s[k + 1] == rest[k]
    ensures s == [x] + rest
  {
  }

  /** A property of both elements holds of every element of the pair; stated
      over an abstract property so that its proof never unfolds a costly one. */
  lemma BothHold<T>(P: T -> bool, x: T, y: T)
    requires P(x) && P(y)
    ensures forall k :: 0 <= k < 2 ==> P([x, y][k])
  {
  }

  lemma TwoElements<T>(s: seq<T>, x: T, y: T)
    requires |s| == 2 && s[0] == x && s[1] == y
    ensures s == [x, y]
  {
  }
}

/** Splitting a number of seconds into hours, minutes and seconds. */
module Clock {

  /** Floor division as in Python's `divmod(total, 3600)` then `divmod(rest, 60)`;
      for a positive divisor Dafny's `/` and `%` agree with Python's. */
  function Hms(total: int): (hms: (int, nat, nat))
    ensures hms.1 < 60 && hms.2 < 60
    ensures hms.0 * 3600 + hms.1 * 60 + hms.2 == total
    ensures hms.2 == total % 60
    ensures total >= 0 ==> hms.0 >= 0
  {
    var rest := total % 3600;
    var h, m, s := total / 3600, rest / 60, rest % 60;
    assert total == 60 * (60 * h + m) + s;
    (h, m, s)
  }
}
