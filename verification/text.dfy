/** The Python string built-ins the client relies on: `str.strip()`,
    `str.join`, `str.split`, `str(int)` and `int(str)`, on `seq<char>`. */
module Text {
  import opened Wrappers

  /** The characters Python's `str.isspace()` accepts, which `str.strip()` removes. */
  predicate IsSpace(c: char) {
    || c == ' '
    || ('\t' <= c <= '\r')
    || ('\U{1C}' <= c <= '\U{1F}')
    || c == '\U{85}' || c == '\U{A0}' || c == '\U{1680}'
    || ('\U{2000}' <= c <= '\U{200A}')
    || c == '\U{2028}' || c == '\U{2029}' || c == '\U{202F}' || c == '\U{205F}'
    || c == '\U{3000}'
  }

  /** Every character of `t` is whitespace. */
  predicate AllSpace(t: string) {
    forall i :: 0 <= i < |t| ==> IsSpace(t[i])
  }

  /** Where `s.lstrip()` starts, scanning from `i`: the first non-whitespace
      position at or after `i`, or `|s|`. */
  function StripStartIndex(s: string, i: nat): (k: nat)
    requires i <= |s|
    ensures i <= k <= |s|
    ensures forall j :: i <= j < k ==> IsSpace(s[j])
    ensures k < |s| ==> !IsSpace(s[k])
    decreases |s| - i
  {
    if i < |s| && IsSpace(s[i]) then StripStartIndex(s, i + 1) else i
  }

  /** Where `s.rstrip()` ends, scanning down from `j` but not below `lo`: one
      past the last non-whitespace position in `s[lo..j]`, or `lo`. */
  function StripEndIndex(s: string, lo: nat, j: nat): (k: nat)
    requires lo <= j <= |s|
    ensures lo <= k <= j
    ensures forall m :: k <= m < j ==> IsSpace(s[m])
    ensures k > lo ==> !IsSpace(s[k - 1])
    decreases j
  {
    if j > lo && IsSpace(s[j - 1]) then StripEndIndex(s, lo, j - 1) else j
  }

  /** `s.strip()`: `s` is `r` surrounded by whitespace only, and `r` neither
      starts nor ends with whitespace. */
  function Strip(s: string): (r: string)
    ensures exists pre, post :: s == pre + r + post && AllSpace(pre) && AllSpace(post)
    ensures |r| > 0 ==> !IsSpace(r[0]) && !IsSpace(r[|r| - 1])
  {
    var lo := StripStartIndex(s, 0);
    var hi := StripEndIndex(s, lo, |s|);
    StripSlice(s, lo, hi);
    s[lo..hi]
  }

  /** The slice between whitespace-only margins is `s` stripped. */
  lemma StripSlice(s: string, lo: nat, hi: nat)
    requires lo <= hi <= |s|
    requires forall j :: 0 <= j < lo ==> IsSpace(s[j])
    requires forall j :: hi <= j < |s| ==> IsSpace(s[j])
    requires lo < hi ==> !IsSpace(s[lo]) && !IsSpace(s[hi - 1])
    ensures exists pre, post :: s == pre + s[lo..hi] + post && AllSpace(pre) && AllSpace(post)
    ensures hi - lo > 0 ==> !IsSpace(s[lo..hi][0]) && !IsSpace(s[lo..hi][hi - lo - 1])
  {
    var pre := s[..lo];
    var post := s[hi..];
    assert AllSpace(pre) by {
      forall j | 0 <= j < |pre| ensures IsSpace(pre[j]) { assert pre[j] == s[j]; }
    }
    assert AllSpace(post) by {
      forall j | 0 <= j < |post| ensures IsSpace(post[j]) { assert post[j] == s[hi + j]; }
    }
    assert s == pre + s[lo..hi] + post;
  }

  lemma {:induction false} StripStartIndexPadded(t: string, n: nat, i: nat)
    requires i <= n < |t|
    requires forall j :: i <= j < n ==> IsSpace(t[j])
    requires !IsSpace(t[n])
    ensures StripStartIndex(t, i) == n
    decreases n - i
  {
    if i < n {
      StripStartIndexPadded(t, n, i + 1);
    }
  }

  lemma {:induction false} StripEndIndexPadded(t: string, lo: nat, n: nat, j: nat)
    requires lo < n <= j <= |t|
    requires forall m :: n <= m < j ==> IsSpace(t[m])
    requires !IsSpace(t[n - 1])
    ensures StripEndIndex(t, lo, j) == n
    decreases j
  {
    if j > n {
      StripEndIndexPadded(t, lo, n, j - 1);
    }
  }

  /** Stripping undoes whitespace padding of a string that neither starts nor
      ends with whitespace. */
  lemma StripPadded(pre: string, s: string, post: string)
    requires AllSpace(pre) && AllSpace(post)
    requires |s| > 0 && !IsSpace(s[0]) && !IsSpace(s[|s| - 1])
    ensures Strip(pre + s + post) == s
  {
    var t := pre + s + post;
    var lo := |pre|;
    var hi := |pre| + |s|;
    assert forall j :: 0 <= j < lo ==> t[j] == pre[j];
    assert forall m :: hi <= m < |t| ==> t[m] == post[m - hi];
    assert t[lo] == s[0] && t[hi - 1] == s[|s| - 1];
    StripStartIndexPadded(t, lo, 0);
    StripEndIndexPadded(t, lo, hi, |t|);
    assert t[lo..hi] == s;
  }

  /** `sep.join(xs)` */
  function Join(sep: string, xs: seq<string>): string
  {
    if |xs| == 0 then ""
    else if |xs| == 1 then xs[0]
    else xs[0] + sep + Join(sep, xs[1..])
  }

  /** The position of the first `c` in `s`, if any (`s.find(c)`). */
  function IndexOf(s: string, c: char): (r: Option<nat>)
    ensures r.None? <==> c !in s
    ensures r.Some? ==> r.value < |s| && s[r.value] == c && c !in s[..r.value]
  {
    if |s| == 0 then None
    else if s[0] == c then Some(0)
    else
      match IndexOf(s[1..], c)
      case None => None
      case Some(i) => assert s[..i + 1] == [s[0]] + s[1..][..i]; Some(i + 1)
  }

  /** The first `c` in `a + [c] + b` is the one after `a` when `a` holds none. */
  lemma IndexOfAfter(a: string, c: char, b: string)
    requires c !in a
    ensures IndexOf(a + [c] + b, c) == Some(|a|)
  {
    var s := a + [c] + b;
    assert s[..|a|] == a;
    assert s[|a|] == c;
  }

  /** `s.split(c)`: the pieces of `s` between occurrences of `c`. */
  function Split(s: string, c: char): (r: seq<string>)
    ensures |r| >= 1
    ensures forall k :: 0 <= k < |r| ==> c !in r[k]
    decreases |s|
  {
    match IndexOf(s, c)
    case None => [s]
    case Some(i) => [s[..i]] + Split(s[i + 1..], c)
  }

  /** Splitting at the first separator: the piece before it, then the rest split. */
  lemma SplitAtFirst(a: string, c: char, b: string)
    requires c !in a
    ensures Split(a + [c] + b, c) == [a] + Split(b, c)
  {
    var s := a + [c] + b;
    IndexOfAfter(a, c, b);
    assert s[..|a|] == a;
    assert s[|a| + 1..] == b;
  }

  /** Splitting a join on its separator gives back the pieces, provided there
      is at least one and none contains the separator. */
  lemma {:induction false} SplitJoin(xs: seq<string>, c: char)
    requires |xs| >= 1
    requires forall k :: 0 <= k < |xs| ==> c !in xs[k]
    ensures Split(Join([c], xs), c) == xs
    decreases |xs|
  {
    if |xs| > 1 {
      var rest := xs[1..];
      assert xs == [xs[0]] + rest;
      JoinCons([c], xs[0], rest);
      SplitAtFirst(xs[0], c, Join([c], rest));
      SplitJoin(rest, c);
    }
  }

  /** Joining the pieces of a split restores the string. */
  lemma {:induction false} JoinSplit(s: string, c: char)
    ensures Join([c], Split(s, c)) == s
    decreases |s|
  {
    var ix := IndexOf(s, c);
    if ix.Some? {
      var i := ix.value;
      var before := s[..i];
      var rest := s[i + 1..];
      assert s == before + [c] + rest;
      SplitAtFirst(before, c, rest);
      JoinSplit(rest, c);
      JoinCons([c], before, Split(rest, c));
    }
  }

  lemma JoinCons(sep: string, x: string, xs: seq<string>)
    requires |xs| >= 1
    ensures Join(sep, [x] + xs) == x + sep + Join(sep, xs)
  {
    assert ([x] + xs)[1..] == xs;
  }

  /** A character absent from the separator and from every piece is absent from the join. */
  lemma {:induction false} JoinExcludes(sep: string, xs: seq<string>, c: char)
    requires c !in sep
    requires forall k :: 0 <= k < |xs| ==> c !in xs[k]
    ensures c !in Join(sep, xs)
    decreases |xs|
  {
    if |xs| > 1 {
      JoinExcludes(sep, xs[1..], c);
    }
  }

  predicate IsDigit(c: char) {
    '0' <= c <= '9'
  }

  /** A non-empty run of ASCII decimal digits. */
  predicate IsDigits(s: string) {
    |s| > 0 && forall i :: 0 <= i < |s| ==> IsDigit(s[i])
  }

  function DigitChar(d: nat): (c: char)
    requires d < 10
    ensures IsDigit(c) && DigitValue(c) == d
  {
    ('0' as int + d) as char
  }

  function DigitValue(c: char): (d: nat)
    requires IsDigit(c)
    ensures d < 10
  {
    c as int - '0' as int
  }

  /** The number a digit string denotes, read most significant digit first. */
  function DigitsValue(s: string): nat
    requires forall i :: 0 <= i < |s| ==> IsDigit(s[i])
  {
    if |s| == 0 then 0 else DigitsValue(s[..|s| - 1]) * 10 + DigitValue(s[|s| - 1])
  }

  /** `str(n)` for `n >= 0`: canonical decimal, no leading zero. */
  function NatToString(n: nat): (r: string)
    ensures IsDigits(r)
    ensures |r| > 1 ==> r[0] != '0'
  {
    if n < 10 then [DigitChar(n)] else NatToString(n / 10) + [DigitChar(n % 10)]
  }

  /** `str(n)` */
  function IntToString(n: int): string
  {
    if n < 0 then "-" + NatToString(-n) else NatToString(n)
  }

  /** `int(s)` on a string without surrounding whitespace: an optional sign
      followed by one or more ASCII digits; anything else is a `ValueError`. */
  function ParseInt(s: string): (r: Option<int>)
    ensures r.Some? <==>
              (IsDigits(s) || (|s| > 1 && (s[0] == '+' || s[0] == '-') && IsDigits(s[1..])))
  {
    if |s| > 0 && (s[0] == '+' || s[0] == '-') then
      if IsDigits(s[1..]) then
        var v: int := DigitsValue(s[1..]);
        Some(if s[0] == '-' then -v else v)
      else None
    else if IsDigits(s) then Some(DigitsValue(s))
    else None
  }

  lemma {:induction false} DigitsValueOfNatToString(n: nat)
    ensures DigitsValue(NatToString(n)) == n
    decreases n
  {
    var s := NatToString(n);
    if n >= 10 {
      DigitsValueOfNatToString(n / 10);
      assert s[..|s| - 1] == NatToString(n / 10);
    }
  }

  lemma ParseUnsigned(s: string)
    requires IsDigits(s)
    ensures ParseInt(s) == Some(DigitsValue(s))
  {
    assert IsDigit(s[0]);
  }

  lemma ParseNegative(s: string)
    requires IsDigits(s)
    ensures ParseInt("-" + s) == Some(0 - DigitsValue(s) as int)
  {
    assert ("-" + s)[1..] == s;
  }

  /** A possibly empty run of `0` characters. */
  predicate AllZeros(z: string) {
    forall i :: 0 <= i < |z| ==> z[i] == '0'
  }

  lemma {:induction false} ZerosValue(z: string)
    requires AllZeros(z)
    ensures DigitsValue(z) == 0
    decreases |z|
  {
    if |z| > 0 {
      ZerosValue(z[..|z| - 1]);
    }
  }

  /** Leading zeros do not change the number a digit string denotes. */
  lemma {:induction false} LeadingZerosValue(z: string, s: string)
    requires AllZeros(z)
    requires forall i :: 0 <= i < |s| ==> IsDigit(s[i])
    ensures forall i :: 0 <= i < |z + s| ==> IsDigit((z + s)[i])
    ensures DigitsValue(z + s) == DigitsValue(s)
    decreases |s|
  {
    if |s| == 0 {
      assert z + s == z;
      ZerosValue(z);
    } else {
      LeadingZerosValue(z, s[..|s| - 1]);
      assert (z + s)[..|z + s| - 1] == z + s[..|s| - 1];
    }
  }

  /** `int()` reads a `+` sign, a `-` sign and leading zeros as Python does:
      `int("+007") == 7` and `int("-007") == -7`. */
  lemma ParseIntPadded(sign: string, z: string, n: nat)
    requires sign == "" || sign == "+" || sign == "-"
    requires AllZeros(z)
    ensures ParseInt(sign + z + NatToString(n)) == Some(if sign == "-" then -(n as int) else n as int)
  {
    var digits := z + NatToString(n);
    LeadingZerosValue(z, NatToString(n));
    DigitsValueOfNatToString(n);
    assert sign + z + NatToString(n) == sign + digits;
    if sign == "" {
      assert sign + digits == digits;
      ParseUnsigned(digits);
    } else {
      assert (sign + digits)[0] == sign[0];
      assert (sign + digits)[1..] == digits;
    }
  }

  /** `int(str(n)) == n` */
  lemma ParseIntToString(n: int)
    ensures ParseInt(IntToString(n)) == Some(n)
  {
    if n < 0 {
      DigitsValueOfNatToString(-n);
      ParseNegative(NatToString(-n));
    } else {
      DigitsValueOfNatToString(n);
      ParseUnsigned(NatToString(n));
    }
  }

  /** `str(n)` is non-empty and neither starts nor ends with whitespace. */
  lemma IntToStringUnpadded(n: int)
    ensures var s := IntToString(n); |s| > 0 && !IsSpace(s[0]) && !IsSpace(s[|s| - 1])
  {
  }
}
