/** JavaScript's `String.prototype.trim`, which the bill view applies to every
    assigned name and the chat view applies to the pending input, and the
    decimal rendering of a count. */
module Text {

  /** The ECMAScript WhiteSpace and LineTerminator code points: exactly what `trim` removes. */
  predicate IsWhitespace(c: char) {
    || c == '\t' || c == '\n' || c == '\U{000B}' || c == '\U{000C}' || c == '\r'
    || c == ' ' || c == '\U{00A0}' || c == '\U{1680}'
    || ('\U{2000}' <= c <= '\U{200A}')
    || c == '\U{2028}' || c == '\U{2029}' || c == '\U{202F}' || c == '\U{205F}'
    || c == '\U{3000}' || c == '\U{FEFF}'
  }

  predicate AllWhitespace(s: string) {
    forall i :: 0 <= i < |s| ==> IsWhitespace(s[i])
  }

  /** `s` with no whitespace at either end. */
  predicate Trimmed(s: string) {
    s == [] || (!IsWhitespace(s[0]) && !IsWhitespace(s[|s| - 1]))
  }

  /** `r` sits in `s` at offset `a`, and everything of `s` around it is whitespace. */
  predicate CoreAt(s: string, r: string, a: nat) {
    && a + |r| <= |s|
    && r == s[a..a + |r|]
    && (forall i :: 0 <= i < a ==> IsWhitespace(s[i]))
    && (forall i :: a + |r| <= i < |s| ==> IsWhitespace(s[i]))
  }

  /** Drops the leading whitespace. */
  function TrimStart(s: string): (r: string)
    ensures |r| <= |s|
  {
    if |s| > 0 && IsWhitespace(s[0]) then TrimStart(s[1..]) else s
  }

  /** Drops the trailing whitespace. */
  function TrimEnd(s: string): (r: string)
    ensures |r| <= |s|
  {
    if |s| > 0 && IsWhitespace(s[|s| - 1]) then TrimEnd(s[..|s| - 1]) else s
  }

  /** `s.trim()`: the part of `s` between its leading and trailing whitespace. */
  function Trim(s: string): string
  {
    TrimEnd(TrimStart(s))
  }

  /** What `TrimStart` keeps is a suffix of `s`, what it drops is whitespace,
      and what it keeps does not start with whitespace. */
  lemma {:induction false} TrimStartSpec(s: string)
    ensures var r := TrimStart(s);
      && |r| <= |s| && r == s[|s| - |r|..]
      && (forall i :: 0 <= i < |s| - |r| ==> IsWhitespace(s[i]))
      && (r == [] || !IsWhitespace(r[0]))
  {
    if |s| > 0 && IsWhitespace(s[0]) {
      var r := TrimStart(s[1..]);
      TrimStartSpec(s[1..]);
      assert s[1..][|s| - 1 - |r|..] == s[|s| - |r|..];
      assert forall i :: 1 <= i < |s| - |r| ==> s[i] == s[1..][i - 1];
    }
  }

  /** What `TrimEnd` keeps is a prefix of `s`, what it drops is whitespace,
      and what it keeps does not end with whitespace. */
  lemma {:induction false} TrimEndSpec(s: string)
    ensures var r := TrimEnd(s);
      && |r| <= |s| && r == s[..|r|]
      && (forall i :: |r| <= i < |s| ==> IsWhitespace(s[i]))
      && (r == [] || !IsWhitespace(r[|r| - 1]))
  {
    if |s| > 0 && IsWhitespace(s[|s| - 1]) {
      var r := TrimEnd(s[..|s| - 1]);
      TrimEndSpec(s[..|s| - 1]);
      assert s[..|s| - 1][..|r|] == s[..|r|];
      assert forall i :: |r| <= i < |s| - 1 ==> s[i] == s[..|s| - 1][i];
    }
  }

  /** The trimmed string has no whitespace at its ends and sits in `s` with
      only whitespace around it. */
  lemma TrimCore(s: string)
    ensures Trimmed(Trim(s))
    ensures CoreAt(s, Trim(s), |s| - |TrimStart(s)|)
  {
    TrimStartSpec(s);
    TrimEndSpec(TrimStart(s));
    TrimIsTrimmed(s);
    CoreOfParts(s, TrimStart(s), Trim(s));
  }

  /** Trimming leaves no whitespace at either end. */
  lemma TrimIsTrimmed(s: string)
    ensures Trimmed(Trim(s))
  {
    var t := TrimStart(s);
    var r := TrimEnd(t);
    TrimStartSpec(s);
    TrimEndSpec(t);
    if r != [] {
      assert r[0] == t[0];
    }
  }

  /** A whitespace-free prefix `r` of a suffix `t` of `s`, with whitespace
      before `t` and after `r`, is a core of `s`. */
  lemma CoreOfParts(s: string, t: string, r: string)
    requires |t| <= |s| && t == s[|s| - |t|..] && forall i :: 0 <= i < |s| - |t| ==> IsWhitespace(s[i])
    requires |r| <= |t| && r == t[..|r|] && forall i :: |r| <= i < |t| ==> IsWhitespace(t[i])
    ensures CoreAt(s, r, |s| - |t|)
  {
    var a := |s| - |t|;
    assert r == s[a..a + |r|];
    forall i | a + |r| <= i < |s| ensures IsWhitespace(s[i]) {
      assert s[i] == t[i - a];
    }
  }

  /** A trimmed core is empty exactly when the whole string is whitespace. */
  lemma CoreEmptyIffBlank(s: string, r: string, a: nat)
    requires Trimmed(r) && CoreAt(s, r, a)
    ensures r == [] <==> AllWhitespace(s)
  {
    if r != [] {
      assert s[a] == r[0];
    }
  }

  /** Trimming is characterised by its contract: any core of `s` with no
      whitespace at its ends and only whitespace around it is the trimmed string. */
  lemma TrimUnique(s: string, r: string, a: nat)
    requires Trimmed(r) && CoreAt(s, r, a)
    ensures Trim(s) == r
  {
    var t := Trim(s);
    var b := |s| - |TrimStart(s)|;
    TrimCore(s);
    CoreEmptyIffBlank(s, r, a);
    CoreEmptyIffBlank(s, t, b);
    if r != [] {
      assert s[a] == r[0] && s[a + |r| - 1] == r[|r| - 1];
      assert s[b] == t[0] && s[b + |t| - 1] == t[|t| - 1];
      assert a == b;
      assert a + |r| == b + |t|;
    }
  }

  /** A string is blank (trims to "") exactly when it is all whitespace. */
  lemma TrimEmptyIffBlank(s: string)
    ensures Trim(s) == [] <==> AllWhitespace(s)
  {
    TrimCore(s);
    CoreEmptyIffBlank(s, Trim(s), |s| - |TrimStart(s)|);
  }

  /** A core of `s` is still a core once `s` is padded with whitespace. */
  lemma PaddedCore(pre: string, s: string, post: string, r: string, a: nat)
    requires AllWhitespace(pre) && AllWhitespace(post) && CoreAt(s, r, a)
    ensures CoreAt(pre + s + post, r, |pre| + a)
  {
    var whole := pre + s + post;
    var c := |pre| + a;
    assert whole[c..c + |r|] == s[a..a + |r|];
    forall i | 0 <= i < c ensures IsWhitespace(whole[i]) {
      if i < |pre| { assert whole[i] == pre[i]; } else { assert whole[i] == s[i - |pre|]; }
    }
    forall i | c + |r| <= i < |whole| ensures IsWhitespace(whole[i]) {
      if i < |pre| + |s| { assert whole[i] == s[i - |pre|]; } else { assert whole[i] == post[i - |pre| - |s|]; }
    }
  }

  /** Whitespace padding never changes the trimmed name: " Tom" and "Tom" are
      the same key. */
  lemma TrimIgnoresPadding(pre: string, s: string, post: string)
    requires AllWhitespace(pre) && AllWhitespace(post)
    ensures Trim(pre + s + post) == Trim(s)
  {
    var a := |s| - |TrimStart(s)|;
    TrimCore(s);
    PaddedCore(pre, s, post, Trim(s), a);
    TrimUnique(pre + s + post, Trim(s), |pre| + a);
  }

  /** A string that already has no surrounding whitespace trims to itself. */
  lemma TrimKeepsTrimmed(s: string)
    requires Trimmed(s)
    ensures Trim(s) == s
  {
    TrimUnique(s, s, 0);
  }

  function DigitChar(d: nat): char
    requires d < 10
  {
    "0123456789"[d]
  }

  /** The value of a decimal digit character. */
  function DigitValue(c: char): nat
  {
    if '0' <= c <= '9' then (c as int - '0' as int) as nat else 0
  }

  /** The decimal numeral of `n`, as a template literal renders an array length. */
  function NatToString(n: nat): (r: string)
    ensures |r| > 0
    decreases n
  {
    if n < 10 then [DigitChar(n)] else NatToString(n / 10) + [DigitChar(n % 10)]
  }

  /** Reads a string of decimal digits back as a number. */
  function ReadDecimal(s: string): nat
  {
    if s == [] then 0 else 10 * ReadDecimal(s[..|s| - 1]) + DigitValue(s[|s| - 1])
  }

  /** The numeral is plain decimal digits with no leading zero, and reading it
      back gives the count it was made from. */
  lemma {:induction false} NatToStringReadsBack(n: nat)
    ensures forall i :: 0 <= i < |NatToString(n)| ==> '0' <= NatToString(n)[i] <= '9'
    ensures NatToString(n)[0] == '0' ==> n == 0
    ensures ReadDecimal(NatToString(n)) == n
    decreases n
  {
    var r := NatToString(n);
    if n < 10 {
      assert r == [DigitChar(n)];
      assert DigitValue(DigitChar(n)) == n;
      assert r[..0] == [];
    } else {
      var q := NatToString(n / 10);
      NatToStringReadsBack(n / 10);
      assert r == q + [DigitChar(n % 10)];
      assert r[..|r| - 1] == q;
      assert r[0] == q[0];
      assert DigitValue(DigitChar(n % 10)) == n % 10;
    }
  }
}
