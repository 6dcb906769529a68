/**
 * The few pieces of the Java platform the modelled code relies on:
 * the 32-bit int and its narrowing from long, String.split with a
 * one-character separator, and Integer.parseInt / Integer.toString in
 * radix 10.
 */
module JavaLang {
  import opened Wrappers

  const IntMin: int := -0x8000_0000
  const IntMax: int := 0x7fff_ffff
  const IntModulus: int := 0x1_0000_0000

  /** Values a Java int can hold. */
  predicate IsInt(n: int) {
    IntMin <= n <= IntMax
  }

  /**
   * Java's narrowing to int (Long.intValue(), or int arithmetic that
   * overflows): keeps the low 32 bits in two's complement.
   */
  function NarrowToInt(n: int): (r: int)
    ensures IsInt(r)
    ensures IsInt(n) ==> r == n
    ensures (n - r) % IntModulus == 0
  {
    (n - IntMin) % IntModulus + IntMin
  }

  // ---------------------------------------------------------------------
  // String.split(",")

  /**
   * Every piece between separators, empty pieces included: one more piece
   * than there are separators.
   */
  function SplitAll(s: string, sep: char): (pieces: seq<string>)
    ensures |pieces| == multiset(s)[sep] + 1
    ensures forall i | 0 <= i < |pieces| :: sep !in pieces[i]
  {
    if |s| == 0 then [""]
    else
      assert s == [s[0]] + s[1..];
      var rest := SplitAll(s[1..], sep);
      if s[0] == sep then [""] + rest
      else [[s[0]] + rest[0]] + rest[1..]
  }

  /** The pieces glued back together, one separator between neighbours. */
  function Join(pieces: seq<string>, sep: char): string
  {
    if |pieces| == 0 then ""
    else if |pieces| == 1 then pieces[0]
    else pieces[0] + [sep] + Join(pieces[1..], sep)
  }

  /** Splitting loses nothing: joining the pieces gives back the input. */
  lemma {:induction false} JoinSplitAll(s: string, sep: char)
    ensures Join(SplitAll(s, sep), sep) == s
  {
    if |s| > 0 {
      var rest := SplitAll(s[1..], sep);
      JoinSplitAll(s[1..], sep);
      SplitAllStep(s, sep);
      JoinStep(s[0], rest, sep);
      assert s == [s[0]] + s[1..];
    }
  }

  /** SplitAll(s) in terms of the pieces of s[1..]. */
  lemma SplitAllStep(s: string, sep: char)
    requires |s| > 0
    ensures var rest := SplitAll(s[1..], sep);
      SplitAll(s, sep) == if s[0] == sep then [""] + rest else [[s[0]] + rest[0]] + rest[1..]
  {
  }

  /** Putting one more character in front of the pieces puts it in front of the joined text. */
  lemma JoinStep(c: char, pieces: seq<string>, sep: char)
    requires |pieces| > 0
    ensures Join(if c == sep then [""] + pieces else [[c] + pieces[0]] + pieces[1..], sep) == [c] + Join(pieces, sep)
  {
    if c == sep {
      assert ([""] + pieces)[1..] == pieces;
    } else {
      var extended := [[c] + pieces[0]] + pieces[1..];
      assert extended[1..] == pieces[1..];
    }
  }

  /** A text without the separator is a single piece. */
  lemma {:induction false} SplitAllWithoutSeparator(a: string, sep: char)
    requires sep !in a
    ensures SplitAll(a, sep) == [a]
  {
    if |a| > 0 {
      SplitAllWithoutSeparator(a[1..], sep);
      assert [a[0]] + a[1..] == a;
    }
  }

  /** A separator-free prefix followed by a separator is the first piece. */
  lemma {:induction false} SplitAllFirstPiece(a: string, sep: char, b: string)
    requires sep !in a
    ensures SplitAll(a + [sep] + b, sep) == [a] + SplitAll(b, sep)
  {
    if |a| == 0 {
      assert a + [sep] + b == [sep] + b;
      assert ([sep] + b)[1..] == b;
    } else {
      var s := a + [sep] + b;
      assert s[0] == a[0];
      assert s[1..] == a[1..] + [sep] + b;
      SplitAllFirstPiece(a[1..], sep, b);
      assert [a[0]] + a[1..] == a;
    }
  }

  /** Joining separator-free pieces and splitting again gives the pieces back. */
  lemma {:induction false} SplitAllJoin(pieces: seq<string>, sep: char)
    requires |pieces| > 0
    requires forall i | 0 <= i < |pieces| :: sep !in pieces[i]
    ensures SplitAll(Join(pieces, sep), sep) == pieces
  {
    if |pieces| == 1 {
      SplitAllWithoutSeparator(pieces[0], sep);
    } else {
      SplitAllJoin(pieces[1..], sep);
      SplitAllFirstPiece(pieces[0], sep, Join(pieces[1..], sep));
      assert [pieces[0]] + pieces[1..] == pieces;
    }
  }

  /** Java's split with limit 0 drops the trailing empty pieces. */
  function DropTrailingEmpty(pieces: seq<string>): (r: seq<string>)
    ensures r <= pieces
    ensures forall i | |r| <= i < |pieces| :: pieces[i] == ""
    ensures |r| > 0 ==> r[|r| - 1] != ""
  {
    if |pieces| > 0 && pieces[|pieces| - 1] == "" then DropTrailingEmpty(pieces[..|pieces| - 1])
    else pieces
  }

  /**
   * String.split with a one-character separator that is not a regular
   * expression metacharacter: a text without the separator is returned
   * whole (even when empty); otherwise the pieces, less the trailing empty
   * ones.
   */
  function Split(s: string, sep: char): (pieces: seq<string>)
    ensures sep !in s ==> pieces == [s]
    ensures sep in s ==> pieces <= SplitAll(s, sep)
    ensures sep in s ==> forall i | |pieces| <= i < |SplitAll(s, sep)| :: SplitAll(s, sep)[i] == ""
    ensures sep in s && |pieces| > 0 ==> pieces[|pieces| - 1] != ""
    ensures forall i | 0 <= i < |pieces| :: sep !in pieces[i]
  {
    if sep !in s then [s] else DropTrailingEmpty(SplitAll(s, sep))
  }

  // ---------------------------------------------------------------------
  // Integer.parseInt and Integer.toString, radix 10

  predicate IsDigit(c: char) {
    '0' <= c <= '9'
  }

  predicate AllDigits(s: string) {
    forall i | 0 <= i < |s| :: IsDigit(s[i])
  }

  /** The number a string of decimal digits denotes (leading zeros allowed). */
  function DigitsValue(ds: string): nat
    requires AllDigits(ds)
  {
    if |ds| == 0 then 0
    else DigitsValue(ds[..|ds| - 1]) * 10 + (ds[|ds| - 1] as int - '0' as int)
  }

  /** The digits of a number text: everything after a leading sign, if any. */
  function DigitsOf(s: string): string {
    if |s| > 0 && (s[0] == '-' || s[0] == '+') then s[1..] else s
  }

  /** An optional '+' or '-' followed by at least one decimal digit. */
  predicate IsIntText(s: string) {
    |DigitsOf(s)| > 0 && AllDigits(DigitsOf(s))
  }

  /** The number such a text denotes, negated after a leading '-'. */
  function TextValue(s: string): int
    requires IsIntText(s)
  {
    var magnitude: int := DigitsValue(DigitsOf(s));
    if s[0] == '-' then -magnitude else magnitude
  }

  /**
   * Integer.parseInt(s): accepted exactly when s is a sign and digits whose
   * value fits in an int, and then that value; anything else is a
   * NumberFormatException, here None.
   */
  function ParseInt(s: string): (r: Option<int>)
    ensures r.Some? <==> IsIntText(s) && IsInt(TextValue(s))
    ensures r.Some? ==> r.value == TextValue(s) && IsInt(r.value)
    ensures r.Some? ==> |s| > 0 && AllDigits(s[1..]) && (IsDigit(s[0]) || s[0] == '-' || s[0] == '+')
    ensures r.Some? ==> (r.value < 0 ==> s[0] == '-')
  {
    if |s| == 0 then None
    else
      var signed := s[0] == '-' || s[0] == '+';
      var digits := if signed then s[1..] else s;
      if |digits| == 0 || !AllDigits(digits) then None
      else
        var magnitude: int := DigitsValue(digits);
        var v: int := if s[0] == '-' then -magnitude else magnitude;
        if IsInt(v) then Some(v) else None
  }

  /** The decimal digits of a natural number, most significant first. */
  function NatDigits(k: nat): (ds: string)
    ensures |ds| > 0 && AllDigits(ds)
  {
    if k < 10 then [('0' as int + k) as char]
    else NatDigits(k / 10) + [('0' as int + k % 10) as char]
  }

  /** Integer.toString(n) (defined here for every integer, not only ints). */
  function FormatInt(n: int): (s: string)
    ensures |s| > 0
    ensures forall i | 0 <= i < |s| :: IsDigit(s[i]) || s[i] == '-'
  {
    if n < 0 then ['-'] + NatDigits(-n) else NatDigits(n)
  }

  lemma {:induction false} DigitsValueOfNatDigits(k: nat)
    ensures DigitsValue(NatDigits(k)) == k
  {
    if k >= 10 {
      var ds := NatDigits(k);
      assert ds[..|ds| - 1] == NatDigits(k / 10);
      DigitsValueOfNatDigits(k / 10);
    }
  }

  /**
   * parseInt undoes toString exactly on the int range, and rejects the
   * decimal text of every value outside it.
   */
  lemma ParseFormatInt(n: int)
    ensures ParseInt(FormatInt(n)) == (if IsInt(n) then Some(n) else None)
  {
    var s := FormatInt(n);
    if n < 0 {
      assert s[1..] == NatDigits(-n);
      DigitsValueOfNatDigits(-n);
    } else {
      DigitsValueOfNatDigits(n);
    }
  }

  /** A leading zero does not change the value of a digit string. */
  lemma {:induction false} DigitsValueLeadingZero(ds: string)
    requires AllDigits(ds)
    ensures AllDigits(['0'] + ds) && DigitsValue(['0'] + ds) == DigitsValue(ds)
  {
    var zs := ['0'] + ds;
    assert AllDigits(zs) by {
      forall i | 0 <= i < |zs| ensures IsDigit(zs[i]) {
        if i > 0 { assert zs[i] == ds[i - 1]; }
      }
    }
    if |ds| > 0 {
      assert zs[..|zs| - 1] == ['0'] + ds[..|ds| - 1];
      DigitsValueLeadingZero(ds[..|ds| - 1]);
    }
  }

  /** parseInt accepts an explicit '+' in front of a non-negative int. */
  lemma ParseIntPlusSign(n: int)
    requires 0 <= n <= IntMax
    ensures ParseInt("+" + FormatInt(n)) == Some(n)
  {
    var s := "+" + FormatInt(n);
    assert s[1..] == NatDigits(n);
    DigitsValueOfNatDigits(n);
  }

  /** k zero characters. */
  function Zeros(k: nat): (z: string)
    ensures |z| == k && AllDigits(z)
  {
    if k == 0 then [] else ['0'] + Zeros(k - 1)
  }

  /** Leading zeros do not change the value of a digit string. */
  lemma {:induction false} DigitsValueLeadingZeros(k: nat, ds: string)
    requires AllDigits(ds)
    ensures AllDigits(Zeros(k) + ds) && DigitsValue(Zeros(k) + ds) == DigitsValue(ds)
  {
    if k > 0 {
      DigitsValueLeadingZeros(k - 1, ds);
      assert Zeros(k) + ds == ['0'] + (Zeros(k - 1) + ds);
      DigitsValueLeadingZero(Zeros(k - 1) + ds);
    } else {
      assert Zeros(k) + ds == ds;
    }
  }

  /** parseInt accepts any number of leading zeros in front of a non-negative int. */
  lemma ParseIntLeadingZeros(k: nat, n: int)
    requires 0 <= n <= IntMax
    ensures ParseInt(Zeros(k) + FormatInt(n)) == Some(n)
  {
    var s := Zeros(k) + FormatInt(n);
    assert FormatInt(n) == NatDigits(n);
    DigitsValueOfNatDigits(n);
    DigitsValueLeadingZeros(k, NatDigits(n));
    assert IsDigit(s[0]);
    assert DigitsOf(s) == s;
    assert IsIntText(s) && TextValue(s) == n;
  }
}
