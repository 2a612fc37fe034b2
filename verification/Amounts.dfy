/** Dollar amounts as the form shows and reads them, in exact decimals. */
module Amounts {
  import opened Lists
  import T = Text

  predicate IsDigit(c: char) {
    '0' <= c <= '9'
  }

  predicate AllDigits(s: string) {
    forall i :: 0 <= i < |s| ==> IsDigit(s[i])
  }

  function Digit(n: nat): (c: char)
    requires n < 10
    ensures IsDigit(c)
  {
    '0' + n as char
  }

  /** `String(n)` of a natural number. */
  function Decimal(n: nat): (s: string)
    ensures s != "" && AllDigits(s)
  {
    if n < 10 then [Digit(n)] else Decimal(n / 10) + [Digit(n % 10)]
  }

  function Amount(s: string): nat
    requires AllDigits(s)
  {
    if s == "" then 0 else 10 * Amount(s[..|s| - 1]) + (s[|s| - 1] - '0') as nat
  }

  lemma {:induction false} AmountOfDecimal(n: nat)
    ensures Amount(Decimal(n)) == n
  {
    if n >= 10 {
      AmountOfDecimal(n / 10);
      var s := Decimal(n);
      assert s[..|s| - 1] == Decimal(n / 10);
    }
  }

  // ── Dollars ─────────────────────────────────────────────────────────────

  /** `(cents / 100).toFixed(2)`. */
  function Dollars(cents: nat): string {
    Decimal(cents / 100) + "." + [Digit(cents / 10 % 10), Digit(cents % 10)]
  }

  function StripDollar(s: string): string {
    if s != "" && s[0] == '$' then s[1..] else s
  }

  /** Digits, or digits, a point and one or two more; in whole cents. */
  function Cents(s: string): Option<nat> {
    var i := T.IndexOf(s, '.');
    if i == 0 || !AllDigits(s[..i]) then None
    else if i == |s| then Some(100 * Amount(s))
    else
      var fraction := s[i + 1..];
      if !AllDigits(fraction) then None
      else if |fraction| == 1 then Some(100 * Amount(s[..i]) + 10 * Amount(fraction))
      else if |fraction| == 2 then Some(100 * Amount(s[..i]) + Amount(fraction))
      else None
  }

  lemma {:induction false} DigitsAreNotSpace(s: string)
    requires s != "" && IsDigit(s[0]) && IsDigit(s[|s| - 1])
    ensures T.Trim(s) == s && StripDollar(s) == s
  {
  }

  lemma {:induction false} OneDigit(n: nat)
    requires n < 10
    ensures Amount([Digit(n)]) == n
  {
    assert [Digit(n)][..0] == [];
    assert Amount([Digit(n)][..0]) == 0;
  }

  lemma {:induction false} TwoDigits(tens: nat, units: nat)
    requires tens < 10 && units < 10
    ensures Amount([Digit(tens), Digit(units)]) == 10 * tens + units
  {
    OneDigit(tens);
    assert [Digit(tens), Digit(units)][..1] == [Digit(tens)];
  }

  lemma {:induction false} CentsAt(whole: string, last: string)
    requires whole != "" && AllDigits(whole) && |last| == 2 && AllDigits(last)
    ensures Cents(whole + "." + last) == Some(100 * Amount(whole) + Amount(last))
  {
    var s := whole + "." + last;
    assert s == whole + ['.'] + last;
    T.IndexAt(whole, last, '.');
    assert s[..|whole|] == whole && s[|whole| + 1..] == last;
  }

  lemma {:induction false} Hundredths(cents: nat)
    ensures 100 * (cents / 100) + (10 * (cents / 10 % 10) + cents % 10) == cents
  {
    assert cents / 10 / 10 == cents / 100;
  }

  lemma {:induction false} DollarsAreTrim(whole: string, last: string)
    requires whole != "" && AllDigits(whole) && last != "" && AllDigits(last)
    ensures StripDollar(T.Trim(whole + "." + last)) == whole + "." + last
  {
    var s := whole + "." + last;
    assert s[0] == whole[0] && s[|s| - 1] == last[|last| - 1];
    DigitsAreNotSpace(s);
  }

  lemma {:induction false} CentsOfParts(cents: nat, whole: string, last: string, n: nat, m: nat)
    requires whole != "" && AllDigits(whole) && |last| == 2 && AllDigits(last)
    requires Amount(whole) == n && Amount(last) == m && 100 * n + m == cents
    ensures Cents(StripDollar(T.Trim(whole + "." + last))) == Some(cents)
  {
    CentsAt(whole, last);
    DollarsAreTrim(whole, last);
  }

  /** Every amount survives being shown as dollars and typed back. */
  lemma {:induction false} CentsOfDollars(cents: nat)
    ensures Cents(StripDollar(T.Trim(Dollars(cents)))) == Some(cents)
  {
    Hundredths(cents);
    var n: nat :| n == cents / 100;
    var tens: nat :| tens == cents / 10 % 10;
    var units: nat :| units == cents % 10;
    AmountOfDecimal(n);
    TwoDigits(tens, units);
    CentsOfParts(cents, Decimal(n), [Digit(tens), Digit(units)], n, 10 * tens + units);
  }

  // ── What is read as an amount ───────────────────────────────────────────

  predicate MeansWhole(s: string, cents: nat) {
    s != "" && AllDigits(s) && cents == 100 * Amount(s)
  }

  predicate MeansParts(whole: string, last: string, cents: nat) {
    && whole != "" && AllDigits(whole) && AllDigits(last)
    && ((|last| == 1 && cents == 100 * Amount(whole) + 10 * Amount(last))
        || (|last| == 2 && cents == 100 * Amount(whole) + Amount(last)))
  }

  /** Digits, or digits, a point and one or two more, and the cents they mean. */
  ghost predicate Means(s: string, cents: nat) {
    MeansWhole(s, cents) || exists whole: string, last: string :: s == whole + "." + last && MeansParts(whole, last, cents)
  }

  lemma NoPoint(s: string)
    requires AllDigits(s)
    ensures '.' !in s && T.IndexOf(s, '.') == |s|
  {
  }

  lemma WholeDollars(s: string)
    requires s != "" && AllDigits(s)
    ensures Cents(s) == Some(100 * Amount(s))
  {
    NoPoint(s);
    assert s[..|s|] == s;
  }

  lemma PointAt(whole: string, last: string)
    requires AllDigits(whole)
    ensures var s := whole + "." + last;
            T.IndexOf(s, '.') == |whole| && s[..|whole|] == whole && s[|whole| + 1..] == last
  {
    assert whole + "." + last == whole + ['.'] + last;
    T.IndexAt(whole, last, '.');
  }

  lemma PointedDollars(whole: string, last: string, s: string, cents: nat)
    requires MeansParts(whole, last, cents) && s == whole + "." + last
    ensures Cents(s) == Some(cents)
  {
    PointAt(whole, last);
  }

  lemma ReadCents(s: string)
    requires Cents(s).Some?
    ensures Means(s, Cents(s).value)
  {
    var i := T.IndexOf(s, '.');
    if i == |s| {
      assert s[..i] == s;
    } else {
      assert s == s[..i] + "." + s[i + 1..];
      assert MeansParts(s[..i], s[i + 1..], Cents(s).value);
    }
  }

  /** A text is read as an amount exactly when it has one of these shapes, and as
      that many cents. */
  lemma CentsMeans(s: string, cents: nat)
    ensures Cents(s) == Some(cents) <==> Means(s, cents)
  {
    if MeansWhole(s, cents) {
      WholeDollars(s);
    } else if Means(s, cents) {
      var whole: string, last: string :| s == whole + "." + last && MeansParts(whole, last, cents);
      PointedDollars(whole, last, s, cents);
    } else if Cents(s) == Some(cents) {
      ReadCents(s);
    }
  }

  /** As it is typed: with or without a dollar sign, and with white space around. */
  ghost predicate Typed(text: string, cents: nat) {
    exists lead: string, sign: string, body: string, tail: string ::
      && text == lead + ((sign + body) + tail) && T.Blank(lead) && T.Blank(tail)
      && (sign == "" || sign == "$") && Means(body, cents)
  }

  lemma EndsInDigits(body: string, cents: nat)
    requires Means(body, cents)
    ensures body != "" && IsDigit(body[0]) && IsDigit(body[|body| - 1])
  {
    if !MeansWhole(body, cents) {
      var whole: string, last: string :| body == whole + "." + last && MeansParts(whole, last, cents);
      assert body[0] == whole[0] && body[|body| - 1] == last[|last| - 1];
    }
  }

  lemma SignIsStripped(sign: string, body: string)
    requires body != "" && IsDigit(body[0]) && IsDigit(body[|body| - 1]) && (sign == "" || sign == "$")
    ensures sign + body != "" && T.Trimmed(sign + body) && StripDollar(sign + body) == body
  {
    var s := sign + body;
    assert s[|s| - 1] == body[|body| - 1];
    if sign == "$" {
      assert s[0] == '$' && s[1..] == body;
    } else {
      assert s == body;
    }
  }

  lemma AmountsAreTrim(sign: string, body: string, cents: nat)
    requires Means(body, cents) && (sign == "" || sign == "$")
    ensures sign + body != "" && T.Trimmed(sign + body) && StripDollar(sign + body) == body
  {
    EndsInDigits(body, cents);
    SignIsStripped(sign, body);
  }

  lemma TypedMeans(text: string, cents: nat)
    ensures Cents(StripDollar(T.Trim(text))) == Some(cents) <==> Typed(text, cents)
  {
    if Typed(text, cents) {
      var lead: string, sign: string, body: string, tail: string :|
        && text == lead + ((sign + body) + tail) && T.Blank(lead) && T.Blank(tail)
        && (sign == "" || sign == "$") && Means(body, cents);
      AmountsAreTrim(sign, body, cents);
      T.TrimAround(lead, sign + body, tail);
      CentsMeans(body, cents);
    }
    if Cents(StripDollar(T.Trim(text))) == Some(cents) {
      var lead, tail := T.TrimSplits(text);
      var trimmed := T.Trim(text);
      var body := StripDollar(trimmed);
      CentsMeans(body, cents);
      var sign := if body == trimmed then "" else "$";
      assert trimmed == sign + body;
    }
  }

  /** The value of a run of digits, place by place. */
  lemma AmountByPlace(s: string, d: char)
    requires AllDigits(s) && IsDigit(d)
    ensures Amount(s + [d]) == 10 * Amount(s) + (d - '0') as nat
  {
    assert (s + [d])[..|s|] == s;
  }
}
