/** Order identifiers of the in-memory store: `fmt.Sprintf("ORD%06d", seq)`. */
module OrderIds {

  function DigitChar(d: nat): char
    requires d < 10
  {
    '0' + d as char
  }

  function Digits(n: nat): string
    decreases n
  {
    if n < 10 then [DigitChar(n)] else Digits(n / 10) + [DigitChar(n % 10)]
  }

  function Zeros(k: nat): string {
    if k == 0 then "" else Zeros(k - 1) + "0"
  }

  /** `%0<width>d`. */
  function Padded(n: nat, width: nat): string {
    var d := Digits(n);
    Zeros(if |d| < width then width - |d| else 0) + d
  }

  function OrderId(n: nat): string {
    "ORD" + Padded(n, 6)
  }

  /** Identifiers of the mailboxes the store is seeded with: `mb-%03d`. */
  function SeedMailboxId(n: nat): string {
    "mb-" + Padded(n, 3)
  }

  /** Reads a decimal numeral; leading zeros do not matter. */
  function Value(s: string): int {
    if s == "" then 0 else 10 * Value(s[..|s| - 1]) + (s[|s| - 1] as int - '0' as int)
  }

  lemma {:induction false} ValueSnoc(s: string, c: char)
    ensures Value(s + [c]) == 10 * Value(s) + (c as int - '0' as int)
  {
    assert (s + [c])[..|s|] == s;
  }

  lemma {:induction false} ValueOfZeros(k: nat)
    ensures Value(Zeros(k)) == 0
  {
    if k > 0 {
      ValueOfZeros(k - 1);
      ValueSnoc(Zeros(k - 1), '0');
    }
  }

  lemma {:induction false} ValueOfPadded(k: nat, n: nat)
    ensures Value(Zeros(k) + Digits(n)) == n
    decreases n
  {
    if n < 10 {
      ValueOfZeros(k);
      ValueSnoc(Zeros(k), DigitChar(n));
    } else {
      ValueOfPadded(k, n / 10);
      assert Zeros(k) + Digits(n) == (Zeros(k) + Digits(n / 10)) + [DigitChar(n % 10)];
      ValueSnoc(Zeros(k) + Digits(n / 10), DigitChar(n % 10));
    }
  }

  /** Reading a padded number back: no width loses information. */
  lemma {:induction false} PaddedReadsBack(n: nat, width: nat)
    ensures |Padded(n, width)| >= width
    ensures Value(Padded(n, width)) == n
  {
    var d := Digits(n);
    var k := if |d| < width then width - |d| else 0;
    ZerosLength(k);
    ValueOfPadded(k, n);
  }

  lemma {:induction false} ZerosLength(k: nat)
    ensures |Zeros(k)| == k
  {
    if k > 0 { ZerosLength(k - 1); }
  }

  /** An identifier is `ORD`, then at least six digits, and exactly six up to 999999. */
  lemma OrderIdShape(n: nat)
    ensures |OrderId(n)| >= 9 && OrderId(n)[..3] == "ORD" && (n < 1000000 ==> |OrderId(n)| == 9)
    ensures forall i :: 3 <= i < |OrderId(n)| ==> '0' <= OrderId(n)[i] <= '9'
  {
    DigitsShape(n, 6);
    assert Power(6) == 1000000;
    ZerosShape(if |Digits(n)| < 6 then 6 - |Digits(n)| else 0);
  }

  lemma {:induction false} DigitsShape(n: nat, width: nat)
    requires width > 0
    ensures |Digits(n)| > 0 && forall i :: 0 <= i < |Digits(n)| ==> '0' <= Digits(n)[i] <= '9'
    ensures n < Power(width) ==> |Digits(n)| <= width
    decreases n
  {
    assert Power(width) == 10 * Power(width - 1);
    if n >= 10 {
      DigitsShape(n / 10, if width > 1 then width - 1 else 1);
    }
  }

  /** Ten to the power of `width`. */
  function Power(width: nat): nat {
    if width == 0 then 1 else 10 * Power(width - 1)
  }

  lemma {:induction false} ZerosShape(k: nat)
    ensures |Zeros(k)| == k && forall i :: 0 <= i < k ==> Zeros(k)[i] == '0'
  {
    if k > 0 { ZerosShape(k - 1); }
  }

  /** Distinct sequence numbers, also beyond six digits, never render to the same identifier, nor to the empty one. */
  lemma {:induction false} OrderIdInjective(a: nat, b: nat)
    ensures OrderId(a) == OrderId(b) <==> a == b
    ensures OrderId(a) != ""
  {
    PaddedReadsBack(a, 6);
    PaddedReadsBack(b, 6);
    assert OrderId(a)[3..] == Padded(a, 6) && OrderId(b)[3..] == Padded(b, 6);
  }

  lemma {:induction false} SeedMailboxIdInjective(a: nat, b: nat)
    ensures SeedMailboxId(a) == SeedMailboxId(b) <==> a == b
  {
    PaddedReadsBack(a, 3);
    PaddedReadsBack(b, 3);
    assert SeedMailboxId(a)[3..] == Padded(a, 3) && SeedMailboxId(b)[3..] == Padded(b, 3);
  }
}
