/**
 * The string formatting the core relies on: Python's `str(int)`, the
 * `s[:n].upper()` of a uuid text, and the order and invoice numbers built
 * from them.
 */
module Text {

  predicate IsDigit(c: char) {
    '0' <= c <= '9'
  }

  predicate IsLowerHex(c: char) {
    IsDigit(c) || 'a' <= c <= 'f'
  }

  predicate IsUpperHex(c: char) {
    IsDigit(c) || 'A' <= c <= 'F'
  }

  predicate AllDigits(s: string) {
    forall i :: 0 <= i < |s| ==> IsDigit(s[i])
  }

  function DigitChar(d: nat): (c: char)
    requires d < 10
    ensures IsDigit(c) && c as int - '0' as int == d
  {
    ('0' as int + d) as char
  }

  /** Decimal text of a natural number, as Python's `str` writes it. */
  function NatToString(n: nat): (s: string)
    ensures |s| >= 1 && AllDigits(s)
    ensures n < 10 <==> |s| == 1
  {
    if n < 10 then [DigitChar(n)] else NatToString(n / 10) + [DigitChar(n % 10)]
  }

  /** Reads a string of decimal digits back as a number. */
  function ParseNat(s: string): nat
    requires AllDigits(s)
  {
    if s == [] then 0 else 10 * ParseNat(s[..|s| - 1]) + (s[|s| - 1] as int - '0' as int)
  }

  lemma {:induction false} ParseNatToString(n: nat)
    ensures ParseNat(NatToString(n)) == n
  {
    var s := NatToString(n);
    if n >= 10 {
      ParseNatToString(n / 10);
      assert s[..|s| - 1] == NatToString(n / 10);
    }
  }

  /**
   * Python's `str(i)` for any integer: decimal digits that read back as the
   * number, behind a minus sign when it is negative.
   */
  function IntToString(i: int): (s: string)
    ensures i >= 0 ==> AllDigits(s) && ParseNat(s) == i
    ensures i < 0 ==> |s| >= 2 && s[0] == '-' && AllDigits(s[1..]) && ParseNat(s[1..]) == -i
  {
    if i < 0 then
      ParseNatToString(-i);
      assert ("-" + NatToString(-i))[1..] == NatToString(-i);
      "-" + NatToString(-i)
    else
      ParseNatToString(i);
      NatToString(i)
  }

  /** Python's slice `s[:n]`, which never fails on a short string. */
  function Prefix(s: string, n: nat): (r: string)
    ensures |r| == if |s| < n then |s| else n
    ensures r <= s
  {
    if |s| < n then s else s[..n]
  }

  /** A lower-case ASCII letter becomes its own capital; every other character stays. */
  function UpperChar(c: char): (u: char)
    ensures 'a' <= c <= 'z' ==> 'A' <= u <= 'Z' && u as int == c as int - 32
    ensures !('a' <= c <= 'z') ==> u == c
  {
    if 'a' <= c <= 'z' then (c as int - 32) as char else c
  }

  /** `str.upper()` on ASCII text (uuid texts are ASCII). */
  function Upper(s: string): (r: string)
    ensures |r| == |s|
    ensures forall i :: 0 <= i < |s| && 'a' <= s[i] <= 'z' ==> r[i] as int == s[i] as int - 32
    ensures forall i :: 0 <= i < |s| && !('a' <= s[i] <= 'z') ==> r[i] == s[i]
  {
    seq(|s|, i requires 0 <= i < |s| => UpperChar(s[i]))
  }

  /**
   * The text of `str(uuid.uuid4())`: 32 lower-case hex digits in groups of
   * 8-4-4-4-12 separated by hyphens.
   */
  predicate IsUuidText(u: string) {
    |u| == 36 &&
    forall i :: 0 <= i < 36 ==>
      if i == 8 || i == 13 || i == 18 || i == 23 then u[i] == '-' else IsLowerHex(u[i])
  }

  /** `f"ORD-{yyyymmdd}-{str(uuid4())[:8].upper()}"` */
  function OrderNumber(yyyymmdd: string, uuid: string): string {
    "ORD-" + yyyymmdd + "-" + Upper(Prefix(uuid, 8))
  }

  /** `f"INV-{yyyymmdd}-{str(uuid4())[:6].upper()}"` */
  function InvoiceNumber(yyyymmdd: string, uuid: string): string {
    "INV-" + yyyymmdd + "-" + Upper(Prefix(uuid, 6))
  }

  /**
   * A generated number is the three-letter prefix, a hyphen, the eight date
   * digits, a hyphen and `n` upper-case hex characters.
   */
  predicate HasNumberFormat(r: string, prefix: string, n: nat)
    requires |prefix| == 3
  {
    |r| == 13 + n &&
    r[..3] == prefix && r[3] == '-' && AllDigits(r[4..12]) && r[12] == '-' &&
    forall i :: 13 <= i < |r| ==> IsUpperHex(r[i])
  }

  lemma UpperOfLowerHex(s: string)
    requires forall i :: 0 <= i < |s| ==> IsLowerHex(s[i])
    ensures forall i :: 0 <= i < |s| ==> IsUpperHex(Upper(s)[i])
  {
  }

  lemma OrderNumberFormat(yyyymmdd: string, uuid: string)
    requires |yyyymmdd| == 8 && AllDigits(yyyymmdd) && IsUuidText(uuid)
    ensures HasNumberFormat(OrderNumber(yyyymmdd, uuid), "ORD", 8)
    ensures OrderNumber(yyyymmdd, uuid)[4..12] == yyyymmdd
  {
    var r := OrderNumber(yyyymmdd, uuid);
    var u := Upper(Prefix(uuid, 8));
    assert forall i :: 0 <= i < 8 ==> IsLowerHex(Prefix(uuid, 8)[i]);
    UpperOfLowerHex(Prefix(uuid, 8));
    assert r[4..12] == yyyymmdd;
    assert forall i :: 13 <= i < |r| ==> r[i] == u[i - 13];
  }

  lemma InvoiceNumberFormat(yyyymmdd: string, uuid: string)
    requires |yyyymmdd| == 8 && AllDigits(yyyymmdd) && IsUuidText(uuid)
    ensures HasNumberFormat(InvoiceNumber(yyyymmdd, uuid), "INV", 6)
    ensures InvoiceNumber(yyyymmdd, uuid)[4..12] == yyyymmdd
  {
    var r := InvoiceNumber(yyyymmdd, uuid);
    var u := Upper(Prefix(uuid, 6));
    assert forall i :: 0 <= i < 6 ==> IsLowerHex(Prefix(uuid, 6)[i]);
    UpperOfLowerHex(Prefix(uuid, 6));
    assert r[4..12] == yyyymmdd;
    assert forall i :: 13 <= i < |r| ==> r[i] == u[i - 13];
  }
}
