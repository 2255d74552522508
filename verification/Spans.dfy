/** The wire values of the answer pipeline: exhibits, slots, spans. */
module Spans {
  import opened Wrappers

  datatype Rendering = SPOKEN | RAW

  datatype Slot = Slot(handle: string, rendering: Rendering)

  /** A measured value: a count, a text, or a structure that has no raw voice. */
  datatype Value = IntValue(n: int) | TextValue(s: string) | ListValue(size: nat)

  /** How an exhibit was measured. */
  datatype Query = Query(
    tool: string, tenant: string, verdict: Option<string>, since: Option<int>, until: Option<int>,
    window: Option<string>, isZero: bool, isOne: bool)

  datatype Exhibit = Exhibit(
    handle: string, kind: string, value: Value, spoken: string, unit: Option<string>, query: Query,
    anchor: Option<string>, computedAt: string, rows: seq<string>)

  datatype Verdict = SEALED | DERIVED | ABSTAINED

  datatype Span = Span(template: string, text: string, slots: seq<Slot>, verdict: Verdict, anchor: Option<string>)

  /** What the drafter proposes: prose with slot references, and how each slot is voiced. */
  datatype Proposal = Proposal(template: string, slots: seq<Slot>)

  function Digit(d: int): string
    requires 0 <= d < 10
  {
    [('0' as int + d) as char]
  }

  function NatDecimal(n: nat): (s: string)
    ensures |s| > 0 && '0' <= s[0] <= '9'
  {
    if n < 10 then Digit(n) else NatDecimal(n / 10) + Digit(n % 10)
  }

  /** str() of an integer. */
  function Decimal(n: int): (s: string)
    ensures |s| > 0
  {
    if n < 0 then "-" + NatDecimal(-n) else NatDecimal(n)
  }

  predicate IsDigit(c: char) { '0' <= c <= '9' }

  /** The number a digit string denotes, read left to right. */
  function NumberOf(s: string): nat
    requires forall i :: 0 <= i < |s| ==> IsDigit(s[i])
  {
    if s == "" then 0
    else
      assert IsDigit(s[|s| - 1]);
      10 * NumberOf(s[..|s| - 1]) + (s[|s| - 1] as int - '0' as int)
  }

  /** The decimal of a number is digits only, has no leading zero, and reads back as it. */
  lemma {:induction false} DecimalRoundTrip(n: nat)
    ensures forall i :: 0 <= i < |NatDecimal(n)| ==> IsDigit(NatDecimal(n)[i])
    ensures NumberOf(NatDecimal(n)) == n
    ensures NatDecimal(n)[0] == '0' ==> n == 0
  {
    var s := NatDecimal(n);
    if n >= 10 {
      DecimalRoundTrip(n / 10);
      assert s[..|s| - 1] == NatDecimal(n / 10);
    } else {
      assert s[..|s| - 1] == "";
    }
  }
}
