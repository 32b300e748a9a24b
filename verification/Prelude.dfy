/** Shared value types: optional values and results that carry a refusal. */
module Prelude {
  datatype Option<+T> = None | Some(value: T)

  datatype Result<+T, +E> = Ok(value: T) | Err(error: E) {
    predicate IsFailure() {
      Err?
    }

    function PropagateFailure<U>(): Result<U, E>
      requires Err?
    {
      Err(error)
    }

    function Extract(): T
      requires Ok?
    {
      value
    }
  }

  type Id = string

  predicate Space(c: char) {
    c == ' ' || c == '\t' || c == '\n' || c == '\r'
  }

  /** True when trimming leaves nothing. */
  predicate Blank(text: string) {
    forall k :: 0 <= k < |text| ==> Space(text[k])
  }

  function Digit(d: nat): (c: char)
    requires d < 10
    ensures '0' <= c <= '9'
    ensures c as int - '0' as int == d
  {
    '0' + d as char
  }

  /** Decimal notation without leading zeros. */
  function Decimal(n: nat): (text: string)
    ensures |text| > 0
  {
    if n < 10 then [Digit(n)] else Decimal(n / 10) + [Digit(n % 10)]
  }

  predicate Digits(text: string) {
    forall k :: 0 <= k < |text| ==> '0' <= text[k] <= '9'
  }

  /** The number that decimal digits denote; leading zeros do not count. */
  function Number(text: string): nat
    requires Digits(text)
  {
    if text == "" then 0 else Number(text[..|text| - 1]) * 10 + (text[|text| - 1] as int - '0' as int)
  }

  function Zeros(n: nat): (text: string)
    ensures |text| == n && Digits(text)
  {
    seq(n, _ => '0')
  }

  /** Zeros in front, up to the width. */
  function PadStart(text: string, width: nat): (padded: string)
    ensures |padded| == if |text| < width then width else |text|
    ensures Digits(text) ==> Digits(padded)
  {
    Zeros(if |text| < width then width - |text| else 0) + text
  }

  lemma {:induction false} NumberOfDecimal(n: nat)
    ensures Digits(Decimal(n)) && Number(Decimal(n)) == n
  {
    if n >= 10 {
      NumberOfDecimal(n / 10);
      var text := Decimal(n);
      assert text[..|text| - 1] == Decimal(n / 10);
    }
  }

  lemma {:induction false} LeadingZeros(k: nat, text: string)
    requires Digits(text)
    ensures Digits(Zeros(k) + text) && Number(Zeros(k) + text) == Number(text)
  {
    var padded := Zeros(k) + text;
    if text != "" {
      assert padded[..|padded| - 1] == Zeros(k) + text[..|text| - 1];
      LeadingZeros(k, text[..|text| - 1]);
    } else if k > 0 {
      assert padded == Zeros(k) && padded[..k - 1] == Zeros(k - 1) + "";
      LeadingZeros(k - 1, "");
    }
  }

  /** Padded decimal notation names a number uniquely, whatever the width. */
  lemma PaddedNumber(n: nat, width: nat)
    ensures Digits(PadStart(Decimal(n), width)) && Number(PadStart(Decimal(n), width)) == n
  {
    NumberOfDecimal(n);
    LeadingZeros(if |Decimal(n)| < width then width - |Decimal(n)| else 0, Decimal(n));
  }

  function Trim(text: string): string {
    if text != "" && Space(text[0]) then Trim(text[1..])
    else if text != "" && Space(text[|text| - 1]) then Trim(text[..|text| - 1])
    else text
  }
}
