/** Prices as the storefront prints them: a pound sign followed by
    `toFixed(2)` of the amount. Amounts are whole pence here. */
module Money {
  import opened Common
  import opened JsText

  /** `£${amount.toFixed(2)}` for an amount of `pence`. */
  function Pounds(pence: int): string {
    "£" + Fixed2(pence)
  }

  /** Reads back a price printed with a pound sign. */
  function PoundsValue(s: string): Option<int> {
    if |s| > 0 && s[0] == '£' then Fixed2Value(s[1..]) else None
  }

  /** A printed price reads back as the amount it was printed from. */
  lemma PoundsRoundTrip(pence: int)
    ensures PoundsValue(Pounds(pence)) == Some(pence)
  {
    assert Pounds(pence)[1..] == Fixed2(pence);
    Fixed2RoundTrip(pence);
  }
}
