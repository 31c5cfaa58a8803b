/** A single verse: its text and its number within its chapter. */
module Verses {
  import opened Wrappers
  import opened Decimal

  datatype Verse = Verse(text: string, number: nat) {

    /** `Verse::new`: the accessors give back what was stored. */
    static function New(text: string, number: nat): (v: Verse)
      ensures v.text == text && v.number == number
    {
      Verse(text, number)
    }

    /** `Display`: the number, ": ", then the text, e.g. "1: Test". */
    function Display(): (r: string)
      ensures var n := |NatToString(number)|;
              && |r| == n + 2 + |text|
              && r[..n] == NatToString(number)
              && r[n..n + 2] == ": "
              && r[n + 2..] == text
    {
      NatToString(number) + ": " + text
    }
  }

  /** The number printed at the head of the display form parses back. */
  lemma DisplayNumberParses(v: Verse)
    requires v.number <= USIZE_MAX
    ensures var n := |NatToString(v.number)|;
            ParseUsize(v.Display()[..n]) == Some(v.number)
  {
    ParseNatToString(v.number);
  }

  lemma DisplayExample()
    ensures Verse.New("Test", 1).Display() == "1: Test"
  {
    assert NatToString(1) == "1";
  }
}
