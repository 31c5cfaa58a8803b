/** A chapter: its verses in order and its number within its book. */
module Chapters {
  import opened Wrappers
  import opened AsciiText
  import opened Decimal
  import opened Verses

  datatype Chapter = Chapter(verses: seq<Verse>, number: nat) {

    /** `Chapter::new`: `number()` and `get_verses()` give back what was stored. */
    static function New(verses: seq<Verse>, number: nat): (c: Chapter)
      ensures c.verses == verses && c.number == number
    {
      Chapter(verses, number)
    }

    /**
     * `get_verse(n)` is positional: it is the n-th verse of the chapter,
     * whatever number that verse carries. 0 and anything past the end miss.
     */
    function GetVerse(n: nat): (r: Option<Verse>)
      ensures r.Some? <==> 1 <= n <= |verses|
      ensures r.Some? ==> r.value == verses[n - 1]
    {
      if n == 0 then None
      else if n - 1 < |verses| then Some(verses[n - 1])
      else None
    }

    /** `Display`: "Chapter n:" on the first line, then one verse per line. */
    function Display(): string {
      "Chapter " + NatToString(number) + ":\n" + Join(VerseLines(verses), "\n")
    }
  }

  /** The display form of each verse, in order. */
  function VerseLines(verses: seq<Verse>): (lines: seq<string>)
    ensures |lines| == |verses|
    ensures forall i :: 0 <= i < |verses| ==> lines[i] == verses[i].Display()
  {
    seq(|verses|, i requires 0 <= i < |verses| => verses[i].Display())
  }

  /** Verses numbered 1, 2, 3, ... by their position, as the loader numbers them. */
  predicate NumberedByPosition(verses: seq<Verse>) {
    forall i :: 0 <= i < |verses| ==> verses[i].number == i + 1
  }

  /** On positionally numbered verses, `get_verse(n)` finds the verse numbered n. */
  lemma GetVerseFindsNumber(c: Chapter, n: nat)
    requires NumberedByPosition(c.verses)
    ensures c.GetVerse(n).Some? ==> c.GetVerse(n).value.number == n
    ensures (exists i :: 0 <= i < |c.verses| && c.verses[i].number == n) ==> c.GetVerse(n).Some?
  {
  }

  /** One more verse adds one more line to the display form. */
  lemma DisplayAppendVerse(verses: seq<Verse>, v: Verse, number: nat)
    requires verses != []
    ensures Chapter(verses + [v], number).Display()
         == Chapter(verses, number).Display() + "\n" + v.Display()
  {
    var lines := VerseLines(verses + [v]);
    assert lines[..|lines| - 1] == VerseLines(verses);
  }

  /** A chapter with a single verse displays as its heading and that verse. */
  lemma DisplaySingleVerse(v: Verse, number: nat)
    ensures Chapter([v], number).Display() == "Chapter " + NatToString(number) + ":\n" + v.Display()
  {
  }
}
