/** A book: its lower-cased abbreviation, its title and its chapters in order. */
module Books {
  import opened AsciiText
  import opened BibleErrors
  import opened Verses
  import opened Chapters

  datatype Book = Book(abbrev: string, title: string, chapters: seq<Chapter>) {

    /**
     * `Book::new`: the abbreviation is stored ASCII-lower-cased (it is the
     * lookup key), the title and the chapters as given.
     */
    static function New(abbrev: string, title: string, chapters: seq<Chapter>): (b: Book)
      ensures NoAsciiUpper(b.abbrev) && EqIgnoreAsciiCase(b.abbrev, abbrev)
      ensures |b.abbrev| == |abbrev|
      ensures b.title == title && b.chapters == chapters
    {
      LowerHasNoUpper(abbrev);
      LowerIdempotent(abbrev);
      Book(Lower(abbrev), title, chapters)
    }

    /**
     * `get_chapter(n)`: the n-th chapter by position; 0 and anything past
     * the end are `ChapterOutOfBounds` naming this book and its chapter count.
     */
    function GetChapter(n: nat): (r: Result<Chapter>)
      ensures r.Ok? <==> 1 <= n <= |chapters|
      ensures r.Ok? ==> r.value == chapters[n - 1]
      ensures r.Err? ==> r.error == ChapterOutOfBounds(abbrev, title, n, |chapters|)
    {
      if n == 0 then Err(ChapterOutOfBounds(abbrev, title, n, |chapters|))
      else if n - 1 < |chapters| then Ok(chapters[n - 1])
      else Err(ChapterOutOfBounds(abbrev, title, n, |chapters|))
    }

    /** `get_verses(n)`: the verses of chapter n, or the error of `get_chapter(n)`. */
    function GetVerses(n: nat): (r: Result<seq<Verse>>)
      ensures r.Ok? <==> 1 <= n <= |chapters|
      ensures r.Ok? ==> r.value == chapters[n - 1].verses
      ensures r.Err? ==> r.error == GetChapter(n).error
    {
      match GetChapter(n)
      case Ok(c) => Ok(c.verses)
      case Err(e) => Err(e)
    }

    /**
     * `get_verse(c, v)`: a chapter error passes through unchanged; a verse
     * that chapter c does not have is `VerseOutOfBounds` naming this book,
     * both numbers and the chapter's verse count.
     */
    function GetVerse(c: nat, v: nat): (r: Result<Verse>)
      ensures r.Ok? <==> 1 <= c <= |chapters| && 1 <= v <= |chapters[c - 1].verses|
      ensures r.Ok? ==> r.value == chapters[c - 1].verses[v - 1]
      ensures GetChapter(c).Err? ==> r == Err(GetChapter(c).error)
      ensures GetChapter(c).Ok? && r.Err? ==>
                r.error == VerseOutOfBounds(abbrev, title, c, v, |chapters[c - 1].verses|)
    {
      match GetChapter(c)
      case Err(e) => Err(e)
      case Ok(chapter) =>
        match chapter.GetVerse(v)
        case Some(verse) => Ok(verse)
        case None => Err(VerseOutOfBounds(abbrev, title, c, v, |chapter.verses|))
    }

    /** `Display`: "Book: <title> (<abbrev>)". */
    function Display(): string {
      "Book: " + title + " (" + abbrev + ")"
    }
  }

  /** Chapters numbered 1, 2, 3, ... by position, each with positionally numbered verses. */
  predicate WellNumbered(b: Book) {
    forall i :: 0 <= i < |b.chapters| ==>
      b.chapters[i].number == i + 1 && NumberedByPosition(b.chapters[i].verses)
  }

  /** In a well-numbered book, `get_verse(c, v)` finds the verse numbered v of the chapter numbered c. */
  lemma GetVerseAddresses(b: Book, c: nat, v: nat)
    requires WellNumbered(b)
    ensures b.GetVerse(c, v).Ok? ==>
              b.GetChapter(c).value.number == c && b.GetVerse(c, v).value.number == v
  {
    if b.GetVerse(c, v).Ok? {
      GetVerseFindsNumber(b.chapters[c - 1], v);
    }
  }

  /** Every error a book lookup reports carries the book's own abbreviation and title. */
  lemma ErrorsNameTheBook(b: Book, c: nat, v: nat)
    ensures b.GetVerse(c, v).Err? ==>
              b.GetVerse(c, v).error.bookAbbrev == b.abbrev && b.GetVerse(c, v).error.bookName == b.title
    ensures b.GetVerse(c, v).Err? && b.GetVerse(c, v).error.ChapterOutOfBounds? ==>
              b.GetVerse(c, v).error.maxChapter == |b.chapters|
  {
  }

  /** The behaviour the unit test of `Book` pins down. */
  lemma NewExample(ch: Chapter)
    ensures Book.New("GN", "Genesis", [ch]).abbrev == "gn"
    ensures Book.New("GN", "Genesis", [ch]).title == "Genesis"
    ensures Book.New("GN", "Genesis", [ch]).GetChapter(1).Ok?
    ensures Book.New("GN", "Genesis", [ch]).GetChapter(0).Err?
  {
    assert Lower("GN") == "gn";
  }

  /** The display form names the title and the stored, lower-cased abbreviation. */
  lemma BookDisplayExample(ch: Chapter)
    ensures Book.New("GN", "Genesis", [ch]).Display() == "Book: Genesis (gn)"
  {
    assert Lower("GN") == "gn";
  }
}
