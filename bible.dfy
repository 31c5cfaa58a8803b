/**
 * The loaded corpus: books in load order, the abbreviation index, the
 * translation's metadata and the lazily built search index.
 */
module Bibles {
  import opened Wrappers
  import opened AsciiText
  import opened Decimal
  import opened BibleBooks
  import opened BibleErrors
  import opened Verses
  import opened Chapters
  import opened Books
  import opened SearchIndexes
  import opened Aliases
  import opened IndexBuild

  /** One entry of the loaded book map: the title and the verse texts, chapter by chapter. */
  datatype BookEntry = BookEntry(name: string, chapters: seq<seq<string>>)

  // ---------------------------------------------------------------------
  // Building the books from the loaded map
  // ---------------------------------------------------------------------

  /** The verses of one chapter, numbered from 1 in order. */
  function NumberVerses(texts: seq<string>): (verses: seq<Verse>)
    ensures |verses| == |texts|
    ensures NumberedByPosition(verses)
    ensures forall j :: 0 <= j < |texts| ==> verses[j].text == texts[j]
  {
    seq(|texts|, j requires 0 <= j < |texts| => Verse.New(texts[j], j + 1))
  }

  /** The chapters of one book, numbered from 1 in order, their verses likewise. */
  function NumberChapters(chapters: seq<seq<string>>): (cs: seq<Chapter>)
    ensures |cs| == |chapters|
    ensures forall i :: 0 <= i < |chapters| ==> cs[i].verses == NumberVerses(chapters[i])
    ensures WellNumbered(Book([], [], cs))
  {
    seq(|chapters|, i requires 0 <= i < |chapters| => Chapter.New(NumberVerses(chapters[i]), i + 1))
  }

  /** The book one map entry becomes. */
  function EntryBook(abbrev: string, entry: BookEntry): (b: Book)
    ensures WellNumbered(b)
    ensures NoAsciiUpper(b.abbrev) && EqIgnoreAsciiCase(b.abbrev, abbrev)
    ensures b.title == entry.name && |b.chapters| == |entry.chapters|
  {
    var b := Book.New(abbrev, entry.name, NumberChapters(entry.chapters));
    assert WellNumbered(Book([], [], NumberChapters(entry.chapters)));
    b
  }

  /** The abbreviation index: each lower-cased abbreviation at its position, later ones overwriting. */
  function AbbrevPositions(books: seq<Book>): map<string, nat>
    decreases |books|
  {
    if books == [] then map[]
    else AbbrevPositions(books[..|books| - 1])[Lower(books[|books| - 1].abbrev) := |books| - 1]
  }

  /** The key is some book's lower-cased abbreviation, and it points at the LAST such book. */
  lemma {:induction false} AbbrevPositionsLast(books: seq<Book>, key: string)
    ensures key in AbbrevPositions(books) <==>
              exists i :: 0 <= i < |books| && Lower(books[i].abbrev) == key
    ensures key in AbbrevPositions(books) ==>
              var i := AbbrevPositions(books)[key];
              i < |books| && Lower(books[i].abbrev) == key &&
              forall j :: i < j < |books| ==> Lower(books[j].abbrev) != key
    decreases |books|
  {
    if books != [] {
      var n := |books|;
      var init := books[..n - 1];
      AbbrevPositionsLast(init, key);
      if exists i :: 0 <= i < n && Lower(books[i].abbrev) == key {
        var i :| 0 <= i < n && Lower(books[i].abbrev) == key;
        if i < n - 1 {
          assert Lower(init[i].abbrev) == key;
        }
      }
      if exists i :: 0 <= i < n - 1 && Lower(init[i].abbrev) == key {
        var i :| 0 <= i < n - 1 && Lower(init[i].abbrev) == key;
        assert Lower(books[i].abbrev) == key;
      }
    }
  }

  // ---------------------------------------------------------------------
  // The lists `build_search_index` fills, loop by loop
  // ---------------------------------------------------------------------

  /** The innermost loop: every term of one verse, at one location. */
  method PostTerms(m0: Postings, terms: seq<string>, loc: Location) returns (m: Postings)
    ensures m == AddTerms(m0, terms, loc)
  {
    m := m0;
    var k := 0;
    while k < |terms|
      invariant 0 <= k <= |terms|
      invariant m == AddTerms(m0, terms[..k], loc)
    {
      var term := terms[k];
      var entry := if term in m then m[term] else [];
      if loc !in entry {
        m := m[term := entry + [loc]];
      }
      assert terms[..k + 1][..k] == terms[..k];
      k := k + 1;
    }
    assert terms[..k] == terms;
  }

  /** The loop over the verses of chapter `c` of book `b`. */
  method PostVerses(m0: Postings, verses: seq<Verse>, b: BibleBook, c: nat) returns (m: Postings)
    ensures m == AddVerses(m0, verses, b, c)
  {
    m := m0;
    var k := 0;
    while k < |verses|
      invariant 0 <= k <= |verses|
      invariant m == AddVerses(m0, verses[..k], b, c)
    {
      var verse := verses[k];
      m := PostTerms(m, Tokenize(verse.text), Location(b, c, verse.number));
      AddVersesStep(m0, verses, b, c, k);
      k := k + 1;
    }
    assert verses[..k] == verses;
  }

  lemma AddVersesStep(m: Postings, verses: seq<Verse>, b: BibleBook, c: nat, k: nat)
    requires k < |verses|
    ensures AddVerses(m, verses[..k + 1], b, c) ==
              AddTerms(AddVerses(m, verses[..k], b, c), Tokenize(verses[k].text), Location(b, c, verses[k].number))
  {
    assert verses[..k + 1][..k] == verses[..k];
  }

  /** The loop over the chapters of book `b`, numbered by position. */
  method PostChapters(m0: Postings, chapters: seq<Chapter>, b: BibleBook) returns (m: Postings)
    ensures m == AddChapters(m0, chapters, b)
  {
    m := m0;
    var k := 0;
    while k < |chapters|
      invariant 0 <= k <= |chapters|
      invariant m == AddChapters(m0, chapters[..k], b)
    {
      m := PostVerses(m, chapters[k].verses, b, k + 1);
      AddChaptersStep(m0, chapters, b, k);
      k := k + 1;
    }
    assert chapters[..k] == chapters;
  }

  lemma AddChaptersStep(m: Postings, chapters: seq<Chapter>, b: BibleBook, k: nat)
    requires k < |chapters|
    ensures AddChapters(m, chapters[..k + 1], b) ==
              AddVerses(AddChapters(m, chapters[..k], b), chapters[k].verses, b, k + 1)
  {
    assert chapters[..k + 1][..k] == chapters[..k];
  }

  /** The final loop: every posting list sorted by (book ordinal, chapter, verse). */
  method SortEachList(m: Postings) returns (r: Postings)
    ensures r == SortPostings(m)
  {
    r := map[];
    var todo := m.Keys;
    while todo != {}
      invariant todo <= m.Keys
      invariant r.Keys == m.Keys - todo
      invariant forall t :: t in r ==> r[t] == SortByKey(m[t])
      decreases |todo|
    {
      var t :| t in todo;
      r := r[t := SortByKey(m[t])];
      todo := todo - {t};
    }
    SortedEveryList(m, r);
  }

  lemma SortedEveryList(m: Postings, r: Postings)
    requires r.Keys == m.Keys
    requires forall t :: t in r ==> r[t] == SortByKey(m[t])
    ensures r == SortPostings(m)
  {
  }

  // ---------------------------------------------------------------------
  // The corpus
  // ---------------------------------------------------------------------

  class Bible {
    const books: seq<Book>
    const indexByAbbrev: map<string, nat>
    /** Built on the first non-empty search and kept afterwards. */
    var searchIndex: Option<SearchIndex>
    const id: string
    const name: string
    const description: string
    const language: string

    /** What loading guarantees: numbered books and an abbreviation index that matches them. */
    ghost predicate Loaded() {
      && indexByAbbrev == AbbrevPositions(books)
      && (forall i :: 0 <= i < |books| ==> WellNumbered(books[i]))
    }

    /** A cached index, when there is one, is the index of these books. */
    ghost predicate Valid()
      reads this
    {
      Loaded() && (searchIndex.None? || searchIndex.value == IndexOf(books))
    }

    /**
     * `new_from_map_with_meta`: one book per map entry, in map order, then
     * the abbreviation index; no search index yet.
     */
    constructor FromMap(entries: seq<(string, BookEntry)>, id: string, name: string,
                        description: string, language: string)
      ensures |books| == |entries|
      ensures forall i :: 0 <= i < |entries| ==> books[i] == EntryBook(entries[i].0, entries[i].1)
      ensures searchIndex == None
      ensures this.id == id && this.name == name
      ensures this.description == description && this.language == language
      ensures Valid()
    {
      var bs: seq<Book> := [];
      var k := 0;
      while k < |entries|
        invariant 0 <= k <= |entries|
        invariant |bs| == k
        invariant forall i :: 0 <= i < k ==> bs[i] == EntryBook(entries[i].0, entries[i].1)
      {
        bs := bs + [EntryBook(entries[k].0, entries[k].1)];
        k := k + 1;
      }
      var index: map<string, nat> := map[];
      k := 0;
      while k < |bs|
        invariant 0 <= k <= |bs|
        invariant index == AbbrevPositions(bs[..k])
      {
        assert bs[..k + 1][..k] == bs[..k];
        index := index[Lower(bs[k].abbrev) := k];
        k := k + 1;
      }
      assert bs[..k] == bs;
      books := bs;
      indexByAbbrev := index;
      searchIndex := None;
      this.id := id;
      this.name := name;
      this.description := description;
      this.language := language;
    }

    // -------------------------------------------------------------------
    // Lookups
    // -------------------------------------------------------------------

    /** The name a "book not found" error gives for a lower-cased key. */
    function MissingBookName(key: string): string {
      match FromStr(key)
      case Some(b) => FullName(b)
      case None => key
    }

    /** `get_book_by_abbrev`: the book the lower-cased abbreviation indexes. */
    function GetBookByAbbrev(abbrev: string): (r: Result<Book>)
      ensures r.Ok? ==> r.value in books
      ensures r.Err? ==> r.error.BookNotFound? && r.error.bookAbbrev == Lower(abbrev) && r.error.translation == name
      ensures r.Err? && FromStr(abbrev).Some? ==> r.error.bookName == FullName(FromStr(abbrev).value)
      ensures r.Err? && FromStr(abbrev).None? ==> r.error.bookName == Lower(abbrev)
    {
      var key := Lower(abbrev);
      LowerIdempotent(abbrev);
      if key in indexByAbbrev && indexByAbbrev[key] < |books| then Ok(books[indexByAbbrev[key]])
      else Err(BookNotFound(key, MissingBookName(key), name))
    }

    /** `get_book`: looks the book up under its canonical code. */
    function GetBook(b: BibleBook): (r: Result<Book>)
      ensures r.Err? ==> r.error == BookNotFound(AsStr(b), FullName(b), name)
    {
      CodeIsLowercase(b);
      LowerOfNoUpper(AsStr(b));
      FromStrAsStr(b);
      GetBookByAbbrev(AsStr(b))
    }

    /** `get_verses`: a missing book is reported before the chapter is looked at. */
    function GetVerses(b: BibleBook, c: nat): (r: Result<seq<Verse>>)
      ensures GetBook(b).Err? ==> r == Err(BookNotFound(AsStr(b), FullName(b), name))
      ensures GetBook(b).Ok? ==> r == GetBook(b).value.GetVerses(c)
    {
      match GetBook(b)
      case Err(e) => Err(e)
      case Ok(book) => book.GetVerses(c)
    }

    /** `get_verse`: a missing book is reported before the chapter or verse is looked at. */
    function GetVerse(b: BibleBook, c: nat, v: nat): (r: Result<Verse>)
      ensures GetBook(b).Err? ==> r == Err(BookNotFound(AsStr(b), FullName(b), name))
      ensures GetBook(b).Ok? ==> r == GetBook(b).value.GetVerse(c, v)
    {
      match GetBook(b)
      case Err(e) => Err(e)
      case Ok(book) => book.GetVerse(c, v)
    }

    // -------------------------------------------------------------------
    // References such as "Jn 3:16"
    // -------------------------------------------------------------------

    /** `parse_error`: every malformed part is reported as a book that was not found. */
    function ParseError(part: string): (e: BibleError)
      ensures e.BookNotFound? && e.bookAbbrev == Lower(part) && e.bookName == part && e.translation == name
    {
      BookNotFound(Lower(part), part, name)
    }

    /** The first loaded book whose title equals the input up to ASCII case. */
    function TitleBook(input: string): (r: Option<BibleBook>) {
      match FirstTitle(books, input)
      case None => None
      case Some(i) => FromStr(Lower(books[i].abbrev))
    }

    /**
     * `resolve_book`: the alias table first, then the canonical codes, then
     * the titles of the loaded books.
     */
    function ResolveBook(input: string): (r: Option<BibleBook>)
      ensures AltAbbrev(Lower(input)).Some? ==> r == AltAbbrev(Lower(input))
      ensures AltAbbrev(Lower(input)).None? && FromStr(input).Some? ==> r == FromStr(input)
      ensures AltAbbrev(Lower(input)).None? && FromStr(input).None? ==> r == TitleBook(input)
    {
      var lower := Lower(input);
      LowerIdempotent(input);
      FirstOf(AltAbbrev(lower), FirstOf(FromStr(lower), TitleBook(input)))
    }

    /**
     * `get_verse_by_reference`: every malformed part is reported before the
     * book token is resolved; an unknown token is reported as written.
     */
    function GetVerseByReference(reference: string): (r: Result<Verse>)
      ensures SplitReference(reference).Malformed? ==> r == Err(ParseError(SplitReference(reference).part))
      ensures SplitReference(reference).Parts? && ResolveBook(Trim(SplitReference(reference).bookStr)).None? ==>
                r == Err(ParseError(SplitReference(reference).bookStr))
      ensures SplitReference(reference).Parts? && ResolveBook(Trim(SplitReference(reference).bookStr)).Some? ==>
                r == GetVerse(ResolveBook(Trim(SplitReference(reference).bookStr)).value,
                              SplitReference(reference).chapter, SplitReference(reference).verse)
    {
      match SplitReference(reference)
      case Malformed(part) => Err(ParseError(part))
      case Parts(bookStr, c, v) =>
        match ResolveBook(Trim(bookStr))
        case None => Err(ParseError(bookStr))
        case Some(b) => GetVerse(b, c, v)
    }

    // -------------------------------------------------------------------
    // Search
    // -------------------------------------------------------------------

    /** `build_search_index`: the loops over books, chapters, verses and terms, then the sort. */
    method BuildSearchIndex() returns (si: SearchIndex)
      ensures si == IndexOf(books)
    {
      var m: Postings := map[];
      var k := 0;
      while k < |books|
        invariant 0 <= k <= |books|
        invariant m == AddBooks(map[], books[..k])
      {
        var book := books[k];
        match FromStr(book.abbrev) {
          case Some(e) =>
            m := PostChapters(m, book.chapters, e);
          case None =>
        }
        assert books[..k + 1][..k] == books[..k];
        k := k + 1;
      }
      assert books[..k] == books;
      var sorted := SortEachList(m);
      si := SearchIndex(sorted);
    }

    /**
     * `search`: an empty query finds nothing and builds nothing; any other
     * query builds the index if there is none yet and searches it.
     */
    method Search(query: string) returns (results: seq<Location>)
      requires Valid()
      modifies this
      ensures Valid()
      ensures query == [] ==> results == [] && searchIndex == old(searchIndex)
      ensures query != [] ==> searchIndex == Some(IndexOf(books))
      ensures query != [] ==> results == IndexOf(books).SearchSpec(query)
    {
      if query == [] {
        return [];
      }
      if searchIndex.None? {
        var index := BuildSearchIndex();
        searchIndex := Some(index);
      }
      results := searchIndex.value.Search(query);
    }
  }

  /** A reference split into its book token, chapter and verse, or the part that is malformed. */
  datatype ReferenceParts = Parts(bookStr: string, chapter: nat, verse: nat) | Malformed(part: string)

  /**
   * The splitting half of `get_verse_by_reference`. The trimmed reference is
   * split at its last ':'; a missing ':' or a verse part that is not a
   * `usize` makes the whole trimmed reference the malformed part. The text
   * before the ':' is split at its last ' '; a missing space or a chapter
   * part that is not a `usize` makes that text the malformed part.
   */
  function SplitReference(reference: string): (r: ReferenceParts)
    ensures r.Parts? ==> r.chapter <= USIZE_MAX && r.verse <= USIZE_MAX
    ensures ':' !in Trim(reference) ==> r == Malformed(Trim(reference))
    ensures RSplitOnce(Trim(reference), ':').Some? &&
            ParseUsize(Trim(RSplitOnce(Trim(reference), ':').value.1)).None? ==>
              r == Malformed(Trim(reference))
    ensures RSplitOnce(Trim(reference), ':').Some? &&
            ParseUsize(Trim(RSplitOnce(Trim(reference), ':').value.1)).Some? ==>
              r == SplitChapterPart(RSplitOnce(Trim(reference), ':').value.0,
                                    ParseUsize(Trim(RSplitOnce(Trim(reference), ':').value.1)).value)
    ensures r.Parts? ==>
              RSplitOnce(Trim(reference), ':').Some? &&
              ParseUsize(Trim(RSplitOnce(Trim(reference), ':').value.1)) == Some(r.verse)
  {
    var reference := Trim(reference);
    match RSplitOnce(reference, ':')
    case None => Malformed(reference)
    case Some((bookAndChapter, verseStr)) =>
      match ParseUsize(Trim(verseStr))
      case None => Malformed(reference)
      case Some(v) => SplitChapterPart(bookAndChapter, v)
  }

  /** The text before the ':' split into book token and chapter. */
  function SplitChapterPart(bookAndChapter: string, v: nat): (r: ReferenceParts)
    requires v <= USIZE_MAX
    ensures r.Parts? ==> r.chapter <= USIZE_MAX && r.verse == v
    ensures ' ' !in bookAndChapter ==> r == Malformed(bookAndChapter)
    ensures RSplitOnce(bookAndChapter, ' ').Some? &&
            ParseUsize(Trim(RSplitOnce(bookAndChapter, ' ').value.1)).None? ==>
              r == Malformed(bookAndChapter)
    ensures r.Malformed? ==> r.part == bookAndChapter
    ensures r.Parts? ==>
              RSplitOnce(bookAndChapter, ' ').Some? &&
              RSplitOnce(bookAndChapter, ' ').value.0 == r.bookStr &&
              ParseUsize(Trim(RSplitOnce(bookAndChapter, ' ').value.1)) == Some(r.chapter)
  {
    match RSplitOnce(bookAndChapter, ' ')
    case None => Malformed(bookAndChapter)
    case Some((bookStr, chapterStr)) =>
      match ParseUsize(Trim(chapterStr))
      case None => Malformed(bookAndChapter)
      case Some(c) => Parts(bookStr, c, v)
  }

  lemma SplitVersePart(bookAndChapter: string, v: nat)
    requires bookAndChapter != [] && !IsWhitespace(bookAndChapter[0])
    requires v <= USIZE_MAX
    ensures SplitReference(bookAndChapter + ":" + NatToString(v)) == SplitChapterPart(bookAndChapter, v)
  {
    var vs := NatToString(v);
    var reference := bookAndChapter + ":" + vs;
    DigitsAreNotSpace(vs);
    assert reference[0] == bookAndChapter[0];
    assert reference[|reference| - 1] == vs[|vs| - 1];
    TrimOfTrimmed(reference);
    RSplitOnceAt(bookAndChapter, ':', vs);
    TrimOfTrimmed(vs);
    ParseNatToString(v);
  }

  lemma SplitChapterPartAt(token: string, c: nat, v: nat)
    requires c <= USIZE_MAX && v <= USIZE_MAX
    ensures SplitChapterPart(token + " " + NatToString(c), v) == Parts(token, c, v)
  {
    var cs := NatToString(c);
    DigitsAreNotSpace(cs);
    RSplitOnceAt(token, ' ', cs);
    TrimOfTrimmed(cs);
    ParseNatToString(c);
  }

  /** "<token> <chapter>:<verse>" splits back into its token, chapter and verse. */
  lemma SplitReferenceRoundTrip(token: string, c: nat, v: nat)
    requires token != [] && !IsWhitespace(token[0])
    requires c <= USIZE_MAX && v <= USIZE_MAX
    ensures SplitReference(token + " " + NatToString(c) + ":" + NatToString(v)) == Parts(token, c, v)
  {
    var bookAndChapter := token + " " + NatToString(c);
    assert bookAndChapter[0] == token[0];
    SplitVersePart(bookAndChapter, v);
    SplitChapterPartAt(token, c, v);
  }

  /** The position of the first book whose title equals `input` up to ASCII case. */
  function FirstTitle(books: seq<Book>, input: string): (r: Option<nat>)
    ensures r.Some? ==> r.value < |books| && EqIgnoreAsciiCase(books[r.value].title, input)
    ensures r.Some? ==> forall j :: 0 <= j < r.value ==> !EqIgnoreAsciiCase(books[j].title, input)
    ensures r.None? ==> forall j :: 0 <= j < |books| ==> !EqIgnoreAsciiCase(books[j].title, input)
    decreases |books|
  {
    if books == [] then None
    else if EqIgnoreAsciiCase(books[0].title, input) then Some(0)
    else
      match FirstTitle(books[1..], input)
      case None => None
      case Some(i) => Some(i + 1)
  }

  // ---------------------------------------------------------------------
  // What a loaded corpus promises
  // ---------------------------------------------------------------------

  /** A book lookup succeeds exactly when some book has that abbreviation up to ASCII case; the last one wins. */
  lemma GetBookByAbbrevFinds(bible: Bible, abbrev: string)
    requires bible.Loaded()
    ensures bible.GetBookByAbbrev(abbrev).Ok? <==>
              exists i :: 0 <= i < |bible.books| && EqIgnoreAsciiCase(bible.books[i].abbrev, abbrev)
    ensures bible.GetBookByAbbrev(abbrev).Ok? ==>
              exists i :: 0 <= i < |bible.books| && bible.GetBookByAbbrev(abbrev).value == bible.books[i]
                && EqIgnoreAsciiCase(bible.books[i].abbrev, abbrev)
                && forall j :: i < j < |bible.books| ==> !EqIgnoreAsciiCase(bible.books[j].abbrev, abbrev)
  {
    var key := Lower(abbrev);
    LowerIdempotent(abbrev);
    AbbrevPositionsLast(bible.books, key);
  }

  /** `get_book(b)` finds the last loaded book whose abbreviation is b's code up to ASCII case. */
  lemma GetBookFinds(bible: Bible, b: BibleBook)
    requires bible.Loaded()
    ensures bible.GetBook(b).Ok? <==>
              exists i :: 0 <= i < |bible.books| && Lower(bible.books[i].abbrev) == AsStr(b)
  {
    CodeIsLowercase(b);
    LowerOfNoUpper(AsStr(b));
    GetBookByAbbrevFinds(bible, AsStr(b));
  }

  /** In a loaded corpus, the verse `get_verse(b, c, v)` returns is the one numbered v. */
  lemma GetVerseNumbered(bible: Bible, b: BibleBook, c: nat, v: nat)
    requires bible.Loaded()
    ensures bible.GetVerse(b, c, v).Ok? ==> bible.GetVerse(b, c, v).value.number == v
  {
    if bible.GetVerse(b, c, v).Ok? {
      var book := bible.GetBook(b).value;
      var i :| 0 <= i < |bible.books| && bible.books[i] == book;
      GetVerseAddresses(book, c, v);
    }
  }

  /** A corpus built from a map: the verse text at (c, v) of a found book is the map's text there. */
  lemma FromMapVerseText(entries: seq<(string, BookEntry)>, k: nat, c: nat, v: nat)
    requires k < |entries|
    ensures var book := EntryBook(entries[k].0, entries[k].1);
            book.GetVerse(c, v).Ok? <==>
              1 <= c <= |entries[k].1.chapters| && 1 <= v <= |entries[k].1.chapters[c - 1]|
    ensures var book := EntryBook(entries[k].0, entries[k].1);
            book.GetVerse(c, v).Ok? ==>
              book.GetVerse(c, v).value == Verse(entries[k].1.chapters[c - 1][v - 1], v)
  {
    var book := EntryBook(entries[k].0, entries[k].1);
    assert book.chapters == NumberChapters(entries[k].1.chapters);
    if 1 <= c <= |entries[k].1.chapters| {
      assert book.chapters[c - 1].verses == NumberVerses(entries[k].1.chapters[c - 1]);
    }
  }

  lemma {:induction false} FirstTitleIgnoresCase(books: seq<Book>, x: string, y: string)
    requires EqIgnoreAsciiCase(x, y)
    ensures FirstTitle(books, x) == FirstTitle(books, y)
    decreases |books|
  {
    if books != [] {
      FirstTitleIgnoresCase(books[1..], x, y);
    }
  }

  /** Book tokens are resolved without regard to ASCII case. */
  lemma ResolveBookIgnoresCase(bible: Bible, x: string, y: string)
    requires EqIgnoreAsciiCase(x, y)
    ensures bible.ResolveBook(x) == bible.ResolveBook(y)
  {
    FirstTitleIgnoresCase(bible.books, x, y);
    FromStrIgnoresCase(x, y);
  }

  /** A canonical code that no alias takes over resolves to its own book, whatever is loaded. */
  lemma ResolveBookCanonical(bible: Bible, b: BibleBook)
    requires AltAbbrev(AsStr(b)).None? || AltAbbrev(AsStr(b)) == Some(b)
    ensures bible.ResolveBook(AsStr(b)) == Some(b)
  {
    CodeIsLowercase(b);
    LowerOfNoUpper(AsStr(b));
    FromStrAsStr(b);
  }

  /** "Jn" is John through the alias table, although the canonical code "jn" is Jonah. */
  lemma ResolveJnIsJohn(bible: Bible)
    ensures bible.ResolveBook("Jn") == Some(John)
    ensures bible.ResolveBook("jn") == Some(John)
    ensures FromStr("jn") == Some(Jonah)
  {
    assert Lower("Jn") == "jn";
    assert Lower("jn") == "jn";
    AliasJnIsJohn();
  }

  /** "Jud" is Jude through the alias table, although the canonical code "jud" is Judges. */
  lemma ResolveJudIsJude(bible: Bible)
    ensures bible.ResolveBook("Jud") == Some(Jude)
    ensures FromStr("jud") == Some(Judges)
  {
    assert Lower("Jud") == "jud";
    assert Lower("jud") == "jud";
    AliasJudIsJude();
  }

  lemma ResolveAliasExamples(bible: Bible)
    ensures bible.ResolveBook("Gen") == Some(Genesis)
    ensures bible.ResolveBook("Exo") == Some(Exodus)
    ensures bible.ResolveBook("1Co") == Some(FirstCorinthians)
    ensures bible.ResolveBook("Rev") == Some(Revelation)
  {
    assert Lower("Gen") == "gen";
    assert Lower("Exo") == "exo";
    assert Lower("1Co") == "1co";
    assert Lower("Rev") == "rev";
    AliasExamples();
    AliasNewTestamentExamples();
  }

  /**
   * A token that is neither an alias nor a code resolves through the first
   * loaded book with that title, and only that one.
   */
  lemma ResolveBookByTitle(bible: Bible, input: string, i: nat)
    requires AltAbbrev(Lower(input)).None? && FromStr(input).None?
    requires i < |bible.books| && EqIgnoreAsciiCase(bible.books[i].title, input)
    requires forall j :: 0 <= j < i ==> !EqIgnoreAsciiCase(bible.books[j].title, input)
    ensures bible.ResolveBook(input) == FromStr(bible.books[i].abbrev)
  {
    LowerIdempotent(bible.books[i].abbrev);
  }

  lemma DigitsAreNotSpace(s: string)
    requires AllDigits(s)
    ensures ' ' !in s && ':' !in s
    ensures s != [] ==> !IsWhitespace(s[0]) && !IsWhitespace(s[|s| - 1])
  {
  }

  /**
   * A reference written as "<token> <chapter>:<verse>" asks for exactly that
   * verse of the book the token resolves to, or fails naming the token.
   */
  lemma ReferenceRoundTrip(bible: Bible, token: string, c: nat, v: nat)
    requires token != [] && !IsWhitespace(token[0]) && !IsWhitespace(token[|token| - 1])
    requires c <= USIZE_MAX && v <= USIZE_MAX
    ensures var reference := token + " " + NatToString(c) + ":" + NatToString(v);
            bible.GetVerseByReference(reference) ==
              match bible.ResolveBook(token)
              case None => Err(bible.ParseError(token))
              case Some(b) => bible.GetVerse(b, c, v)
  {
    SplitReferenceRoundTrip(token, c, v);
    TrimOfTrimmed(token);
  }

  /** "Jn 3:16" asks for John 3:16. */
  lemma ReferenceJohnThreeSixteen(bible: Bible)
    ensures bible.GetVerseByReference("Jn 3:16") == bible.GetVerse(John, 3, 16)
  {
    assert NatToString(3) == "3";
    assert NatToString(16) == "16";
    assert "Jn" + " " + "3" + ":" + "16" == "Jn 3:16";
    ResolveJnIsJohn(bible);
    ReferenceRoundTrip(bible, "Jn", 3, 16);
  }

  lemma GenesisOneIsTrimmed()
    ensures Trim("Genesis 1") == "Genesis 1"
  {
    TrimOfTrimmed("Genesis 1");
  }

  lemma GenesisOneHasNoColon()
    ensures ':' !in "Genesis 1"
  {
  }

  lemma SplitGenesisOne()
    ensures SplitReference("Genesis 1") == Malformed("Genesis 1")
  {
    GenesisOneIsTrimmed();
    GenesisOneHasNoColon();
  }

  /** "Genesis 1" has no verse part: the whole reference is reported as the missing book. */
  lemma ReferenceGenesisOne(bible: Bible)
    ensures bible.GetVerseByReference("Genesis 1") == Err(BookNotFound("genesis 1", "Genesis 1", bible.name))
  {
    SplitGenesisOne();
    LowerGenesisOne();
  }

  lemma LowerGenesisOne()
    ensures Lower("Genesis 1") == "genesis 1"
  {
  }

  lemma UnknownIsTrimmed()
    ensures Trim("Unknown") == "Unknown"
  {
    TrimOfTrimmed("Unknown");
  }

  lemma SplitUnknownOneOne()
    ensures SplitReference("Unknown 1:1") == Parts("Unknown", 1, 1)
  {
    assert NatToString(1) == "1";
    assert "Unknown" + " " + "1" + ":" + "1" == "Unknown 1:1";
    SplitReferenceRoundTrip("Unknown", 1, 1);
  }

  lemma LowerUnknown()
    ensures Lower("Unknown") == "unknown"
  {
  }

  lemma ResolveUnknown(bible: Bible)
    requires forall i :: 0 <= i < |bible.books| ==> !EqIgnoreAsciiCase(bible.books[i].title, "Unknown")
    ensures bible.ResolveBook("Unknown") == None
  {
    LowerUnknown();
    assert AltAbbrev("unknown") == None;
    assert FromStr("Unknown") == None;
  }

  /** An unknown book token is reported as it was written. */
  lemma ReferenceUnknownBook(bible: Bible)
    requires forall i :: 0 <= i < |bible.books| ==> !EqIgnoreAsciiCase(bible.books[i].title, "Unknown")
    ensures bible.GetVerseByReference("Unknown 1:1") == Err(BookNotFound("unknown", "Unknown", bible.name))
  {
    SplitUnknownOneOne();
    ResolveUnknown(bible);
    UnknownIsTrimmed();
    LowerUnknown();
  }

  /**
   * Searching a corpus finds exactly the locations at which every term of
   * the query occurs, given that the query has a term at all.
   */
  lemma SearchFindsOccurrences(books: seq<Book>, query: string, x: Location)
    ensures x in IndexOf(books).SearchSpec(query) <==>
              Tokenize(query) != [] && forall t :: t in Tokenize(query) ==> CorpusHas(books, t, x)
  {
    var si := IndexOf(books);
    SearchMembership(si, query, x);
    forall t | t in Tokenize(query)
      ensures (t in si.index && x in si.index[t]) <==> CorpusHas(books, t, x)
    {
      IndexMembership(books, t, x);
    }
  }
}
