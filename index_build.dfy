/**
 * What `build_search_index` computes, stated as folds that follow its loops
 * (books, then chapters, then verses, then the terms of each verse), and
 * what the finished index contains.
 */
module IndexBuild {
  import opened Wrappers
  import opened BibleBooks
  import opened Verses
  import opened Chapters
  import opened Books
  import opened SearchIndexes

  /** The term map while it is being filled. */
  type Postings = map<string, seq<Location>>

  predicate Has(m: Postings, t: string, l: Location) {
    t in m && l in m[t]
  }

  predicate NoDup(s: seq<Location>) {
    forall i, j :: 0 <= i < j < |s| ==> s[i] != s[j]
  }

  /** Every list holds at least one location and none twice. */
  predicate PostingsNoDup(m: Postings) {
    forall t :: t in m ==> m[t] != [] && NoDup(m[t])
  }

  /**
   * `map.entry(term).or_insert_with(Vec::new)` followed by a push of the
   * location unless the list already holds it.
   */
  function AddPosting(m: Postings, t: string, l: Location): (r: Postings)
    ensures Has(r, t, l)
    ensures forall t', l' :: Has(r, t', l') <==> Has(m, t', l') || (t' == t && l' == l)
    ensures PostingsNoDup(m) ==> PostingsNoDup(r)
  {
    if t in m && l in m[t] then m
    else
      var list := if t in m then m[t] else [];
      m[t := list + [l]]
  }

  /** The postings of one verse: every term of its text at one location. */
  function AddTerms(m: Postings, terms: seq<string>, l: Location): Postings
    decreases |terms|
  {
    if terms == [] then m
    else AddPosting(AddTerms(m, terms[..|terms| - 1], l), terms[|terms| - 1], l)
  }

  /** The postings of the verses of chapter `c` of book `b`. */
  function AddVerses(m: Postings, verses: seq<Verse>, b: BibleBook, c: nat): Postings
    decreases |verses|
  {
    if verses == [] then m
    else
      var v := verses[|verses| - 1];
      AddTerms(AddVerses(m, verses[..|verses| - 1], b, c), Tokenize(v.text), Location(b, c, v.number))
  }

  /** The postings of the chapters of book `b`, numbered from 1 by position. */
  function AddChapters(m: Postings, chapters: seq<Chapter>, b: BibleBook): Postings
    decreases |chapters|
  {
    if chapters == [] then m
    else
      var n := |chapters|;
      AddVerses(AddChapters(m, chapters[..n - 1], b), chapters[n - 1].verses, b, n)
  }

  /** The postings of the books whose abbreviation is a canonical code; the others are skipped. */
  function AddBooks(m: Postings, books: seq<Book>): Postings
    decreases |books|
  {
    if books == [] then m
    else
      var n := |books|;
      var before := AddBooks(m, books[..n - 1]);
      match FromStr(books[n - 1].abbrev)
      case Some(e) => AddChapters(before, books[n - 1].chapters, e)
      case None => before
  }

  /** Every posting list sorted by key, as the last loop of `build_search_index` leaves it. */
  function SortPostings(m: Postings): (r: Postings)
    ensures r.Keys == m.Keys
    ensures forall t :: t in m ==> r[t] == SortByKey(m[t])
  {
    map t | t in m :: SortByKey(m[t])
  }

  /** The index `build_search_index` returns for these books. */
  function IndexOf(books: seq<Book>): SearchIndex {
    SearchIndex(SortPostings(AddBooks(map[], books)))
  }

  // ---------------------------------------------------------------------
  // Where a term occurs in the corpus
  // ---------------------------------------------------------------------

  predicate VerseHas(v: Verse, b: BibleBook, c: nat, t: string, l: Location) {
    l == Location(b, c, v.number) && t in Tokenize(v.text)
  }

  predicate VersesHave(verses: seq<Verse>, b: BibleBook, c: nat, t: string, l: Location) {
    exists j :: 0 <= j < |verses| && VerseHas(verses[j], b, c, t, l)
  }

  predicate ChaptersHave(chapters: seq<Chapter>, b: BibleBook, t: string, l: Location) {
    exists i :: 0 <= i < |chapters| && VersesHave(chapters[i].verses, b, i + 1, t, l)
  }

  /**
   * Term `t` occurs at `l`: some book with a canonical code for `l.book` has,
   * in its chapter number `l.chapter` (by position), a verse whose number is
   * `l.verse` and whose text has `t` among its terms.
   */
  predicate CorpusHas(books: seq<Book>, t: string, l: Location) {
    exists i :: 0 <= i < |books| && FromStr(books[i].abbrev) == Some(l.book)
                && ChaptersHave(books[i].chapters, l.book, t, l)
  }

  lemma {:induction false} AddTermsHas(m: Postings, terms: seq<string>, l: Location, t': string, l': Location)
    ensures Has(AddTerms(m, terms, l), t', l') <==> Has(m, t', l') || (t' in terms && l' == l)
    decreases |terms|
  {
    if terms != [] {
      var init := terms[..|terms| - 1];
      AddTermsHas(m, init, l, t', l');
      assert terms == init + [terms[|terms| - 1]];
    }
  }

  lemma {:induction false} AddVersesHas(m: Postings, verses: seq<Verse>, b: BibleBook, c: nat, t: string, l: Location)
    ensures Has(AddVerses(m, verses, b, c), t, l) <==> Has(m, t, l) || VersesHave(verses, b, c, t, l)
    decreases |verses|
  {
    if verses != [] {
      var n := |verses|;
      var init, v := verses[..n - 1], verses[n - 1];
      AddVersesHas(m, init, b, c, t, l);
      AddTermsHas(AddVerses(m, init, b, c), Tokenize(v.text), Location(b, c, v.number), t, l);
      VersesSplit(verses, b, c, t, l);
    }
  }

  lemma VersesSplit(verses: seq<Verse>, b: BibleBook, c: nat, t: string, l: Location)
    requires verses != []
    ensures var n := |verses|;
            VersesHave(verses, b, c, t, l) <==>
              VersesHave(verses[..n - 1], b, c, t, l) || VerseHas(verses[n - 1], b, c, t, l)
  {
    var n := |verses|;
    if VersesHave(verses[..n - 1], b, c, t, l) {
      VersesHaveGrow(verses, b, c, t, l);
    }
    if VerseHas(verses[n - 1], b, c, t, l) {
      VersesHaveLast(verses, b, c, t, l);
    }
    if VersesHave(verses, b, c, t, l) {
      VersesHaveCases(verses, b, c, t, l);
    }
  }

  lemma VersesHaveGrow(verses: seq<Verse>, b: BibleBook, c: nat, t: string, l: Location)
    requires verses != [] && VersesHave(verses[..|verses| - 1], b, c, t, l)
    ensures VersesHave(verses, b, c, t, l)
  {
    var j :| 0 <= j < |verses| - 1 && VerseHas(verses[..|verses| - 1][j], b, c, t, l);
    assert verses[..|verses| - 1][j] == verses[j];
  }

  lemma VersesHaveLast(verses: seq<Verse>, b: BibleBook, c: nat, t: string, l: Location)
    requires verses != [] && VerseHas(verses[|verses| - 1], b, c, t, l)
    ensures VersesHave(verses, b, c, t, l)
  {
    var j := |verses| - 1;
    assert 0 <= j < |verses| && VerseHas(verses[j], b, c, t, l);
  }

  lemma VersesHaveCases(verses: seq<Verse>, b: BibleBook, c: nat, t: string, l: Location)
    requires verses != [] && VersesHave(verses, b, c, t, l)
    ensures VersesHave(verses[..|verses| - 1], b, c, t, l) || VerseHas(verses[|verses| - 1], b, c, t, l)
  {
    var j :| 0 <= j < |verses| && VerseHas(verses[j], b, c, t, l);
    if j < |verses| - 1 {
      assert verses[..|verses| - 1][j] == verses[j];
    }
  }

  lemma {:induction false} AddChaptersHas(m: Postings, chapters: seq<Chapter>, b: BibleBook, t: string, l: Location)
    ensures Has(AddChapters(m, chapters, b), t, l) <==> Has(m, t, l) || ChaptersHave(chapters, b, t, l)
    decreases |chapters|
  {
    if chapters != [] {
      var n := |chapters|;
      var init := chapters[..n - 1];
      AddChaptersHas(m, init, b, t, l);
      AddVersesHas(AddChapters(m, init, b), chapters[n - 1].verses, b, n, t, l);
      ChaptersSplit(chapters, b, t, l);
    }
  }

  lemma ChaptersSplit(chapters: seq<Chapter>, b: BibleBook, t: string, l: Location)
    requires chapters != []
    ensures var n := |chapters|;
            ChaptersHave(chapters, b, t, l) <==>
              ChaptersHave(chapters[..n - 1], b, t, l) || VersesHave(chapters[n - 1].verses, b, n, t, l)
  {
    var n := |chapters|;
    if ChaptersHave(chapters[..n - 1], b, t, l) {
      ChaptersHaveGrow(chapters, b, t, l);
    }
    if VersesHave(chapters[n - 1].verses, b, n, t, l) {
      ChaptersHaveLast(chapters, b, t, l);
    }
    if ChaptersHave(chapters, b, t, l) {
      ChaptersHaveCases(chapters, b, t, l);
    }
  }

  lemma ChaptersHaveGrow(chapters: seq<Chapter>, b: BibleBook, t: string, l: Location)
    requires chapters != [] && ChaptersHave(chapters[..|chapters| - 1], b, t, l)
    ensures ChaptersHave(chapters, b, t, l)
  {
    var i :| 0 <= i < |chapters| - 1 && VersesHave(chapters[..|chapters| - 1][i].verses, b, i + 1, t, l);
    assert chapters[..|chapters| - 1][i] == chapters[i];
  }

  lemma ChaptersHaveLast(chapters: seq<Chapter>, b: BibleBook, t: string, l: Location)
    requires chapters != [] && VersesHave(chapters[|chapters| - 1].verses, b, |chapters|, t, l)
    ensures ChaptersHave(chapters, b, t, l)
  {
    var i := |chapters| - 1;
    assert 0 <= i < |chapters| && VersesHave(chapters[i].verses, b, i + 1, t, l);
  }

  lemma ChaptersHaveCases(chapters: seq<Chapter>, b: BibleBook, t: string, l: Location)
    requires chapters != [] && ChaptersHave(chapters, b, t, l)
    ensures ChaptersHave(chapters[..|chapters| - 1], b, t, l)
            || VersesHave(chapters[|chapters| - 1].verses, b, |chapters|, t, l)
  {
    var i :| 0 <= i < |chapters| && VersesHave(chapters[i].verses, b, i + 1, t, l);
    if i < |chapters| - 1 {
      assert chapters[..|chapters| - 1][i] == chapters[i];
    }
  }

  lemma VersesHaveBook(verses: seq<Verse>, b: BibleBook, c: nat, t: string, l: Location)
    requires VersesHave(verses, b, c, t, l)
    ensures l.book == b
  {
  }

  lemma ChaptersHaveBook(chapters: seq<Chapter>, b: BibleBook, t: string, l: Location)
    requires ChaptersHave(chapters, b, t, l)
    ensures l.book == b
  {
    var i :| 0 <= i < |chapters| && VersesHave(chapters[i].verses, b, i + 1, t, l);
    VersesHaveBook(chapters[i].verses, b, i + 1, t, l);
  }

  lemma {:induction false} AddBooksHas(m: Postings, books: seq<Book>, t: string, l: Location)
    ensures Has(AddBooks(m, books), t, l) <==> Has(m, t, l) || CorpusHas(books, t, l)
    decreases |books|
  {
    if books != [] {
      var n := |books|;
      var init, bk := books[..n - 1], books[n - 1];
      AddBooksHas(m, init, t, l);
      var before := AddBooks(m, init);
      match FromStr(bk.abbrev)
      case Some(e) =>
        AddChaptersHas(before, bk.chapters, e, t, l);
        if ChaptersHave(bk.chapters, e, t, l) {
          ChaptersHaveBook(bk.chapters, e, t, l);
          assert FromStr(books[n - 1].abbrev) == Some(l.book);
        }
        BooksSplit(books, t, l);
      case None =>
        BooksSplit(books, t, l);
    }
  }

  /** Occurrence in a list of books is occurrence in all but the last, or in the last. */
  lemma BooksSplit(books: seq<Book>, t: string, l: Location)
    requires books != []
    ensures var n := |books|;
            CorpusHas(books, t, l) <==>
              CorpusHas(books[..n - 1], t, l)
              || (FromStr(books[n - 1].abbrev) == Some(l.book) && ChaptersHave(books[n - 1].chapters, l.book, t, l))
  {
    var n := |books|;
    if CorpusHas(books[..n - 1], t, l) {
      var i :| 0 <= i < n - 1 && FromStr(books[..n - 1][i].abbrev) == Some(l.book)
               && ChaptersHave(books[..n - 1][i].chapters, l.book, t, l);
      assert books[..n - 1][i] == books[i];
    }
    if CorpusHas(books, t, l) {
      BooksHaveCases(books, t, l);
    }
  }

  lemma BooksHaveCases(books: seq<Book>, t: string, l: Location)
    requires books != [] && CorpusHas(books, t, l)
    ensures var n := |books|;
            CorpusHas(books[..n - 1], t, l)
            || (FromStr(books[n - 1].abbrev) == Some(l.book) && ChaptersHave(books[n - 1].chapters, l.book, t, l))
  {
    var n := |books|;
    var i :| 0 <= i < n && FromStr(books[i].abbrev) == Some(l.book)
             && ChaptersHave(books[i].chapters, l.book, t, l);
    if i < n - 1 {
      assert books[..n - 1][i] == books[i];
    }
  }

  /**
   * The built index lists `l` under `t` exactly when `t` occurs at `l` in
   * the corpus: no posting is invented and none is lost.
   */
  lemma IndexMembership(books: seq<Book>, t: string, l: Location)
    ensures (t in IndexOf(books).index && l in IndexOf(books).index[t]) <==> CorpusHas(books, t, l)
  {
    AddBooksHas(map[], books, t, l);
  }

  // ---------------------------------------------------------------------
  // Shape of the posting lists
  // ---------------------------------------------------------------------

  lemma {:induction false} AddTermsNoDup(m: Postings, terms: seq<string>, l: Location)
    requires PostingsNoDup(m)
    ensures PostingsNoDup(AddTerms(m, terms, l))
    decreases |terms|
  {
    if terms != [] {
      AddTermsNoDup(m, terms[..|terms| - 1], l);
    }
  }

  lemma {:induction false} AddVersesNoDup(m: Postings, verses: seq<Verse>, b: BibleBook, c: nat)
    requires PostingsNoDup(m)
    ensures PostingsNoDup(AddVerses(m, verses, b, c))
    decreases |verses|
  {
    if verses != [] {
      var n := |verses|;
      AddVersesNoDup(m, verses[..n - 1], b, c);
      AddTermsNoDup(AddVerses(m, verses[..n - 1], b, c), Tokenize(verses[n - 1].text),
                    Location(b, c, verses[n - 1].number));
    }
  }

  lemma {:induction false} AddChaptersNoDup(m: Postings, chapters: seq<Chapter>, b: BibleBook)
    requires PostingsNoDup(m)
    ensures PostingsNoDup(AddChapters(m, chapters, b))
    decreases |chapters|
  {
    if chapters != [] {
      var n := |chapters|;
      AddChaptersNoDup(m, chapters[..n - 1], b);
      AddVersesNoDup(AddChapters(m, chapters[..n - 1], b), chapters[n - 1].verses, b, n);
    }
  }

  lemma {:induction false} AddBooksNoDup(m: Postings, books: seq<Book>)
    requires PostingsNoDup(m)
    ensures PostingsNoDup(AddBooks(m, books))
    decreases |books|
  {
    if books != [] {
      var n := |books|;
      AddBooksNoDup(m, books[..n - 1]);
      match FromStr(books[n - 1].abbrev)
      case Some(e) => AddChaptersNoDup(AddBooks(m, books[..n - 1]), books[n - 1].chapters, e);
      case None =>
    }
  }

  /** Every posting list of the built index is in key order and lists no location twice. */
  lemma IndexPostingsStrictlySorted(books: seq<Book>, t: string)
    requires t in IndexOf(books).index
    ensures StrictlySorted(IndexOf(books).index[t])
  {
    var m := AddBooks(map[], books);
    AddBooksNoDup(map[], books);
    SortedNoDupIsStrict(SortByKey(m[t]), m[t]);
  }

  lemma SortedNoDupIsStrict(s: seq<Location>, original: seq<Location>)
    requires Sorted(s) && multiset(s) == multiset(original) && NoDup(original)
    ensures StrictlySorted(s)
  {
    forall i, j | 0 <= i < j < |s|
      ensures Lt(s[i], s[j])
    {
      LtIsLeAndDistinct(s[i], s[j]);
      if s[i] == s[j] {
        TwoCopies(s, i, j);
        NoDupAtMostOnce(original, s[i]);
      }
    }
  }

  lemma TwoCopies(s: seq<Location>, i: nat, j: nat)
    requires i < j < |s| && s[i] == s[j]
    ensures multiset(s)[s[i]] >= 2
  {
    var x := s[i];
    assert s == s[..i] + [x] + s[i + 1..j] + [x] + s[j + 1..];
  }

  lemma {:induction false} NoDupAtMostOnce(s: seq<Location>, x: Location)
    requires NoDup(s)
    ensures multiset(s)[x] <= 1
    decreases |s|
  {
    if s != [] {
      NoDupAtMostOnce(s[1..], x);
      assert s == [s[0]] + s[1..];
      if s[0] == x {
        assert x !in s[1..];
      }
    }
  }

  /** Every key of the built index is a term: non-empty, alphanumeric, lower-case. */
  lemma IndexKeysAreTerms(books: seq<Book>, t: string)
    requires t in IndexOf(books).index
    ensures IsTerm(t)
  {
    AddBooksNoDup(map[], books);
    var l := IndexOf(books).index[t][0];
    IndexMembership(books, t, l);
    var i :| 0 <= i < |books| && FromStr(books[i].abbrev) == Some(l.book)
             && ChaptersHave(books[i].chapters, l.book, t, l);
    ChaptersHaveTerm(books[i].chapters, l.book, t, l);
  }

  lemma ChaptersHaveTerm(chapters: seq<Chapter>, b: BibleBook, t: string, l: Location)
    requires ChaptersHave(chapters, b, t, l)
    ensures IsTerm(t)
  {
    var ci :| 0 <= ci < |chapters| && VersesHave(chapters[ci].verses, b, ci + 1, t, l);
    var vs := chapters[ci].verses;
    var j :| 0 <= j < |vs| && VerseHas(vs[j], b, ci + 1, t, l);
    TokensAreTerms(vs[j].text);
    var k :| 0 <= k < |Tokenize(vs[j].text)| && Tokenize(vs[j].text)[k] == t;
  }
}
