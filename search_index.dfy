/**
 * The inverted search index: normalised terms mapped to the locations of
 * the verses that contain them, and the conjunctive query over it.
 */
module SearchIndexes {
  import opened Wrappers
  import opened AsciiText
  import opened BibleBooks

  /** A verse location: book, chapter number and verse number. */
  datatype Location = Location(book: BibleBook, chapter: nat, verse: nat)

  // ---------------------------------------------------------------------
  // Order: the sort key (book as usize, chapter, verse), lexicographically
  // ---------------------------------------------------------------------

  predicate Le(a: Location, b: Location) {
    var ka, kb := Ordinal(a.book), Ordinal(b.book);
    ka < kb || (ka == kb && (a.chapter < b.chapter || (a.chapter == b.chapter && a.verse <= b.verse)))
  }

  /** The strict order of the sort key. */
  predicate Lt(a: Location, b: Location) {
    var ka, kb := Ordinal(a.book), Ordinal(b.book);
    ka < kb || (ka == kb && (a.chapter < b.chapter || (a.chapter == b.chapter && a.verse < b.verse)))
  }

  lemma LeTotal(a: Location, b: Location)
    ensures Le(a, b) || Le(b, a)
  {
  }

  lemma LeTransitive(a: Location, b: Location, c: Location)
    requires Le(a, b) && Le(b, c)
    ensures Le(a, c)
  {
  }

  /** The key is injective, so the order is antisymmetric: equal keys mean equal locations. */
  lemma LeAntisymmetric(a: Location, b: Location)
    requires Le(a, b) && Le(b, a)
    ensures a == b
  {
    OrdinalInjective(a.book, b.book);
  }

  /** Strictly below in key order is the same as below and distinct. */
  lemma LtIsLeAndDistinct(a: Location, b: Location)
    ensures Lt(a, b) <==> Le(a, b) && a != b
  {
    if Ordinal(a.book) == Ordinal(b.book) {
      OrdinalInjective(a.book, b.book);
    }
  }

  predicate Sorted(s: seq<Location>) {
    forall i, j :: 0 <= i < j < |s| ==> Le(s[i], s[j])
  }

  predicate StrictlySorted(s: seq<Location>) {
    forall i, j :: 0 <= i < j < |s| ==> Lt(s[i], s[j])
  }

  // ---------------------------------------------------------------------
  // Tokenizing: split on every character that is not ASCII alphanumeric,
  // drop the empty pieces, lower-case the rest
  // ---------------------------------------------------------------------

  predicate IsSeparator(c: char) {
    !IsAsciiAlphanumeric(c)
  }

  predicate IsWord(w: string) {
    forall j :: 0 <= j < |w| ==> IsAsciiAlphanumeric(w[j])
  }

  /** A term of the index: a non-empty run of lower-case ASCII letters and digits. */
  predicate IsTerm(t: string) {
    t != [] && IsWord(t) && NoAsciiUpper(t)
  }

  /**
   * `str::split` with a character predicate: the pieces between separators,
   * empty ones included, so there is always at least one piece.
   */
  function Split(s: string): (parts: seq<string>)
    ensures |parts| >= 1
    ensures forall i :: 0 <= i < |parts| ==> IsWord(parts[i])
  {
    if s == [] then [""]
    else if IsSeparator(s[0]) then [""] + Split(s[1..])
    else Prepend(s[0], Split(s[1..]))
  }

  /** A word character joins the front of the first piece. */
  function Prepend(c: char, parts: seq<string>): (r: seq<string>)
    requires |parts| >= 1
    ensures |r| == |parts| && r[0] == [c] + parts[0] && r[1..] == parts[1..]
  {
    [[c] + parts[0]] + parts[1..]
  }

  /** `filter(|s| !s.is_empty())`. */
  function NonEmpty(parts: seq<string>): (r: seq<string>)
    ensures forall i :: 0 <= i < |r| ==> r[i] != [] && r[i] in parts
  {
    if parts == [] then []
    else (if parts[0] == [] then [] else [parts[0]]) + NonEmpty(parts[1..])
  }

  /** `map(|s| s.to_ascii_lowercase())`. */
  function LowerAll(parts: seq<string>): (r: seq<string>)
    ensures |r| == |parts|
    ensures forall i :: 0 <= i < |parts| ==> r[i] == Lower(parts[i])
  {
    seq(|parts|, i requires 0 <= i < |parts| => Lower(parts[i]))
  }

  /** `SearchIndex::tokenize`. */
  function Tokenize(text: string): seq<string> {
    LowerAll(NonEmpty(Split(text)))
  }

  /** Every token is a term: non-empty, alphanumeric, lower-case. */
  lemma TokensAreTerms(text: string)
    ensures forall i :: 0 <= i < |Tokenize(text)| ==> IsTerm(Tokenize(text)[i])
  {
    var parts := NonEmpty(Split(text));
    forall i | 0 <= i < |parts|
      ensures IsTerm(Lower(parts[i]))
    {
      LowerHasNoUpper(parts[i]);
      assert IsWord(parts[i]);
    }
  }

  lemma {:induction false} SplitOfWord(w: string)
    requires IsWord(w)
    ensures Split(w) == [w]
    decreases |w|
  {
    if w != [] {
      SplitOfWord(w[1..]);
      assert [w[0]] + w[1..] == w;
    }
  }

  /** A single word, separators or not around it, is one lower-cased term. */
  lemma TokenizeWord(w: string)
    requires w != [] && IsWord(w)
    ensures Tokenize(w) == [Lower(w)]
  {
    SplitOfWord(w);
    assert NonEmpty([w]) == [w] by {
      assert [w][1..] == [];
    }
  }

  lemma {:induction false} SplitAcrossSeparator(a: string, c: char, b: string)
    requires IsSeparator(c)
    ensures Split(a + [c] + b) == Split(a) + Split(b)
    decreases |a|
  {
    var s := a + [c] + b;
    if a == [] {
      assert s[1..] == b;
    } else {
      assert s[0] == a[0] && s[1..] == a[1..] + [c] + b;
      SplitAcrossSeparator(a[1..], c, b);
      if !IsSeparator(a[0]) {
        var p, q := Split(a[1..]), Split(b);
        assert Prepend(a[0], p + q) == Prepend(a[0], p) + q;
      }
    }
  }

  lemma {:induction false} NonEmptyAppend(p: seq<string>, q: seq<string>)
    ensures NonEmpty(p + q) == NonEmpty(p) + NonEmpty(q)
    decreases |p|
  {
    if p == [] {
      assert p + q == q;
    } else {
      NonEmptyAppend(p[1..], q);
      assert (p + q)[1..] == p[1..] + q;
    }
  }

  /** A separator cuts a text into two texts tokenized independently. */
  lemma TokenizeAcrossSeparator(a: string, c: char, b: string)
    requires IsSeparator(c)
    ensures Tokenize(a + [c] + b) == Tokenize(a) + Tokenize(b)
  {
    SplitAcrossSeparator(a, c, b);
    NonEmptyAppend(Split(a), Split(b));
  }

  lemma LowerCons(c: char, s: string)
    ensures Lower([c] + s) == [LowerChar(c)] + Lower(s)
  {
    LowerAppend([c], s);
  }

  lemma {:induction false} SplitOfLower(s: string)
    ensures Split(Lower(s)) == LowerAll(Split(s))
    decreases |s|
  {
    if s != [] {
      var c, t := s[0], s[1..];
      assert s == [c] + t;
      LowerCons(c, t);
      assert Lower(s)[0] == LowerChar(c) && Lower(s)[1..] == Lower(t);
      assert IsSeparator(LowerChar(c)) == IsSeparator(c);
      SplitOfLower(t);
      var p := Split(t);
      if IsSeparator(c) {
        assert LowerAll([""] + p) == [""] + LowerAll(p);
      } else {
        LowerCons(c, p[0]);
        assert LowerAll(Prepend(c, p)) == Prepend(LowerChar(c), LowerAll(p));
      }
    }
  }

  lemma {:induction false} NonEmptyOfLower(p: seq<string>)
    ensures NonEmpty(LowerAll(p)) == LowerAll(NonEmpty(p))
    decreases |p|
  {
    if p != [] {
      NonEmptyOfLower(p[1..]);
      LowerAllTail(p);
      var h: seq<string> := if p[0] == [] then [] else [p[0]];
      assert NonEmpty(p) == h + NonEmpty(p[1..]);
      LowerAllAppend(h, NonEmpty(p[1..]));
    }
  }

  lemma LowerAllTail(p: seq<string>)
    requires p != []
    ensures LowerAll(p)[1..] == LowerAll(p[1..])
    ensures LowerAll(p)[0] == Lower(p[0]) && (Lower(p[0]) == [] <==> p[0] == [])
  {
  }

  lemma LowerAllAppend(a: seq<string>, b: seq<string>)
    ensures LowerAll(a + b) == LowerAll(a) + LowerAll(b)
  {
  }

  /** Tokenizing ignores ASCII case: a text and its lower-cased form have the same terms. */
  lemma TokenizeIgnoresCase(text: string)
    ensures Tokenize(Lower(text)) == Tokenize(text)
  {
    SplitOfLower(text);
    NonEmptyOfLower(Split(text));
    var p := NonEmpty(Split(text));
    forall i | 0 <= i < |p|
      ensures Lower(Lower(p[i])) == Lower(p[i])
    {
      LowerIdempotent(p[i]);
    }
  }

  // ---------------------------------------------------------------------
  // The standard-library list operations the search uses
  // ---------------------------------------------------------------------

  lemma SortedCons(h: Location, t: seq<Location>)
    requires Sorted(t)
    requires forall y :: y in t ==> Le(h, y)
    ensures Sorted([h] + t)
  {
    var r := [h] + t;
    forall i, j | 0 <= i < j < |r|
      ensures Le(r[i], r[j])
    {
      if i == 0 {
        assert r[j] == t[j - 1] && t[j - 1] in t;
      } else {
        assert r[i] == t[i - 1] && r[j] == t[j - 1];
      }
    }
  }

  lemma SortedHeadBelow(s: seq<Location>)
    requires Sorted(s) && s != []
    ensures forall y :: y in s ==> Le(s[0], y)
  {
    forall y | y in s
      ensures Le(s[0], y)
    {
      var j :| 0 <= j < |s| && s[j] == y;
    }
  }

  function Insert(x: Location, s: seq<Location>): (r: seq<Location>)
    requires Sorted(s)
    ensures Sorted(r)
    ensures multiset(r) == multiset(s) + multiset{x}
    ensures forall y :: y in r <==> y == x || y in s
  {
    if s == [] then [x]
    else if Le(x, s[0]) then
      SortedHeadBelow(s);
      SortedCons(x, s);
      [x] + s
    else
      assert s == [s[0]] + s[1..];
      LeTotal(x, s[0]);
      SortedHeadBelow(s);
      var t := Insert(x, s[1..]);
      SortedCons(s[0], t);
      [s[0]] + t
  }

  /** `sort_by_key(|&(b, c, v)| (b as usize, c, v))`: a sorted permutation. */
  function SortByKey(s: seq<Location>): (r: seq<Location>)
    ensures Sorted(r)
    ensures multiset(r) == multiset(s)
    ensures forall y :: y in r <==> y in s
  {
    if s == [] then []
    else
      assert s == [s[0]] + s[1..];
      Insert(s[0], SortByKey(s[1..]))
  }

  lemma SortedHeadIsStrictMinimum(s: seq<Location>)
    requires Sorted(s) && |s| >= 2 && s[0] != s[1]
    ensures forall y :: y in s[1..] ==> Lt(s[0], y)
  {
    LtIsLeAndDistinct(s[0], s[1]);
    forall y | y in s[1..]
      ensures Lt(s[0], y)
    {
      var j :| 1 <= j < |s| && s[j] == y;
      assert Le(s[1], s[j]);
    }
  }

  /** `dedup`: drops every element equal to the one before it. */
  function Dedup(s: seq<Location>): (r: seq<Location>)
    ensures forall x :: x in r <==> x in s
    ensures |r| <= |s|
    ensures s != [] ==> r != [] && r[0] == s[0]
    ensures forall i :: 0 <= i < |r| - 1 ==> r[i] != r[i + 1]
    ensures Sorted(s) ==> StrictlySorted(r)
    decreases |s|
  {
    if |s| <= 1 then s
    else if s[0] == s[1] then
      assert forall x :: x in s <==> x in s[1..];
      Dedup(s[1..])
    else
      if Sorted(s) then SortedHeadIsStrictMinimum(s); [s[0]] + Dedup(s[1..])
      else [s[0]] + Dedup(s[1..])
  }

  /** `retain(|item| keep.contains(item))`. */
  function Retain(s: seq<Location>, keep: seq<Location>): (r: seq<Location>)
    ensures forall x :: x in r <==> x in s && x in keep
    ensures |r| <= |s|
  {
    if s == [] then []
    else (if s[0] in keep then [s[0]] else []) + Retain(s[1..], keep)
  }

  /** The head of a non-empty sequence is one of its members. */
  lemma FirstIsMember(s: seq<Location>)
    ensures s == [] || s[0] in s
  {
  }

  /** Two strictly sorted sequences with the same elements are the same sequence. */
  lemma {:induction false} StrictlySortedUnique(a: seq<Location>, b: seq<Location>)
    requires StrictlySorted(a) && StrictlySorted(b)
    requires forall x :: x in a <==> x in b
    ensures a == b
    decreases |a|
  {
    FirstIsMember(a);
    FirstIsMember(b);
    if a != [] {
      SameMinimum(a, b);
      SameRest(a, b);
      StrictlySortedUnique(a[1..], b[1..]);
      assert a == [a[0]] + a[1..] && b == [b[0]] + b[1..];
    }
  }

  lemma SameMinimum(a: seq<Location>, b: seq<Location>)
    requires StrictlySorted(a) && StrictlySorted(b) && a != [] && b != []
    requires forall x :: x in a <==> x in b
    ensures a[0] == b[0]
  {
    assert a[0] in b && b[0] in a;
    var j :| 0 <= j < |b| && b[j] == a[0];
    var i :| 0 <= i < |a| && a[i] == b[0];
    assert Le(a[0], a[i]) && Le(b[0], b[j]);
    LeAntisymmetric(a[0], b[0]);
  }

  lemma SameRest(a: seq<Location>, b: seq<Location>)
    requires StrictlySorted(a) && StrictlySorted(b) && a != [] && b != [] && a[0] == b[0]
    requires forall x :: x in a <==> x in b
    ensures forall x :: x in a[1..] <==> x in b[1..]
  {
    forall x
      ensures x in a[1..] ==> x in b[1..]
      ensures x in b[1..] ==> x in a[1..]
    {
      if x in a[1..] {
        AfterHead(a, x);
        InRest(b, x);
      }
      if x in b[1..] {
        AfterHead(b, x);
        InRest(a, x);
      }
    }
  }

  /** In a strictly sorted list, everything after the head is above it. */
  lemma AfterHead(s: seq<Location>, x: Location)
    requires StrictlySorted(s) && s != [] && x in s[1..]
    ensures x in s && Lt(s[0], x)
  {
    var k :| 0 <= k < |s| - 1 && s[1..][k] == x;
    assert s[k + 1] == x;
  }

  lemma InRest(s: seq<Location>, x: Location)
    requires x in s && s != [] && x != s[0]
    ensures x in s[1..]
  {
    var j :| 0 <= j < |s| && s[j] == x;
    assert s[1..][j - 1] == x;
  }

  // ---------------------------------------------------------------------
  // The index and its query
  // ---------------------------------------------------------------------

  datatype SearchIndex = SearchIndex(index: map<string, seq<Location>>) {

    /** The location is listed under every one of the terms. */
    predicate Matches(x: Location, terms: seq<string>) {
      forall t :: t in terms ==> t in index && x in index[t]
    }

    /**
     * What the loop of `search` computes from the first term's list and the
     * remaining terms: `None` as soon as a term is not in the index.
     */
    function RetainAll(results: seq<Location>, terms: seq<string>): Option<seq<Location>>
      decreases |terms|
    {
      if terms == [] then Some(results)
      else if terms[0] !in index then None
      else RetainAll(Retain(results, index[terms[0]]), terms[1..])
    }

    /** The result `search(query)` is specified to return. */
    function SearchSpec(query: string): seq<Location> {
      var terms := Tokenize(query);
      if terms == [] || terms[0] !in index then []
      else match RetainAll(index[terms[0]], terms[1..])
        case None => []
        case Some(rs) => Dedup(SortByKey(rs))
    }

    /** `SearchIndex::search`. */
    method Search(query: string) returns (results: seq<Location>)
      ensures results == SearchSpec(query)
    {
      var terms := Tokenize(query);
      if terms == [] {
        return [];
      }
      var first := terms[0];
      if first !in index {
        return [];
      }
      results := index[first];
      var k := 1;
      while k < |terms|
        invariant 1 <= k <= |terms|
        invariant RetainAll(results, terms[k..]) == RetainAll(index[first], terms[1..])
      {
        var term := terms[k];
        assert terms[k..][0] == term && terms[k..][1..] == terms[k + 1..];
        if term in index {
          results := Retain(results, index[term]);
        } else {
          return [];
        }
        k := k + 1;
      }
      assert terms[k..] == [];
      results := SortByKey(results);
      results := Dedup(results);
    }
  }

  lemma {:induction false} RetainAllMembership(si: SearchIndex, results: seq<Location>, terms: seq<string>)
    ensures si.RetainAll(results, terms).Some? <==> forall t :: t in terms ==> t in si.index
    ensures si.RetainAll(results, terms).Some? ==>
              forall x :: x in si.RetainAll(results, terms).value <==> x in results && si.Matches(x, terms)
    decreases |terms|
  {
    if terms != [] {
      assert forall t :: t in terms <==> t == terms[0] || t in terms[1..];
      if terms[0] in si.index {
        RetainAllMembership(si, Retain(results, si.index[terms[0]]), terms[1..]);
      }
    }
  }

  /**
   * A location is found by a query exactly when the query has at least one
   * term and every term of it is indexed at that location.
   */
  lemma SearchMembership(si: SearchIndex, query: string, x: Location)
    ensures x in si.SearchSpec(query) <==> Tokenize(query) != [] && si.Matches(x, Tokenize(query))
  {
    var terms := Tokenize(query);
    if terms != [] {
      assert forall t :: t in terms <==> t == terms[0] || t in terms[1..];
      if terms[0] in si.index {
        RetainAllMembership(si, si.index[terms[0]], terms[1..]);
      }
    }
  }

  /** Results come in key order with no location twice. */
  lemma SearchStrictlySorted(si: SearchIndex, query: string)
    ensures StrictlySorted(si.SearchSpec(query))
  {
  }

  /** A query whose terms include one the index does not know finds nothing. */
  lemma SearchUnknownTerm(si: SearchIndex, query: string, t: string)
    requires t in Tokenize(query) && t !in si.index
    ensures si.SearchSpec(query) == []
  {
    if si.SearchSpec(query) != [] {
      SearchMembership(si, query, si.SearchSpec(query)[0]);
    }
  }

  /** A query with no term at all (empty, or only separators) finds nothing. */
  lemma SearchNoTerms(si: SearchIndex, query: string)
    requires forall j :: 0 <= j < |query| ==> IsSeparator(query[j])
    ensures si.SearchSpec(query) == []
  {
    if si.SearchSpec(query) != [] {
      SearchMembership(si, query, si.SearchSpec(query)[0]);
      NoTermsWithoutWordCharacters(query);
    }
  }

  lemma {:induction false} NoTermsWithoutWordCharacters(text: string)
    requires forall j :: 0 <= j < |text| ==> IsSeparator(text[j])
    ensures Tokenize(text) == []
    decreases |text|
  {
    if text != [] {
      NoTermsWithoutWordCharacters(text[1..]);
      assert Split(text) == [""] + Split(text[1..]);
      NonEmptyAppend([""], Split(text[1..]));
      assert NonEmpty([""]) == [] by {
        assert [""][1..] == [];
      }
    }
  }

  /** Search ignores ASCII case in the query. */
  lemma SearchIgnoresCase(si: SearchIndex, query: string)
    ensures si.SearchSpec(Lower(query)) == si.SearchSpec(query)
  {
    TokenizeIgnoresCase(query);
  }

  /** The order of the terms in a query, and repeating a term, do not change the result. */
  lemma SearchTermOrderIrrelevant(si: SearchIndex, q1: string, q2: string)
    requires Tokenize(q1) != [] && Tokenize(q2) != []
    requires forall t :: t in Tokenize(q1) <==> t in Tokenize(q2)
    ensures si.SearchSpec(q1) == si.SearchSpec(q2)
  {
    forall x
      ensures x in si.SearchSpec(q1) <==> x in si.SearchSpec(q2)
    {
      SearchMembership(si, q1, x);
      SearchMembership(si, q2, x);
    }
    StrictlySortedUnique(si.SearchSpec(q1), si.SearchSpec(q2));
  }
}
