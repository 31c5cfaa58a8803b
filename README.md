# bible-io in Dafny

This is a Dafny model of the core of `bible-io`, an in-memory Bible corpus library written in Rust. It models:

- the 83 canonical books (`BibleBook`), their lower-case codes and their display names;
- verses, chapters and books, with their positional, bounds-checked lookups and their typed errors (`BibleError`);
- the `Bible` itself:
  - built from an already-parsed, ordered map of books;
  - book lookup by code or abbreviation;
  - the reference parser ("Jn 3:16") with its three-stage book resolution: alias table, then canonical code, then loaded title;
- full-text search:
  - the ASCII tokenizer;
  - construction of the inverted index;
  - AND-queries;
  - the lazily built, cached index held by the `Bible`.

Value types (`BibleBook`, `Verse`, `Chapter`, `Book`, `SearchIndex`, `BibleError`) are datatypes. `Bible` is a class:

- its loaded content is `const`;
- its only mutable field is the cached `searchIndex`;
- `Search` changes that field and is proved to keep the invariant `Valid()`: the cache is absent or equals the index of the loaded books.

Three things in the source are loops that fill collections: building a `Bible`, building the search index, and the retain loop of `SearchIndex::search`. Each is a method with loop invariants, proved against a specification function, and the properties are proved about those functions. The Rust standard-library calls `sort_by_key`, `dedup` and `retain` become recursive functions with proved contracts.

Files and modules:

| file | module | models |
|---|---|---|
| `wrappers.dfy` | `Wrappers` | `Option` |
| `ascii_text.dfy` | `AsciiText` | ASCII case folding, `trim`, `rsplit_once` |
| `decimal.dfy` | `Decimal` | decimal display of numbers, `str::parse::<usize>` |
| `bible_books_enum.dfy` | `BibleBooks` | `BibleBook`, `as_str`, `from_str`, `Display`, `full_name` |
| `bible_error.dfy` | `BibleErrors` | `BibleError`, `Result` |
| `verse.dfy`, `chapter.dfy`, `book.dfy` | `Verses`, `Chapters`, `Books` | the corpus values and their lookups |
| `search_index.dfy` | `SearchIndexes` | locations and their order, `tokenize`, `SearchIndex::search` |
| `bible_aliases.dfy` | `Aliases` | the alternative abbreviation table of `resolve_book` |
| `index_build.dfy` | `IndexBuild` | what `build_search_index` computes, and what the index contains |
| `bible.dfy` | `Bibles` | `Bible`: construction, lookups, references, index building, cached search |

## Model

| member | source | states |
|---|---|---|
| AsciiText.Lower | src/bible_books_enum.rs:207 | ASCII lower-casing, one character at a time; `LowerHasNoUpper`, `LowerIdempotent` and `LowerAppend` state its properties |
| AsciiText.LowerIdempotent | src/bible_books_enum.rs:207 | ASCII lower-casing a lower-cased string changes nothing |
| AsciiText.Trim | src/bible.rs:186 | `trim` returns the infix of its input left after removing only white space at both ends, and that infix has no white space at either end |
| AsciiText.TrimOfTrimmed | src/bible.rs:186 | `trim` leaves a string alone when neither end is white space |
| AsciiText.RSplitOnce | src/bible.rs:189-191 | `rsplit_once` fails exactly when the separator is absent; otherwise the string is before + sep + after and `after` holds no separator |
| AsciiText.RSplitOnceAt | src/bible.rs:199-201 | the split is at the last separator: splitting before + sep + after (no sep in after) gives back (before, after) |
| Decimal.NatToString | src/verse.rs:39 | a number displays as a non-empty digit string without leading zeros |
| Decimal.ParseUsize | src/bible.rs:192-195 | parsing succeeds exactly for an optional '+', then one or more digits, with a value at most `usize::MAX` |
| Decimal.ParseNatToString | src/bible.rs:192-195 | parsing the display form of any `usize` gives the number back |
| BibleBooks.Ordinal | src/bible_books_enum.rs:8-94 | the position of a book in the declaration order; `BookAtOrdinal` and `OrdinalInjective` state that it identifies the book |
| BibleBooks.AsStr | src/bible_books_enum.rs:99-190 | the code of each book; `CodeIsLowercase`, `AsStrInjective` and `FromStrAsStr` state its properties |
| BibleBooks.FromStr | src/bible_books_enum.rs:206-304 | the code table applied to the lower-cased input; `FromStrCharacterized` states exactly what it accepts |
| BibleBooks.FullName | tests/full_name_tests.rs:20-108 | the full name of each of the 83 books, as the full-name test lists them |
| BibleBooks.BookAtOrdinal | src/bible_books_enum.rs:8-94 | the declaration-order ordinal identifies the book |
| BibleBooks.OrdinalInjective | src/bible_books_enum.rs:8-94 | two books with the same ordinal are the same book, so sorting by ordinal is sorting by book |
| BibleBooks.CodeIsLowercase | src/bible_books_enum.rs:99-190 | every code has no ASCII upper-case letter |
| BibleBooks.FromCodeAsStr | src/bible_books_enum.rs:210-298 | the code table maps every book's code back to that book |
| BibleBooks.FromCodeOnlyCodes | src/bible_books_enum.rs:210-300 | the code table accepts nothing but the 83 codes: a hit is the code of the book it returns |
| BibleBooks.FromStrAsStr | src/bible_books_enum.rs:206-304 | `from_str(b.as_str())` is `b` for every book |
| BibleBooks.FromStrCharacterized | src/bible_books_enum.rs:206-304 | `from_str(s)` is `b` exactly when `s` lower-cases to `b`'s code, in both directions |
| BibleBooks.FromStrIgnoresCase | src/bible_books_enum.rs:207 | strings equal up to ASCII case parse alike |
| BibleBooks.AsStrInjective | src/bible_books_enum.rs:99-190 | no two books share a code |
| BibleBooks.Display | src/bible_books_enum.rs:193-197 | the display form is the code and parses back to the book |
| BibleBooks.FromStrUpperCaseExample | src/bible_books_enum.rs:316 | "JO" parses to John |
| BibleBooks.FromStrRejectsEmpty | src/bible_books_enum.rs:360 | "" is rejected |
| BibleBooks.FromStrRejectsXyz | src/bible_books_enum.rs:331 | "xyz" is rejected |
| BibleBooks.FromStrRejectsInvalid | src/bible_books_enum.rs:359 | "invalid" is rejected |
| BibleBooks.FixedCodesJonahJohn | src/bible_books_enum.rs:133-144 | Jonah is "jn" and John is "jo" |
| BibleBooks.FixedCodesJudgesJude | src/bible_books_enum.rs:108-166 | Judges is "jud" and Jude is "jd" |
| BibleBooks.FixedCodesFirstKingsPsalm151 | src/bible_books_enum.rs:112-186 | FirstKings is "1kgs" and Psalm151 is "ps151" |
| BibleBooks.FullNameCanonicalExamples | tests/full_name_tests.rs:5-7 | the full names of Genesis, Psalms and Revelation |
| BibleBooks.FullNameTobitExample | tests/full_name_tests.rs:8 | the full name of Tobit |
| BibleBooks.FullNameBelExample | tests/full_name_tests.rs:9-12 | DanielBelAndTheDragon is "Daniel (Bel and the Dragon)" |
| BibleBooks.FullNameFourthMaccabeesExample | tests/full_name_tests.rs:13 | FourthMaccabees is "4 Maccabees" |
| Verses.Verse.New | src/verse.rs:19-34 | the verse's text and number are the ones given |
| Verses.Verse.Display | src/verse.rs:37-41 | the display form is the decimal number, ": ", then the text |
| Verses.DisplayNumberParses | src/verse.rs:37-41 | the number can be read back from the front of the display form |
| Verses.DisplayExample | src/verse.rs:49-52 | verse 1 "Test" displays as "1: Test" |
| Chapters.Chapter.New | src/chapter.rs:21-40 | the chapter's verses and number are the ones given |
| Chapters.Chapter.GetVerse | src/chapter.rs:51-56 | positional lookup: `n` is found exactly when 1 <= n <= the verse count, and the result is `verses[n-1]`, whatever its stored number |
| Chapters.Chapter.Display | src/chapter.rs:59-68 | the heading "Chapter n:" then one line per verse; `DisplayAppendVerse` and `DisplaySingleVerse` state the line structure |
| Chapters.VerseLines | src/chapter.rs:61-66 | one display line per verse, in order |
| Chapters.GetVerseFindsNumber | src/chapter.rs:51-56 | when verses are numbered by position, the lookup of `n` returns the verse numbered `n`, and finds every stored number |
| Chapters.DisplayAppendVerse | src/chapter.rs:59-68 | appending a verse appends a newline and that verse's display form |
| Chapters.DisplaySingleVerse | src/chapter.rs:67 | a one-verse chapter displays as "Chapter n:\n" then the verse |
| Books.Book.New | src/book.rs:23-29 | the stored abbreviation is the given one lower-cased; title and chapters are unchanged |
| Books.Book.GetChapter | src/book.rs:55-72 | succeeds exactly for 1 <= n <= the chapter count, with `chapters[n-1]`; otherwise ChapterOutOfBounds naming the book, `n` and the chapter count |
| Books.Book.GetVerses | src/book.rs:83-85 | the chosen chapter's verses, or exactly `get_chapter`'s error |
| Books.Book.GetVerse | src/book.rs:97-112 | succeeds exactly when both numbers are in range; a chapter error passes unchanged; a verse miss is VerseOutOfBounds with the chapter's verse count |
| Books.Book.Display | src/book.rs:115-119 | "Book: ", the title, then the abbreviation in parentheses; `BookDisplayExample` pins the form |
| Books.GetVerseAddresses | src/book.rs:97-112 | in a well-numbered book, the verse found at (c, v) is numbered v, in the chapter numbered c |
| Books.ErrorsNameTheBook | src/book.rs:56-111 | every lookup error carries the book's own abbreviation and title |
| Books.NewExample | src/book.rs:132-138 | "GN" is stored as "gn"; chapter 1 is found and chapter 0 is not |
| Books.BookDisplayExample | src/book.rs:115-119 | the display form is "Book: Genesis (gn)" |
| SearchIndexes.LeTotal | src/search_index.rs:47 | the (ordinal, chapter, verse) order is total |
| SearchIndexes.LeTransitive | src/search_index.rs:47 | the order is transitive |
| SearchIndexes.LeAntisymmetric | src/search_index.rs:47 | the order is antisymmetric, so it is an order on locations |
| SearchIndexes.Split | src/search_index.rs:19 | splitting yields at least one part, and no part holds a separator |
| SearchIndexes.Tokenize | src/search_index.rs:18-23 | split at every non-alphanumeric character, drop empty pieces, lower-case; `TokensAreTerms`, `TokenizeWord`, `TokenizeAcrossSeparator` and `TokenizeIgnoresCase` state its properties |
| SearchIndexes.TokensAreTerms | src/search_index.rs:18-22 | every token is non-empty, ASCII alphanumeric and lower-case |
| SearchIndexes.TokenizeWord | src/search_index.rs:18-22 | a single alphanumeric word is the single token of its lower-cased form |
| SearchIndexes.TokenizeAcrossSeparator | src/search_index.rs:19 | any non-alphanumeric character separates: the tokens of a + c + b are those of a, then those of b |
| SearchIndexes.TokenizeIgnoresCase | src/search_index.rs:21 | a text and its lower-cased form have the same tokens |
| SearchIndexes.SortByKey | src/search_index.rs:47 | the result is sorted by (ordinal, chapter, verse) and is a permutation of the input |
| SearchIndexes.Dedup | src/search_index.rs:48 | keeps the same members and the head, drops adjacent duplicates, and a sorted input becomes strictly sorted |
| SearchIndexes.Retain | src/search_index.rs:41 | keeps exactly the members found in the other list |
| SearchIndexes.StrictlySortedUnique | src/search_index.rs:47-48 | two strictly sorted lists with the same members are equal |
| SearchIndexes.SearchIndex.SearchSpec | src/search_index.rs:26-50 | the search result as a function of the query; `SearchMembership` and `SearchStrictlySorted` state what it contains and its order |
| SearchIndexes.SearchIndex.Search | src/search_index.rs:26-50 | the retain loop computes the search specification |
| SearchIndexes.RetainAllMembership | src/search_index.rs:39-45 | after the loop, a location survives exactly when every remaining term lists it |
| SearchIndexes.SearchMembership | src/search_index.rs:26-50 | a location is found exactly when the query has a term and every term's list holds it |
| SearchIndexes.SearchStrictlySorted | src/search_index.rs:47-49 | results are sorted by (ordinal, chapter, verse) and hold no duplicate |
| SearchIndexes.SearchUnknownTerm | src/search_index.rs:34-44 | a query term missing from the index makes the result empty |
| SearchIndexes.SearchNoTerms | src/search_index.rs:27-30 | a query with no alphanumeric character finds nothing |
| SearchIndexes.SearchIgnoresCase | tests/search_tests.rs:38-42 | a query and its lower-cased form find the same locations |
| SearchIndexes.SearchTermOrderIrrelevant | src/search_index.rs:39-45 | queries with the same set of terms find the same locations |
| Aliases.AliasJnIsJohn | src/bible.rs:349 | the alias "jn" is John, although the code "jn" is Jonah |
| Aliases.AliasJudIsJude | src/bible.rs:387 | the alias "jud" is Jude, although the code "jud" is Judges |
| Aliases.AliasExamples | src/bible.rs:272-274 | "gen" is Genesis and "exo" is Exodus |
| Aliases.AliasNewTestamentExamples | src/bible.rs:353-389 | "1co" is FirstCorinthians and "rev" is Revelation |
| IndexBuild.AddPosting | src/bible.rs:241-246 | after one insertion, the pair is listed, nothing else was added or lost, and no list holds a location twice |
| IndexBuild.SortPostings | src/bible.rs:252-254 | every list is sorted by key, and the keys are unchanged |
| IndexBuild.IndexOf | src/bible.rs:233-257 | the index `build_search_index` returns; `IndexMembership`, `IndexPostingsStrictlySorted` and `IndexKeysAreTerms` state its contents |
| IndexBuild.AddBooksHas | src/bible.rs:236-249 | the filled map lists (t, l) exactly when the corpus has t at l |
| IndexBuild.IndexMembership | src/bible.rs:233-257 | in the built index, a term lists a location exactly when a canonically coded book has that term in its chapter (by position) and verse (by number) |
| IndexBuild.AddBooksNoDup | src/bible.rs:244-246 | no list is empty and no list holds a location twice |
| IndexBuild.IndexPostingsStrictlySorted | src/bible.rs:244-254 | every list of the built index is strictly sorted |
| IndexBuild.IndexKeysAreTerms | src/bible.rs:240-242 | every key of the built index is a token |
| Bibles.NumberVerses | src/bible.rs:446-451 | the verses keep their texts and are numbered from 1 by position |
| Bibles.NumberChapters | src/bible.rs:442-454 | the chapters are numbered from 1 by position, and so are their verses |
| Bibles.EntryBook | src/bible.rs:441-457 | each entry becomes a well-numbered book with the lower-cased key as abbreviation and the entry's name as title |
| Bibles.AbbrevPositions | src/bible.rs:459-463 | the abbreviation index, filled in book order so that a later key overwrites an earlier one; `AbbrevPositionsLast` states its contents |
| Bibles.AbbrevPositionsLast | src/bible.rs:459-463 | the abbreviation index holds exactly the lower-cased abbreviations, each at its last position |
| Bibles.PostTerms | src/bible.rs:240-247 | the term loop computes its fold |
| Bibles.PostVerses | src/bible.rs:239-248 | the verse loop computes its fold |
| Bibles.PostChapters | src/bible.rs:238-249 | the chapter loop computes its fold, with chapters numbered by position |
| Bibles.SortEachList | src/bible.rs:252-254 | the sorting loop sorts every list |
| Bibles.Bible.FromMap | src/bible.rs:431-473 | one book per entry in map order, the abbreviation index of those books, the metadata given, and no search index yet |
| Bibles.Bible.GetBookByAbbrev | src/bible.rs:144-159 | a hit is a loaded book; a miss is BookNotFound with the lower-cased key, the full name when the key is a code (else the key), and the translation name |
| Bibles.Bible.MissingBookName | src/bible.rs:150-152 | the name reported for a missing key: the full name when the key is a code, else the key; `GetBookByAbbrev` states it in its error case |
| Bibles.Bible.GetBook | src/bible.rs:139-142 | a miss is BookNotFound with the book's code and full name |
| Bibles.Bible.GetVerses | src/bible.rs:161-169 | a missing book is reported first; otherwise it is the book's `get_verses` |
| Bibles.Bible.GetVerse | src/bible.rs:171-179 | a missing book is reported first; otherwise it is the book's `get_verse` |
| Bibles.Bible.ParseError | src/bible.rs:259-265 | a malformed part becomes BookNotFound with the part lower-cased, the part, and the translation name |
| Bibles.Bible.ResolveBook | src/bible.rs:267-429 | the alias table wins; otherwise the canonical code; otherwise the first loaded title that matches |
| Bibles.Bible.TitleBook | src/bible.rs:422-428 | the first loaded book whose title matches up to ASCII case decides, through its lower-cased abbreviation; `ResolveBookByTitle` states it |
| Bibles.FirstTitle | src/bible.rs:424-426 | finds the first book whose title matches up to ASCII case, and none when no title matches |
| Bibles.SplitReference | src/bible.rs:186-204 | the trimmed reference is split at its last ':'; a missing ':' or a verse part that does not parse as a `usize` makes the whole trimmed reference malformed; otherwise the parsed verse and the text before the ':' go to the chapter split |
| Bibles.SplitChapterPart | src/bible.rs:197-204 | the text before ':' is split at its last ' '; a missing space or a chapter part that does not parse as a `usize` makes that text the malformed part; a success carries the text before the space and the parsed chapter |
| Bibles.SplitReferenceRoundTrip | src/bible.rs:185-204 | "<token> <chapter>:<verse>" splits back into token, chapter and verse |
| Bibles.Bible.GetVerseByReference | src/bible.rs:185-212 | a malformed part is reported as such; an unresolved token is reported untrimmed; a resolved token gives `get_verse` of its book at the parsed chapter and verse |
| Bibles.Bible.BuildSearchIndex | src/bible.rs:233-257 | the nested loops build exactly the specified index |
| Bibles.Bible.Search | src/bible.rs:218-230 | an empty query finds nothing and leaves the cache alone; any other query leaves the built index cached and returns its search result |
| Bibles.GetBookByAbbrevFinds | src/bible.rs:144-159 | in a loaded Bible, lookup succeeds exactly when some book's abbreviation matches up to ASCII case, and it returns the last such book |
| Bibles.GetBookFinds | src/bible.rs:139-142 | `get_book(b)` succeeds exactly when some book's lower-cased abbreviation is b's code |
| Bibles.GetVerseNumbered | src/bible.rs:171-179 | in a loaded Bible, a verse found at (b, c, v) is numbered v |
| Bibles.FromMapVerseText | src/bible.rs:441-456 | a built book finds (c, v) exactly when the map has that verse, with the map's text and number v |
| Bibles.ResolveBookIgnoresCase | src/bible.rs:268 | tokens equal up to ASCII case resolve alike |
| Bibles.ResolveBookCanonical | src/bible.rs:418-421 | a code that no alias takes over resolves to its own book |
| Bibles.ResolveJnIsJohn | tests/reference_tests.rs:27 | "Jn" and "jn" resolve to John |
| Bibles.ResolveJudIsJude | src/bible.rs:387 | "Jud" resolves to Jude |
| Bibles.ResolveAliasExamples | tests/reference_tests.rs:19-46 | "Gen", "Exo", "1Co" and "Rev" resolve to their books |
| Bibles.ResolveBookByTitle | src/bible.rs:422-428 | without alias or code, only the first matching title decides, through its own abbreviation |
| Bibles.ReferenceRoundTrip | src/bible.rs:185-212 | "<token> <c>:<v>" is the verse (c, v) of the token's book, or BookNotFound naming the token |
| Bibles.ReferenceJohnThreeSixteen | tests/reference_tests.rs:27 | "Jn 3:16" asks for John 3:16 |
| Bibles.ReferenceGenesisOne | tests/reference_tests.rs:66 | "Genesis 1" fails as BookNotFound("genesis 1", "Genesis 1") |
| Bibles.ReferenceUnknownBook | tests/reference_tests.rs:65 | "Unknown 1:1" fails as BookNotFound("unknown", "Unknown") when no title matches |
| Bibles.SearchFindsOccurrences | tests/search_tests.rs:17-24 | a location is found exactly when every query token occurs there in the corpus |

## Left out

- Reading and deserialising the JSON file (`new_from_json`, the serde structures). The constructor takes the already-parsed ordered map as a sequence of (key, entry) pairs.
- Distinct map keys. An `IndexMap` has distinct keys, but the model does not need them. Lower-cased keys may still collide, and then the later book wins, as in the source.
- `src/bible_class.rs`: it is not declared in `src/lib.rs`, so it is not part of the crate.
- The message text of `BibleError`'s `Display`. The variants and their fields are modelled.
- Tests that compare heap pointers after `clone`: the model has value semantics, so a clone is the value itself.
- `HashMap` hashing, capacity and iteration order. Maps are Dafny `map`s. The sort loop visits the keys in an arbitrary order, and the result does not depend on it.
- The accessors `id`, `name`, `description`, `language` and `books`. They are the class's `const` fields.
- `full_name` is called by the source but not defined in it. `BibleBooks.FullName` is the 83-entry table the full-name test pins down.
- `usize` is taken as 64 bits wide (`Decimal.USIZE_MAX`). Chapter and verse numbers are otherwise unbounded naturals.
- `char::is_whitespace` is the Unicode White_Space set, listed explicitly. Only ASCII letters are case-folded, as in the source.
- The integration test that calls `Verse::new` with four arguments uses an API the crate does not have, and is not modelled.
- BibleBooks.FromStrAsStr, BibleBooks.CodeIsLowercase and BibleBooks.BookAtOrdinal are proved over all 83 books, in groups. The alias table is checked only for the entries named in the Model table, not entry by entry against the codes.
- Bibles.ResolveBookCanonical requires that no alias maps the code to another book. The only such codes are "jn" and "jud" (`Aliases.AliasJnIsJohn`, `Aliases.AliasJudIsJude`), and this is the source's own design.
