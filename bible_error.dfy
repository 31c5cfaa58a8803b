/**
 * The typed failures of every lookup, `BibleError`, and the `Result` that
 * carries them. Each failure names the book by its abbreviation and a
 * display name; a missing book also names the translation.
 */
module BibleErrors {

  datatype BibleError =
    | BookNotFound(bookAbbrev: string, bookName: string, translation: string)
    | ChapterOutOfBounds(bookAbbrev: string, bookName: string, chapter: nat, maxChapter: nat)
    | VerseOutOfBounds(bookAbbrev: string, bookName: string, chapter: nat, verse: nat, maxVerse: nat)

  datatype Result<+T> = Ok(value: T) | Err(error: BibleError)
}
