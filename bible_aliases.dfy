/**
 * The alternative abbreviations `resolve_book` tries before the canonical
 * codes: an ordered table of (alias, book) pairs searched for the first
 * entry whose alias equals the lower-cased token.
 */
module Aliases {
  import opened Wrappers
  import opened BibleBooks

  /**
   * The first table entry whose alias is `key`. No alias occurs twice in the
   * table, so an exact-match `match` gives the entry the ordered search
   * finds; the table is taken in runs of twenty consecutive entries, tried
   * in order.
   */
  function AltAbbrev(key: string): Option<BibleBook> {
    FirstOf(AltAbbrevArms1To20(key),
    FirstOf(AltAbbrevArms21To40(key),
    FirstOf(AltAbbrevArms41To60(key),
    FirstOf(AltAbbrevArms61To80(key),
    FirstOf(AltAbbrevArms81To100(key),
    FirstOf(AltAbbrevArms101To120(key),
    AltAbbrevArms121To138(key)))))))
  }

  /** Entries 1 to 20 of the table. */
  function AltAbbrevArms1To20(key: string): Option<BibleBook> {
    match key
    case "gen" => Some(Genesis)
    case "ge" => Some(Genesis)
    case "exo" => Some(Exodus)
    case "exod" => Some(Exodus)
    case "lev" => Some(Leviticus)
    case "le" => Some(Leviticus)
    case "num" => Some(Numbers)
    case "nu" => Some(Numbers)
    case "deut" => Some(Deuteronomy)
    case "deu" => Some(Deuteronomy)
    case "jos" => Some(Joshua)
    case "josh" => Some(Joshua)
    case "jdg" => Some(Judges)
    case "judg" => Some(Judges)
    case "rut" => Some(Ruth)
    case "ru" => Some(Ruth)
    case "1sa" => Some(FirstSamuel)
    case "1sam" => Some(FirstSamuel)
    case "2sa" => Some(SecondSamuel)
    case "2sam" => Some(SecondSamuel)
    case _ => None
  }

  /** Entries 21 to 40 of the table. */
  function AltAbbrevArms21To40(key: string): Option<BibleBook> {
    match key
    case "1ki" => Some(FirstKings)
    case "1kings" => Some(FirstKings)
    case "2ki" => Some(SecondKings)
    case "2kings" => Some(SecondKings)
    case "1ch" => Some(FirstChronicles)
    case "1chr" => Some(FirstChronicles)
    case "2ch" => Some(SecondChronicles)
    case "2chr" => Some(SecondChronicles)
    case "ezr" => Some(Ezra)
    case "ezra" => Some(Ezra)
    case "neh" => Some(Nehemiah)
    case "ne" => Some(Nehemiah)
    case "est" => Some(Esther)
    case "esth" => Some(Esther)
    case "job" => Some(Job)
    case "jb" => Some(Job)
    case "psa" => Some(Psalms)
    case "psalm" => Some(Psalms)
    case "psalms" => Some(Psalms)
    case "pro" => Some(Proverbs)
    case _ => None
  }

  /** Entries 41 to 60 of the table. */
  function AltAbbrevArms41To60(key: string): Option<BibleBook> {
    match key
    case "prov" => Some(Proverbs)
    case "ecc" => Some(Ecclesiastes)
    case "eccl" => Some(Ecclesiastes)
    case "sos" => Some(SongOfSolomon)
    case "song" => Some(SongOfSolomon)
    case "songofsongs" => Some(SongOfSolomon)
    case "isa" => Some(Isaiah)
    case "jer" => Some(Jeremiah)
    case "lam" => Some(Lamentations)
    case "ezek" => Some(Ezekiel)
    case "eze" => Some(Ezekiel)
    case "dan" => Some(Daniel)
    case "da" => Some(Daniel)
    case "hos" => Some(Hosea)
    case "joe" => Some(Joel)
    case "amo" => Some(Amos)
    case "oba" => Some(Obadiah)
    case "obad" => Some(Obadiah)
    case "jon" => Some(Jonah)
    case "jnh" => Some(Jonah)
    case _ => None
  }

  /** Entries 61 to 80 of the table. */
  function AltAbbrevArms61To80(key: string): Option<BibleBook> {
    match key
    case "mic" => Some(Micah)
    case "nah" => Some(Nahum)
    case "hab" => Some(Habakkuk)
    case "zep" => Some(Zephaniah)
    case "zeph" => Some(Zephaniah)
    case "hag" => Some(Haggai)
    case "zec" => Some(Zechariah)
    case "zech" => Some(Zechariah)
    case "mal" => Some(Malachi)
    case "mat" => Some(Matthew)
    case "matt" => Some(Matthew)
    case "mar" => Some(Mark)
    case "mrk" => Some(Mark)
    case "luk" => Some(Luke)
    case "luke" => Some(Luke)
    case "john" => Some(John)
    case "jhn" => Some(John)
    case "jn" => Some(John)
    case "acts" => Some(Acts)
    case "ac" => Some(Acts)
    case _ => None
  }

  /** Entries 81 to 100 of the table. */
  function AltAbbrevArms81To100(key: string): Option<BibleBook> {
    match key
    case "rom" => Some(Romans)
    case "1co" => Some(FirstCorinthians)
    case "1cor" => Some(FirstCorinthians)
    case "2co" => Some(SecondCorinthians)
    case "2cor" => Some(SecondCorinthians)
    case "gal" => Some(Galatians)
    case "eph" => Some(Ephesians)
    case "phil" => Some(Philippians)
    case "php" => Some(Philippians)
    case "col" => Some(Colossians)
    case "1th" => Some(FirstThessalonians)
    case "1thes" => Some(FirstThessalonians)
    case "2th" => Some(SecondThessalonians)
    case "2thes" => Some(SecondThessalonians)
    case "1ti" => Some(FirstTimothy)
    case "1tim" => Some(FirstTimothy)
    case "2ti" => Some(SecondTimothy)
    case "2tim" => Some(SecondTimothy)
    case "tit" => Some(Titus)
    case "phm" => Some(Philemon)
    case _ => None
  }

  /** Entries 101 to 120 of the table. */
  function AltAbbrevArms101To120(key: string): Option<BibleBook> {
    match key
    case "phlm" => Some(Philemon)
    case "philemon" => Some(Philemon)
    case "heb" => Some(Hebrews)
    case "jas" => Some(James)
    case "jam" => Some(James)
    case "1pe" => Some(FirstPeter)
    case "1pet" => Some(FirstPeter)
    case "2pe" => Some(SecondPeter)
    case "2pet" => Some(SecondPeter)
    case "1jn" => Some(FirstJohn)
    case "1joh" => Some(FirstJohn)
    case "2jn" => Some(SecondJohn)
    case "2joh" => Some(SecondJohn)
    case "3jn" => Some(ThirdJohn)
    case "3joh" => Some(ThirdJohn)
    case "jud" => Some(Jude)
    case "jude" => Some(Jude)
    case "rev" => Some(Revelation)
    case "revelation" => Some(Revelation)
    case "tob" => Some(Tobit)
    case _ => None
  }

  /** Entries 121 to 138 of the table. */
  function AltAbbrevArms121To138(key: string): Option<BibleBook> {
    match key
    case "jdt" => Some(Judith)
    case "wis" => Some(Wisdom)
    case "sir" => Some(Sirach)
    case "bar" => Some(Baruch)
    case "1mac" => Some(FirstMaccabees)
    case "2mac" => Some(SecondMaccabees)
    case "estg" => Some(EstherAdditions)
    case "addesth" => Some(EstherAdditions)
    case "dan3" => Some(DanielSongOfThree)
    case "sus" => Some(DanielSusanna)
    case "bel" => Some(DanielBelAndTheDragon)
    case "1esd" => Some(FirstEsdras)
    case "2esd" => Some(SecondEsdras)
    case "man" => Some(PrayerOfManasseh)
    case "prman" => Some(PrayerOfManasseh)
    case "ps151" => Some(Psalm151)
    case "3mac" => Some(ThirdMaccabees)
    case "4mac" => Some(FourthMaccabees)
    case _ => None
  }

  /**
   * The two aliases that shadow a canonical code: "jn" is John here though
   * the canonical code "jn" is Jonah, and "jud" is Jude though the canonical
   * code "jud" is Judges.
   */
  lemma AliasJnIsJohn()
    ensures AltAbbrev("jn") == Some(John) && FromCode("jn") == Some(Jonah)
  {
  }

  lemma AliasJudIsJude()
    ensures AltAbbrev("jud") == Some(Jude) && FromCode("jud") == Some(Judges)
  {
  }

  /** Aliases the reference tests rely on. */
  lemma AliasExamples()
    ensures AltAbbrev("gen") == Some(Genesis)
    ensures AltAbbrev("exo") == Some(Exodus)
  {
  }

  lemma AliasNewTestamentExamples()
    ensures AltAbbrev("1co") == Some(FirstCorinthians)
    ensures AltAbbrev("rev") == Some(Revelation)
  {
  }
}
