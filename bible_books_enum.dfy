/**
 * Canonical book identity: the closed set of 83 books (Protestant 66,
 * Catholic deuterocanon, Eastern Orthodox additions), each with a fixed
 * lowercase code and a display name. The declaration order of the variants
 * is the ordinal that search results are sorted by.
 */
module BibleBooks {
  import opened Wrappers
  import opened AsciiText

  datatype BibleBook =
    // Protestant (66)
      Genesis
    | Exodus
    | Leviticus
    | Numbers
    | Deuteronomy
    | Joshua
    | Judges
    | Ruth
    | FirstSamuel
    | SecondSamuel
    | FirstKings
    | SecondKings
    | FirstChronicles
    | SecondChronicles
    | Ezra
    | Nehemiah
    | Esther
    | Job
    | Psalms
    | Proverbs
    | Ecclesiastes
    | SongOfSolomon
    | Isaiah
    | Jeremiah
    | Lamentations
    | Ezekiel
    | Daniel
    | Hosea
    | Joel
    | Amos
    | Obadiah
    | Jonah
    | Micah
    | Nahum
    | Habakkuk
    | Zephaniah
    | Haggai
    | Zechariah
    | Malachi
    | Matthew
    | Mark
    | Luke
    | John
    | Acts
    | Romans
    | FirstCorinthians
    | SecondCorinthians
    | Galatians
    | Ephesians
    | Philippians
    | Colossians
    | FirstThessalonians
    | SecondThessalonians
    | FirstTimothy
    | SecondTimothy
    | Titus
    | Philemon
    | Hebrews
    | James
    | FirstPeter
    | SecondPeter
    | FirstJohn
    | SecondJohn
    | ThirdJohn
    | Jude
    | Revelation
    // Catholic deuterocanon
    | Tobit
    | Judith
    | Wisdom
    | Sirach
    | Baruch
    | FirstMaccabees
    | SecondMaccabees
    | EstherAdditions
    | DanielSongOfThree
    | DanielSusanna
    | DanielBelAndTheDragon
    // Eastern Orthodox additions
    | FirstEsdras
    | SecondEsdras
    | PrayerOfManasseh
    | Psalm151
    | ThirdMaccabees
    | FourthMaccabees

  /** `b as usize`: the position of the variant in the declaration. */
  function Ordinal(b: BibleBook): nat {
    match b
    case Genesis => 0
    case Exodus => 1
    case Leviticus => 2
    case Numbers => 3
    case Deuteronomy => 4
    case Joshua => 5
    case Judges => 6
    case Ruth => 7
    case FirstSamuel => 8
    case SecondSamuel => 9
    case FirstKings => 10
    case SecondKings => 11
    case FirstChronicles => 12
    case SecondChronicles => 13
    case Ezra => 14
    case Nehemiah => 15
    case Esther => 16
    case Job => 17
    case Psalms => 18
    case Proverbs => 19
    case Ecclesiastes => 20
    case SongOfSolomon => 21
    case Isaiah => 22
    case Jeremiah => 23
    case Lamentations => 24
    case Ezekiel => 25
    case Daniel => 26
    case Hosea => 27
    case Joel => 28
    case Amos => 29
    case Obadiah => 30
    case Jonah => 31
    case Micah => 32
    case Nahum => 33
    case Habakkuk => 34
    case Zephaniah => 35
    case Haggai => 36
    case Zechariah => 37
    case Malachi => 38
    case Matthew => 39
    case Mark => 40
    case Luke => 41
    case John => 42
    case Acts => 43
    case Romans => 44
    case FirstCorinthians => 45
    case SecondCorinthians => 46
    case Galatians => 47
    case Ephesians => 48
    case Philippians => 49
    case Colossians => 50
    case FirstThessalonians => 51
    case SecondThessalonians => 52
    case FirstTimothy => 53
    case SecondTimothy => 54
    case Titus => 55
    case Philemon => 56
    case Hebrews => 57
    case James => 58
    case FirstPeter => 59
    case SecondPeter => 60
    case FirstJohn => 61
    case SecondJohn => 62
    case ThirdJohn => 63
    case Jude => 64
    case Revelation => 65
    case Tobit => 66
    case Judith => 67
    case Wisdom => 68
    case Sirach => 69
    case Baruch => 70
    case FirstMaccabees => 71
    case SecondMaccabees => 72
    case EstherAdditions => 73
    case DanielSongOfThree => 74
    case DanielSusanna => 75
    case DanielBelAndTheDragon => 76
    case FirstEsdras => 77
    case SecondEsdras => 78
    case PrayerOfManasseh => 79
    case Psalm151 => 80
    case ThirdMaccabees => 81
    case FourthMaccabees => 82
  }

  /** The variant at a given ordinal (a binary search over the declaration order). */
  function BookAt(n: nat): Option<BibleBook> {
    if n >= 83 then None
    else if n < 41 then
      if n < 20 then
        if n < 10 then
          if n < 5 then
            if n < 2 then
              if n < 1 then
                Some(Genesis)
              else
                Some(Exodus)
            else
              if n < 3 then
                Some(Leviticus)
              else
                if n < 4 then
                  Some(Numbers)
                else
                  Some(Deuteronomy)
          else
            if n < 7 then
              if n < 6 then
                Some(Joshua)
              else
                Some(Judges)
            else
              if n < 8 then
                Some(Ruth)
              else
                if n < 9 then
                  Some(FirstSamuel)
                else
                  Some(SecondSamuel)
        else
          if n < 15 then
            if n < 12 then
              if n < 11 then
                Some(FirstKings)
              else
                Some(SecondKings)
            else
              if n < 13 then
                Some(FirstChronicles)
              else
                if n < 14 then
                  Some(SecondChronicles)
                else
                  Some(Ezra)
          else
            if n < 17 then
              if n < 16 then
                Some(Nehemiah)
              else
                Some(Esther)
            else
              if n < 18 then
                Some(Job)
              else
                if n < 19 then
                  Some(Psalms)
                else
                  Some(Proverbs)
      else
        if n < 30 then
          if n < 25 then
            if n < 22 then
              if n < 21 then
                Some(Ecclesiastes)
              else
                Some(SongOfSolomon)
            else
              if n < 23 then
                Some(Isaiah)
              else
                if n < 24 then
                  Some(Jeremiah)
                else
                  Some(Lamentations)
          else
            if n < 27 then
              if n < 26 then
                Some(Ezekiel)
              else
                Some(Daniel)
            else
              if n < 28 then
                Some(Hosea)
              else
                if n < 29 then
                  Some(Joel)
                else
                  Some(Amos)
        else
          if n < 35 then
            if n < 32 then
              if n < 31 then
                Some(Obadiah)
              else
                Some(Jonah)
            else
              if n < 33 then
                Some(Micah)
              else
                if n < 34 then
                  Some(Nahum)
                else
                  Some(Habakkuk)
          else
            if n < 38 then
              if n < 36 then
                Some(Zephaniah)
              else
                if n < 37 then
                  Some(Haggai)
                else
                  Some(Zechariah)
            else
              if n < 39 then
                Some(Malachi)
              else
                if n < 40 then
                  Some(Matthew)
                else
                  Some(Mark)
    else
      if n < 62 then
        if n < 51 then
          if n < 46 then
            if n < 43 then
              if n < 42 then
                Some(Luke)
              else
                Some(John)
            else
              if n < 44 then
                Some(Acts)
              else
                if n < 45 then
                  Some(Romans)
                else
                  Some(FirstCorinthians)
          else
            if n < 48 then
              if n < 47 then
                Some(SecondCorinthians)
              else
                Some(Galatians)
            else
              if n < 49 then
                Some(Ephesians)
              else
                if n < 50 then
                  Some(Philippians)
                else
                  Some(Colossians)
        else
          if n < 56 then
            if n < 53 then
              if n < 52 then
                Some(FirstThessalonians)
              else
                Some(SecondThessalonians)
            else
              if n < 54 then
                Some(FirstTimothy)
              else
                if n < 55 then
                  Some(SecondTimothy)
                else
                  Some(Titus)
          else
            if n < 59 then
              if n < 57 then
                Some(Philemon)
              else
                if n < 58 then
                  Some(Hebrews)
                else
                  Some(James)
            else
              if n < 60 then
                Some(FirstPeter)
              else
                if n < 61 then
                  Some(SecondPeter)
                else
                  Some(FirstJohn)
      else
        if n < 72 then
          if n < 67 then
            if n < 64 then
              if n < 63 then
                Some(SecondJohn)
              else
                Some(ThirdJohn)
            else
              if n < 65 then
                Some(Jude)
              else
                if n < 66 then
                  Some(Revelation)
                else
                  Some(Tobit)
          else
            if n < 69 then
              if n < 68 then
                Some(Judith)
              else
                Some(Wisdom)
            else
              if n < 70 then
                Some(Sirach)
              else
                if n < 71 then
                  Some(Baruch)
                else
                  Some(FirstMaccabees)
        else
          if n < 77 then
            if n < 74 then
              if n < 73 then
                Some(SecondMaccabees)
              else
                Some(EstherAdditions)
            else
              if n < 75 then
                Some(DanielSongOfThree)
              else
                if n < 76 then
                  Some(DanielSusanna)
                else
                  Some(DanielBelAndTheDragon)
          else
            if n < 80 then
              if n < 78 then
                Some(FirstEsdras)
              else
                if n < 79 then
                  Some(SecondEsdras)
                else
                  Some(PrayerOfManasseh)
            else
              if n < 81 then
                Some(Psalm151)
              else
                if n < 82 then
                  Some(ThirdMaccabees)
                else
                  Some(FourthMaccabees)
  }

  lemma BookAtOrdinal(b: BibleBook)
    ensures BookAt(Ordinal(b)) == Some(b)
  {
    if InArms1To12(b) { BookAtOrdinalGenesisToSecondKings(b); }
    else if InArms13To24(b) { BookAtOrdinalFirstChroniclesToJeremiah(b); }
    else if b.Lamentations? || b.Ezekiel? || b.Daniel? || b.Hosea? || b.Joel? || b.Amos? { BookAtOrdinalLamentationsToAmos(b); }
    else if b.Obadiah? || b.Jonah? || b.Micah? || b.Nahum? || b.Habakkuk? || b.Zephaniah? { BookAtOrdinalObadiahToZephaniah(b); }
    else if b.Haggai? || b.Zechariah? || b.Malachi? { BookAtOrdinalHaggaiToMalachi(b); }
    else if b.Matthew? || b.Mark? || b.Luke? { BookAtOrdinalMatthewToLuke(b); }
    else if b.John? || b.Acts? || b.Romans? { BookAtOrdinalJohnToRomans(b); }
    else if b.FirstCorinthians? || b.SecondCorinthians? || b.Galatians? { BookAtOrdinalFirstCorinthiansToGalatians(b); }
    else if b.Ephesians? || b.Philippians? || b.Colossians? || b.FirstThessalonians? { BookAtOrdinalEphesiansToFirstThessalonians(b); }
    else if b.SecondThessalonians? || b.FirstTimothy? { BookAtOrdinalSecondThessaloniansToFirstTimothy(b); }
    else if b.SecondTimothy? || b.Titus? { BookAtOrdinalSecondTimothyToTitus(b); }
    else if b.Philemon? || b.Hebrews? { BookAtOrdinalPhilemonToHebrews(b); }
    else if b.James? || b.FirstPeter? { BookAtOrdinalJamesToFirstPeter(b); }
    else if b.SecondPeter? || b.FirstJohn? { BookAtOrdinalSecondPeterToFirstJohn(b); }
    else if b.SecondJohn? || b.ThirdJohn? { BookAtOrdinalSecondJohnToThirdJohn(b); }
    else if b.Jude? || b.Revelation? { BookAtOrdinalJudeToRevelation(b); }
    else if b.Tobit? || b.Judith? { BookAtOrdinalTobitToJudith(b); }
    else if b.Wisdom? || b.Sirach? { BookAtOrdinalWisdomToSirach(b); }
    else if b.Baruch? || b.FirstMaccabees? { BookAtOrdinalBaruchToFirstMaccabees(b); }
    else if b.SecondMaccabees? || b.EstherAdditions? { BookAtOrdinalSecondMaccabeesToEstherAdditions(b); }
    else if b.DanielSongOfThree? || b.DanielSusanna? { BookAtOrdinalDanielSongOfThreeToDanielSusanna(b); }
    else if b.DanielBelAndTheDragon? || b.FirstEsdras? { BookAtOrdinalDanielBelAndTheDragonToFirstEsdras(b); }
    else if b.SecondEsdras? || b.PrayerOfManasseh? { BookAtOrdinalSecondEsdrasToPrayerOfManasseh(b); }
    else if b.Psalm151? || b.ThirdMaccabees? { BookAtOrdinalPsalm151ToThirdMaccabees(b); }
    else { BookAtOrdinalFourthMaccabees(b); }
  }

  lemma BookAtOrdinalGenesisToSecondKings(b: BibleBook)
    requires InArms1To12(b)
    ensures BookAt(Ordinal(b)) == Some(b)
  {
  }

  lemma BookAtOrdinalFirstChroniclesToJeremiah(b: BibleBook)
    requires InArms13To24(b)
    ensures BookAt(Ordinal(b)) == Some(b)
  {
  }

  lemma BookAtOrdinalLamentationsToAmos(b: BibleBook)
    requires b.Lamentations? || b.Ezekiel? || b.Daniel? || b.Hosea? || b.Joel? || b.Amos?
    ensures BookAt(Ordinal(b)) == Some(b)
  {
  }

  lemma BookAtOrdinalObadiahToZephaniah(b: BibleBook)
    requires b.Obadiah? || b.Jonah? || b.Micah? || b.Nahum? || b.Habakkuk? || b.Zephaniah?
    ensures BookAt(Ordinal(b)) == Some(b)
  {
  }

  lemma BookAtOrdinalHaggaiToMalachi(b: BibleBook)
    requires b.Haggai? || b.Zechariah? || b.Malachi?
    ensures BookAt(Ordinal(b)) == Some(b)
  {
  }

  lemma BookAtOrdinalMatthewToLuke(b: BibleBook)
    requires b.Matthew? || b.Mark? || b.Luke?
    ensures BookAt(Ordinal(b)) == Some(b)
  {
  }

  lemma BookAtOrdinalJohnToRomans(b: BibleBook)
    requires b.John? || b.Acts? || b.Romans?
    ensures BookAt(Ordinal(b)) == Some(b)
  {
  }

  lemma BookAtOrdinalFirstCorinthiansToGalatians(b: BibleBook)
    requires b.FirstCorinthians? || b.SecondCorinthians? || b.Galatians?
    ensures BookAt(Ordinal(b)) == Some(b)
  {
  }

  lemma BookAtOrdinalEphesiansToFirstThessalonians(b: BibleBook)
    requires b.Ephesians? || b.Philippians? || b.Colossians? || b.FirstThessalonians?
    ensures BookAt(Ordinal(b)) == Some(b)
  {
  }

  lemma BookAtOrdinalSecondThessaloniansToFirstTimothy(b: BibleBook)
    requires b.SecondThessalonians? || b.FirstTimothy?
    ensures BookAt(Ordinal(b)) == Some(b)
  {
  }

  lemma BookAtOrdinalSecondTimothyToTitus(b: BibleBook)
    requires b.SecondTimothy? || b.Titus?
    ensures BookAt(Ordinal(b)) == Some(b)
  {
  }

  lemma BookAtOrdinalPhilemonToHebrews(b: BibleBook)
    requires b.Philemon? || b.Hebrews?
    ensures BookAt(Ordinal(b)) == Some(b)
  {
  }

  lemma BookAtOrdinalJamesToFirstPeter(b: BibleBook)
    requires b.James? || b.FirstPeter?
    ensures BookAt(Ordinal(b)) == Some(b)
  {
  }

  lemma BookAtOrdinalSecondPeterToFirstJohn(b: BibleBook)
    requires b.SecondPeter? || b.FirstJohn?
    ensures BookAt(Ordinal(b)) == Some(b)
  {
  }

  lemma BookAtOrdinalSecondJohnToThirdJohn(b: BibleBook)
    requires b.SecondJohn? || b.ThirdJohn?
    ensures BookAt(Ordinal(b)) == Some(b)
  {
  }

  lemma BookAtOrdinalJudeToRevelation(b: BibleBook)
    requires b.Jude? || b.Revelation?
    ensures BookAt(Ordinal(b)) == Some(b)
  {
  }

  lemma BookAtOrdinalTobitToJudith(b: BibleBook)
    requires b.Tobit? || b.Judith?
    ensures BookAt(Ordinal(b)) == Some(b)
  {
  }

  lemma BookAtOrdinalWisdomToSirach(b: BibleBook)
    requires b.Wisdom? || b.Sirach?
    ensures BookAt(Ordinal(b)) == Some(b)
  {
  }

  lemma BookAtOrdinalBaruchToFirstMaccabees(b: BibleBook)
    requires b.Baruch? || b.FirstMaccabees?
    ensures BookAt(Ordinal(b)) == Some(b)
  {
  }

  lemma BookAtOrdinalSecondMaccabeesToEstherAdditions(b: BibleBook)
    requires b.SecondMaccabees? || b.EstherAdditions?
    ensures BookAt(Ordinal(b)) == Some(b)
  {
  }

  lemma BookAtOrdinalDanielSongOfThreeToDanielSusanna(b: BibleBook)
    requires b.DanielSongOfThree? || b.DanielSusanna?
    ensures BookAt(Ordinal(b)) == Some(b)
  {
  }

  lemma BookAtOrdinalDanielBelAndTheDragonToFirstEsdras(b: BibleBook)
    requires b.DanielBelAndTheDragon? || b.FirstEsdras?
    ensures BookAt(Ordinal(b)) == Some(b)
  {
  }

  lemma BookAtOrdinalSecondEsdrasToPrayerOfManasseh(b: BibleBook)
    requires b.SecondEsdras? || b.PrayerOfManasseh?
    ensures BookAt(Ordinal(b)) == Some(b)
  {
  }

  lemma BookAtOrdinalPsalm151ToThirdMaccabees(b: BibleBook)
    requires b.Psalm151? || b.ThirdMaccabees?
    ensures BookAt(Ordinal(b)) == Some(b)
  {
  }

  lemma BookAtOrdinalFourthMaccabees(b: BibleBook)
    requires b.FourthMaccabees?
    ensures BookAt(Ordinal(b)) == Some(b)
  {
  }

  /** No two books share an ordinal, so the search order is a total order. */
  lemma OrdinalInjective(a: BibleBook, b: BibleBook)
    requires Ordinal(a) == Ordinal(b)
    ensures a == b
  {
    BookAtOrdinal(a);
    BookAtOrdinal(b);
  }

  /** `as_str`: the compact lowercase code of each book. */
  function AsStr(b: BibleBook): string {
    match b
    case Genesis => "gn"
    case Exodus => "ex"
    case Leviticus => "lv"
    case Numbers => "nm"
    case Deuteronomy => "dt"
    case Joshua => "js"
    case Judges => "jud"
    case Ruth => "rt"
    case FirstSamuel => "1sm"
    case SecondSamuel => "2sm"
    case FirstKings => "1kgs"
    case SecondKings => "2kgs"
    case FirstChronicles => "1ch"
    case SecondChronicles => "2ch"
    case Ezra => "ezr"
    case Nehemiah => "ne"
    case Esther => "et"
    case Job => "job"
    case Psalms => "ps"
    case Proverbs => "prv"
    case Ecclesiastes => "ec"
    case SongOfSolomon => "so"
    case Isaiah => "is"
    case Jeremiah => "jr"
    case Lamentations => "lm"
    case Ezekiel => "ez"
    case Daniel => "dn"
    case Hosea => "ho"
    case Joel => "jl"
    case Amos => "am"
    case Obadiah => "ob"
    case Jonah => "jn"
    case Micah => "mi"
    case Nahum => "na"
    case Habakkuk => "hk"
    case Zephaniah => "zp"
    case Haggai => "hg"
    case Zechariah => "zc"
    case Malachi => "ml"
    case Matthew => "mt"
    case Mark => "mk"
    case Luke => "lk"
    case John => "jo"
    case Acts => "act"
    case Romans => "rm"
    case FirstCorinthians => "1co"
    case SecondCorinthians => "2co"
    case Galatians => "gl"
    case Ephesians => "eph"
    case Philippians => "ph"
    case Colossians => "cl"
    case FirstThessalonians => "1ts"
    case SecondThessalonians => "2ts"
    case FirstTimothy => "1tm"
    case SecondTimothy => "2tm"
    case Titus => "tt"
    case Philemon => "phm"
    case Hebrews => "hb"
    case James => "jm"
    case FirstPeter => "1pe"
    case SecondPeter => "2pe"
    case FirstJohn => "1jo"
    case SecondJohn => "2jo"
    case ThirdJohn => "3jo"
    case Jude => "jd"
    case Revelation => "re"
    case Tobit => "tb"
    case Judith => "jdt"
    case Wisdom => "ws"
    case Sirach => "sir"
    case Baruch => "bar"
    case FirstMaccabees => "1mc"
    case SecondMaccabees => "2mc"
    case EstherAdditions => "etg"
    case DanielSongOfThree => "dn3"
    case DanielSusanna => "dns"
    case DanielBelAndTheDragon => "dnb"
    case FirstEsdras => "1es"
    case SecondEsdras => "2es"
    case PrayerOfManasseh => "pmn"
    case Psalm151 => "ps151"
    case ThirdMaccabees => "3mc"
    case FourthMaccabees => "4mc"
  }

  /**
   * The exact-match table behind `from_str`, applied to an already lowercased
   * code. The single `match` of the source is written here as seven runs of
   * consecutive arms, tried in order; as no code appears in two runs, the
   * first run that knows the code gives the same book the one match would.
   */
  function FromCode(code: string): Option<BibleBook> {
    FirstOf(FromCodeArms1To12(code),
    FirstOf(FromCodeArms13To24(code),
    FirstOf(FromCodeArms25To36(code),
    FirstOf(FromCodeArms37To48(code),
    FirstOf(FromCodeArms49To60(code),
    FirstOf(FromCodeArms61To72(code),
            FromCodeArms73To83(code)))))))
  }

  /** The first of two lookups that found something. */
  function FirstOf(first: Option<BibleBook>, second: Option<BibleBook>): Option<BibleBook> {
    if first.Some? then first else second
  }

  /** Arms 1 to 12 of the `from_str` table. */
  function FromCodeArms1To12(code: string): Option<BibleBook> {
    match code
    case "gn" => Some(Genesis)
    case "ex" => Some(Exodus)
    case "lv" => Some(Leviticus)
    case "nm" => Some(Numbers)
    case "dt" => Some(Deuteronomy)
    case "js" => Some(Joshua)
    case "jud" => Some(Judges)
    case "rt" => Some(Ruth)
    case "1sm" => Some(FirstSamuel)
    case "2sm" => Some(SecondSamuel)
    case "1kgs" => Some(FirstKings)
    case "2kgs" => Some(SecondKings)
    case _ => None
  }

  /** Arms 13 to 24 of the `from_str` table. */
  function FromCodeArms13To24(code: string): Option<BibleBook> {
    match code
    case "1ch" => Some(FirstChronicles)
    case "2ch" => Some(SecondChronicles)
    case "ezr" => Some(Ezra)
    case "ne" => Some(Nehemiah)
    case "et" => Some(Esther)
    case "job" => Some(Job)
    case "ps" => Some(Psalms)
    case "prv" => Some(Proverbs)
    case "ec" => Some(Ecclesiastes)
    case "so" => Some(SongOfSolomon)
    case "is" => Some(Isaiah)
    case "jr" => Some(Jeremiah)
    case _ => None
  }

  /** Arms 25 to 36 of the `from_str` table. */
  function FromCodeArms25To36(code: string): Option<BibleBook> {
    match code
    case "lm" => Some(Lamentations)
    case "ez" => Some(Ezekiel)
    case "dn" => Some(Daniel)
    case "ho" => Some(Hosea)
    case "jl" => Some(Joel)
    case "am" => Some(Amos)
    case "ob" => Some(Obadiah)
    case "jn" => Some(Jonah)
    case "mi" => Some(Micah)
    case "na" => Some(Nahum)
    case "hk" => Some(Habakkuk)
    case "zp" => Some(Zephaniah)
    case _ => None
  }

  /** Arms 37 to 48 of the `from_str` table. */
  function FromCodeArms37To48(code: string): Option<BibleBook> {
    match code
    case "hg" => Some(Haggai)
    case "zc" => Some(Zechariah)
    case "ml" => Some(Malachi)
    case "mt" => Some(Matthew)
    case "mk" => Some(Mark)
    case "lk" => Some(Luke)
    case "jo" => Some(John)
    case "act" => Some(Acts)
    case "rm" => Some(Romans)
    case "1co" => Some(FirstCorinthians)
    case "2co" => Some(SecondCorinthians)
    case "gl" => Some(Galatians)
    case _ => None
  }

  /** Arms 49 to 60 of the `from_str` table. */
  function FromCodeArms49To60(code: string): Option<BibleBook> {
    match code
    case "eph" => Some(Ephesians)
    case "ph" => Some(Philippians)
    case "cl" => Some(Colossians)
    case "1ts" => Some(FirstThessalonians)
    case "2ts" => Some(SecondThessalonians)
    case "1tm" => Some(FirstTimothy)
    case "2tm" => Some(SecondTimothy)
    case "tt" => Some(Titus)
    case "phm" => Some(Philemon)
    case "hb" => Some(Hebrews)
    case "jm" => Some(James)
    case "1pe" => Some(FirstPeter)
    case _ => None
  }

  /** Arms 61 to 72 of the `from_str` table. */
  function FromCodeArms61To72(code: string): Option<BibleBook> {
    match code
    case "2pe" => Some(SecondPeter)
    case "1jo" => Some(FirstJohn)
    case "2jo" => Some(SecondJohn)
    case "3jo" => Some(ThirdJohn)
    case "jd" => Some(Jude)
    case "re" => Some(Revelation)
    case "tb" => Some(Tobit)
    case "jdt" => Some(Judith)
    case "ws" => Some(Wisdom)
    case "sir" => Some(Sirach)
    case "bar" => Some(Baruch)
    case "1mc" => Some(FirstMaccabees)
    case _ => None
  }

  /** Arms 73 to 83 of the `from_str` table. */
  function FromCodeArms73To83(code: string): Option<BibleBook> {
    match code
    case "2mc" => Some(SecondMaccabees)
    case "etg" => Some(EstherAdditions)
    case "dn3" => Some(DanielSongOfThree)
    case "dns" => Some(DanielSusanna)
    case "dnb" => Some(DanielBelAndTheDragon)
    case "1es" => Some(FirstEsdras)
    case "2es" => Some(SecondEsdras)
    case "pmn" => Some(PrayerOfManasseh)
    case "ps151" => Some(Psalm151)
    case "3mc" => Some(ThirdMaccabees)
    case "4mc" => Some(FourthMaccabees)
    case _ => None
  }

  /** The display name of each book. */
  function FullName(b: BibleBook): string {
    match b
    case Genesis => "Genesis"
    case Exodus => "Exodus"
    case Leviticus => "Leviticus"
    case Numbers => "Numbers"
    case Deuteronomy => "Deuteronomy"
    case Joshua => "Joshua"
    case Judges => "Judges"
    case Ruth => "Ruth"
    case FirstSamuel => "1 Samuel"
    case SecondSamuel => "2 Samuel"
    case FirstKings => "1 Kings"
    case SecondKings => "2 Kings"
    case FirstChronicles => "1 Chronicles"
    case SecondChronicles => "2 Chronicles"
    case Ezra => "Ezra"
    case Nehemiah => "Nehemiah"
    case Esther => "Esther"
    case Job => "Job"
    case Psalms => "Psalms"
    case Proverbs => "Proverbs"
    case Ecclesiastes => "Ecclesiastes"
    case SongOfSolomon => "Song of Solomon"
    case Isaiah => "Isaiah"
    case Jeremiah => "Jeremiah"
    case Lamentations => "Lamentations"
    case Ezekiel => "Ezekiel"
    case Daniel => "Daniel"
    case Hosea => "Hosea"
    case Joel => "Joel"
    case Amos => "Amos"
    case Obadiah => "Obadiah"
    case Jonah => "Jonah"
    case Micah => "Micah"
    case Nahum => "Nahum"
    case Habakkuk => "Habakkuk"
    case Zephaniah => "Zephaniah"
    case Haggai => "Haggai"
    case Zechariah => "Zechariah"
    case Malachi => "Malachi"
    case Matthew => "Matthew"
    case Mark => "Mark"
    case Luke => "Luke"
    case John => "John"
    case Acts => "Acts"
    case Romans => "Romans"
    case FirstCorinthians => "1 Corinthians"
    case SecondCorinthians => "2 Corinthians"
    case Galatians => "Galatians"
    case Ephesians => "Ephesians"
    case Philippians => "Philippians"
    case Colossians => "Colossians"
    case FirstThessalonians => "1 Thessalonians"
    case SecondThessalonians => "2 Thessalonians"
    case FirstTimothy => "1 Timothy"
    case SecondTimothy => "2 Timothy"
    case Titus => "Titus"
    case Philemon => "Philemon"
    case Hebrews => "Hebrews"
    case James => "James"
    case FirstPeter => "1 Peter"
    case SecondPeter => "2 Peter"
    case FirstJohn => "1 John"
    case SecondJohn => "2 John"
    case ThirdJohn => "3 John"
    case Jude => "Jude"
    case Revelation => "Revelation"
    case Tobit => "Tobit"
    case Judith => "Judith"
    case Wisdom => "Wisdom"
    case Sirach => "Sirach"
    case Baruch => "Baruch"
    case FirstMaccabees => "1 Maccabees"
    case SecondMaccabees => "2 Maccabees"
    case EstherAdditions => "Esther (Greek)"
    case DanielSongOfThree => "Daniel (Song of Three)"
    case DanielSusanna => "Daniel (Susanna)"
    case DanielBelAndTheDragon => "Daniel (Bel and the Dragon)"
    case FirstEsdras => "1 Esdras"
    case SecondEsdras => "2 Esdras"
    case PrayerOfManasseh => "Prayer of Manasseh"
    case Psalm151 => "Psalm 151"
    case ThirdMaccabees => "3 Maccabees"
    case FourthMaccabees => "4 Maccabees"
  }

  /** `from_str`: lowercase the input, then match it against the codes exactly. */
  function FromStr(s: string): Option<BibleBook> {
    FromCode(Lower(s))
  }

  /** `Display` writes the code, so the text it prints parses back. */
  function Display(b: BibleBook): (r: string)
    ensures r == AsStr(b)
    ensures FromStr(r) == Some(b)
  {
    FromStrAsStr(b);
    AsStr(b)
  }

  lemma CodeIsLowercase(b: BibleBook)
    ensures NoAsciiUpper(AsStr(b))
  {
    if InArms1To12(b) { CodeIsLowercaseGenesisToSecondKings(b); }
    else if InArms13To24(b) { CodeIsLowercaseFirstChroniclesToJeremiah(b); }
    else if b.Lamentations? || b.Ezekiel? || b.Daniel? || b.Hosea? || b.Joel? || b.Amos? { CodeIsLowercaseLamentationsToAmos(b); }
    else if b.Obadiah? || b.Jonah? || b.Micah? || b.Nahum? || b.Habakkuk? || b.Zephaniah? { CodeIsLowercaseObadiahToZephaniah(b); }
    else if b.Haggai? || b.Zechariah? || b.Malachi? { CodeIsLowercaseHaggaiToMalachi(b); }
    else if b.Matthew? || b.Mark? || b.Luke? { CodeIsLowercaseMatthewToLuke(b); }
    else if b.John? || b.Acts? || b.Romans? { CodeIsLowercaseJohnToRomans(b); }
    else if b.FirstCorinthians? || b.SecondCorinthians? || b.Galatians? { CodeIsLowercaseFirstCorinthiansToGalatians(b); }
    else if b.Ephesians? || b.Philippians? || b.Colossians? || b.FirstThessalonians? { CodeIsLowercaseEphesiansToFirstThessalonians(b); }
    else if b.SecondThessalonians? || b.FirstTimothy? { CodeIsLowercaseSecondThessaloniansToFirstTimothy(b); }
    else if b.SecondTimothy? || b.Titus? { CodeIsLowercaseSecondTimothyToTitus(b); }
    else if b.Philemon? || b.Hebrews? { CodeIsLowercasePhilemonToHebrews(b); }
    else if b.James? || b.FirstPeter? { CodeIsLowercaseJamesToFirstPeter(b); }
    else if b.SecondPeter? || b.FirstJohn? { CodeIsLowercaseSecondPeterToFirstJohn(b); }
    else if b.SecondJohn? || b.ThirdJohn? { CodeIsLowercaseSecondJohnToThirdJohn(b); }
    else if b.Jude? || b.Revelation? { CodeIsLowercaseJudeToRevelation(b); }
    else if b.Tobit? || b.Judith? { CodeIsLowercaseTobitToJudith(b); }
    else if b.Wisdom? || b.Sirach? { CodeIsLowercaseWisdomToSirach(b); }
    else if b.Baruch? || b.FirstMaccabees? { CodeIsLowercaseBaruchToFirstMaccabees(b); }
    else if b.SecondMaccabees? || b.EstherAdditions? { CodeIsLowercaseSecondMaccabeesToEstherAdditions(b); }
    else if b.DanielSongOfThree? || b.DanielSusanna? { CodeIsLowercaseDanielSongOfThreeToDanielSusanna(b); }
    else if b.DanielBelAndTheDragon? || b.FirstEsdras? { CodeIsLowercaseDanielBelAndTheDragonToFirstEsdras(b); }
    else if b.SecondEsdras? || b.PrayerOfManasseh? { CodeIsLowercaseSecondEsdrasToPrayerOfManasseh(b); }
    else if b.Psalm151? || b.ThirdMaccabees? { CodeIsLowercasePsalm151ToThirdMaccabees(b); }
    else { CodeIsLowercaseFourthMaccabees(b); }
  }

  lemma CodeIsLowercaseGenesisToSecondKings(b: BibleBook)
    requires InArms1To12(b)
    ensures NoAsciiUpper(AsStr(b))
  {
  }

  lemma CodeIsLowercaseFirstChroniclesToJeremiah(b: BibleBook)
    requires InArms13To24(b)
    ensures NoAsciiUpper(AsStr(b))
  {
  }

  lemma CodeIsLowercaseLamentationsToAmos(b: BibleBook)
    requires b.Lamentations? || b.Ezekiel? || b.Daniel? || b.Hosea? || b.Joel? || b.Amos?
    ensures NoAsciiUpper(AsStr(b))
  {
  }

  lemma CodeIsLowercaseObadiahToZephaniah(b: BibleBook)
    requires b.Obadiah? || b.Jonah? || b.Micah? || b.Nahum? || b.Habakkuk? || b.Zephaniah?
    ensures NoAsciiUpper(AsStr(b))
  {
  }

  lemma CodeIsLowercaseHaggaiToMalachi(b: BibleBook)
    requires b.Haggai? || b.Zechariah? || b.Malachi?
    ensures NoAsciiUpper(AsStr(b))
  {
  }

  lemma CodeIsLowercaseMatthewToLuke(b: BibleBook)
    requires b.Matthew? || b.Mark? || b.Luke?
    ensures NoAsciiUpper(AsStr(b))
  {
  }

  lemma CodeIsLowercaseJohnToRomans(b: BibleBook)
    requires b.John? || b.Acts? || b.Romans?
    ensures NoAsciiUpper(AsStr(b))
  {
  }

  lemma CodeIsLowercaseFirstCorinthiansToGalatians(b: BibleBook)
    requires b.FirstCorinthians? || b.SecondCorinthians? || b.Galatians?
    ensures NoAsciiUpper(AsStr(b))
  {
  }

  lemma CodeIsLowercaseEphesiansToFirstThessalonians(b: BibleBook)
    requires b.Ephesians? || b.Philippians? || b.Colossians? || b.FirstThessalonians?
    ensures NoAsciiUpper(AsStr(b))
  {
  }

  lemma CodeIsLowercaseSecondThessaloniansToFirstTimothy(b: BibleBook)
    requires b.SecondThessalonians? || b.FirstTimothy?
    ensures NoAsciiUpper(AsStr(b))
  {
  }

  lemma CodeIsLowercaseSecondTimothyToTitus(b: BibleBook)
    requires b.SecondTimothy? || b.Titus?
    ensures NoAsciiUpper(AsStr(b))
  {
  }

  lemma CodeIsLowercasePhilemonToHebrews(b: BibleBook)
    requires b.Philemon? || b.Hebrews?
    ensures NoAsciiUpper(AsStr(b))
  {
  }

  lemma CodeIsLowercaseJamesToFirstPeter(b: BibleBook)
    requires b.James? || b.FirstPeter?
    ensures NoAsciiUpper(AsStr(b))
  {
  }

  lemma CodeIsLowercaseSecondPeterToFirstJohn(b: BibleBook)
    requires b.SecondPeter? || b.FirstJohn?
    ensures NoAsciiUpper(AsStr(b))
  {
  }

  lemma CodeIsLowercaseSecondJohnToThirdJohn(b: BibleBook)
    requires b.SecondJohn? || b.ThirdJohn?
    ensures NoAsciiUpper(AsStr(b))
  {
  }

  lemma CodeIsLowercaseJudeToRevelation(b: BibleBook)
    requires b.Jude? || b.Revelation?
    ensures NoAsciiUpper(AsStr(b))
  {
  }

  lemma CodeIsLowercaseTobitToJudith(b: BibleBook)
    requires b.Tobit? || b.Judith?
    ensures NoAsciiUpper(AsStr(b))
  {
  }

  lemma CodeIsLowercaseWisdomToSirach(b: BibleBook)
    requires b.Wisdom? || b.Sirach?
    ensures NoAsciiUpper(AsStr(b))
  {
  }

  lemma CodeIsLowercaseBaruchToFirstMaccabees(b: BibleBook)
    requires b.Baruch? || b.FirstMaccabees?
    ensures NoAsciiUpper(AsStr(b))
  {
  }

  lemma CodeIsLowercaseSecondMaccabeesToEstherAdditions(b: BibleBook)
    requires b.SecondMaccabees? || b.EstherAdditions?
    ensures NoAsciiUpper(AsStr(b))
  {
  }

  lemma CodeIsLowercaseDanielSongOfThreeToDanielSusanna(b: BibleBook)
    requires b.DanielSongOfThree? || b.DanielSusanna?
    ensures NoAsciiUpper(AsStr(b))
  {
  }

  lemma CodeIsLowercaseDanielBelAndTheDragonToFirstEsdras(b: BibleBook)
    requires b.DanielBelAndTheDragon? || b.FirstEsdras?
    ensures NoAsciiUpper(AsStr(b))
  {
  }

  lemma CodeIsLowercaseSecondEsdrasToPrayerOfManasseh(b: BibleBook)
    requires b.SecondEsdras? || b.PrayerOfManasseh?
    ensures NoAsciiUpper(AsStr(b))
  {
  }

  lemma CodeIsLowercasePsalm151ToThirdMaccabees(b: BibleBook)
    requires b.Psalm151? || b.ThirdMaccabees?
    ensures NoAsciiUpper(AsStr(b))
  {
  }

  lemma CodeIsLowercaseFourthMaccabees(b: BibleBook)
    requires b.FourthMaccabees?
    ensures NoAsciiUpper(AsStr(b))
  {
  }

  /** Each code finds its own book in the `from_str` table (proved a few books at a time). */
  lemma FromCodeAsStr(b: BibleBook)
    ensures FromCode(AsStr(b)) == Some(b)
  {
    if InArms1To12(b) { FromCodeAsStrGenesisToSecondKings(b); }
    else if InArms13To24(b) { FromCodeAsStrFirstChroniclesToJeremiah(b); }
    else if b.Lamentations? || b.Ezekiel? || b.Daniel? || b.Hosea? || b.Joel? || b.Amos? { FromCodeAsStrLamentationsToAmos(b); }
    else if b.Obadiah? || b.Jonah? || b.Micah? || b.Nahum? || b.Habakkuk? || b.Zephaniah? { FromCodeAsStrObadiahToZephaniah(b); }
    else if b.Haggai? || b.Zechariah? || b.Malachi? { FromCodeAsStrHaggaiToMalachi(b); }
    else if b.Matthew? || b.Mark? || b.Luke? { FromCodeAsStrMatthewToLuke(b); }
    else if b.John? || b.Acts? || b.Romans? { FromCodeAsStrJohnToRomans(b); }
    else if b.FirstCorinthians? || b.SecondCorinthians? || b.Galatians? { FromCodeAsStrFirstCorinthiansToGalatians(b); }
    else if b.Ephesians? || b.Philippians? || b.Colossians? || b.FirstThessalonians? { FromCodeAsStrEphesiansToFirstThessalonians(b); }
    else if b.SecondThessalonians? || b.FirstTimothy? { FromCodeAsStrSecondThessaloniansToFirstTimothy(b); }
    else if b.SecondTimothy? || b.Titus? { FromCodeAsStrSecondTimothyToTitus(b); }
    else if b.Philemon? || b.Hebrews? { FromCodeAsStrPhilemonToHebrews(b); }
    else if b.James? || b.FirstPeter? { FromCodeAsStrJamesToFirstPeter(b); }
    else if b.SecondPeter? || b.FirstJohn? { FromCodeAsStrSecondPeterToFirstJohn(b); }
    else if b.SecondJohn? || b.ThirdJohn? { FromCodeAsStrSecondJohnToThirdJohn(b); }
    else if b.Jude? || b.Revelation? { FromCodeAsStrJudeToRevelation(b); }
    else if b.Tobit? || b.Judith? { FromCodeAsStrTobitToJudith(b); }
    else if b.Wisdom? || b.Sirach? { FromCodeAsStrWisdomToSirach(b); }
    else if b.Baruch? || b.FirstMaccabees? { FromCodeAsStrBaruchToFirstMaccabees(b); }
    else if b.SecondMaccabees? || b.EstherAdditions? { FromCodeAsStrSecondMaccabeesToEstherAdditions(b); }
    else if b.DanielSongOfThree? || b.DanielSusanna? { FromCodeAsStrDanielSongOfThreeToDanielSusanna(b); }
    else if b.DanielBelAndTheDragon? || b.FirstEsdras? { FromCodeAsStrDanielBelAndTheDragonToFirstEsdras(b); }
    else if b.SecondEsdras? || b.PrayerOfManasseh? { FromCodeAsStrSecondEsdrasToPrayerOfManasseh(b); }
    else if b.Psalm151? || b.ThirdMaccabees? { FromCodeAsStrPsalm151ToThirdMaccabees(b); }
    else { FromCodeAsStrFourthMaccabees(b); }
  }

  lemma FromCodeAsStrGenesisToSecondKings(b: BibleBook)
    requires InArms1To12(b)
    ensures FromCode(AsStr(b)) == Some(b)
  {
  }

  lemma FromCodeAsStrFirstChroniclesToJeremiah(b: BibleBook)
    requires InArms13To24(b)
    ensures FromCode(AsStr(b)) == Some(b)
  {
  }

  lemma FromCodeAsStrLamentationsToAmos(b: BibleBook)
    requires b.Lamentations? || b.Ezekiel? || b.Daniel? || b.Hosea? || b.Joel? || b.Amos?
    ensures FromCode(AsStr(b)) == Some(b)
  {
  }

  lemma FromCodeAsStrObadiahToZephaniah(b: BibleBook)
    requires b.Obadiah? || b.Jonah? || b.Micah? || b.Nahum? || b.Habakkuk? || b.Zephaniah?
    ensures FromCode(AsStr(b)) == Some(b)
  {
  }

  lemma FromCodeAsStrHaggaiToMalachi(b: BibleBook)
    requires b.Haggai? || b.Zechariah? || b.Malachi?
    ensures FromCode(AsStr(b)) == Some(b)
  {
  }

  lemma FromCodeAsStrMatthewToLuke(b: BibleBook)
    requires b.Matthew? || b.Mark? || b.Luke?
    ensures FromCode(AsStr(b)) == Some(b)
  {
  }

  lemma FromCodeAsStrJohnToRomans(b: BibleBook)
    requires b.John? || b.Acts? || b.Romans?
    ensures FromCode(AsStr(b)) == Some(b)
  {
  }

  lemma FromCodeAsStrFirstCorinthiansToGalatians(b: BibleBook)
    requires b.FirstCorinthians? || b.SecondCorinthians? || b.Galatians?
    ensures FromCode(AsStr(b)) == Some(b)
  {
  }

  lemma FromCodeAsStrEphesiansToFirstThessalonians(b: BibleBook)
    requires b.Ephesians? || b.Philippians? || b.Colossians? || b.FirstThessalonians?
    ensures FromCode(AsStr(b)) == Some(b)
  {
  }

  lemma FromCodeAsStrSecondThessaloniansToFirstTimothy(b: BibleBook)
    requires b.SecondThessalonians? || b.FirstTimothy?
    ensures FromCode(AsStr(b)) == Some(b)
  {
  }

  lemma FromCodeAsStrSecondTimothyToTitus(b: BibleBook)
    requires b.SecondTimothy? || b.Titus?
    ensures FromCode(AsStr(b)) == Some(b)
  {
  }

  lemma FromCodeAsStrPhilemonToHebrews(b: BibleBook)
    requires b.Philemon? || b.Hebrews?
    ensures FromCode(AsStr(b)) == Some(b)
  {
  }

  lemma FromCodeAsStrJamesToFirstPeter(b: BibleBook)
    requires b.James? || b.FirstPeter?
    ensures FromCode(AsStr(b)) == Some(b)
  {
  }

  lemma FromCodeAsStrSecondPeterToFirstJohn(b: BibleBook)
    requires b.SecondPeter? || b.FirstJohn?
    ensures FromCode(AsStr(b)) == Some(b)
  {
  }

  lemma FromCodeAsStrSecondJohnToThirdJohn(b: BibleBook)
    requires b.SecondJohn? || b.ThirdJohn?
    ensures FromCode(AsStr(b)) == Some(b)
  {
  }

  lemma FromCodeAsStrJudeToRevelation(b: BibleBook)
    requires b.Jude? || b.Revelation?
    ensures FromCode(AsStr(b)) == Some(b)
  {
  }

  lemma FromCodeAsStrTobitToJudith(b: BibleBook)
    requires b.Tobit? || b.Judith?
    ensures FromCode(AsStr(b)) == Some(b)
  {
  }

  lemma FromCodeAsStrWisdomToSirach(b: BibleBook)
    requires b.Wisdom? || b.Sirach?
    ensures FromCode(AsStr(b)) == Some(b)
  {
  }

  lemma FromCodeAsStrBaruchToFirstMaccabees(b: BibleBook)
    requires b.Baruch? || b.FirstMaccabees?
    ensures FromCode(AsStr(b)) == Some(b)
  {
  }

  lemma FromCodeAsStrSecondMaccabeesToEstherAdditions(b: BibleBook)
    requires b.SecondMaccabees? || b.EstherAdditions?
    ensures FromCode(AsStr(b)) == Some(b)
  {
  }

  lemma FromCodeAsStrDanielSongOfThreeToDanielSusanna(b: BibleBook)
    requires b.DanielSongOfThree? || b.DanielSusanna?
    ensures FromCode(AsStr(b)) == Some(b)
  {
  }

  lemma FromCodeAsStrDanielBelAndTheDragonToFirstEsdras(b: BibleBook)
    requires b.DanielBelAndTheDragon? || b.FirstEsdras?
    ensures FromCode(AsStr(b)) == Some(b)
  {
  }

  lemma FromCodeAsStrSecondEsdrasToPrayerOfManasseh(b: BibleBook)
    requires b.SecondEsdras? || b.PrayerOfManasseh?
    ensures FromCode(AsStr(b)) == Some(b)
  {
  }

  lemma FromCodeAsStrPsalm151ToThirdMaccabees(b: BibleBook)
    requires b.Psalm151? || b.ThirdMaccabees?
    ensures FromCode(AsStr(b)) == Some(b)
  {
  }

  lemma FromCodeAsStrFourthMaccabees(b: BibleBook)
    requires b.FourthMaccabees?
    ensures FromCode(AsStr(b)) == Some(b)
  {
  }

  /** The `from_str` table accepts the 83 codes and nothing else. */
  lemma FromCodeOnlyCodes(code: string)
    ensures FromCode(code).Some? ==> code == AsStr(FromCode(code).value)
  {
    if FromCodeArms1To12(code).Some? { FromCodeArms1To12OnlyCodes(code, FromCodeArms1To12(code).value); }
    if FromCodeArms13To24(code).Some? { FromCodeArms13To24OnlyCodes(code, FromCodeArms13To24(code).value); }
    if FromCodeArms25To36(code).Some? { FromCodeArms25To36OnlyCodes(code, FromCodeArms25To36(code).value); }
    if FromCodeArms37To48(code).Some? { FromCodeArms37To48OnlyCodes(code, FromCodeArms37To48(code).value); }
    if FromCodeArms49To60(code).Some? { FromCodeArms49To60OnlyCodes(code, FromCodeArms49To60(code).value); }
    if FromCodeArms61To72(code).Some? { FromCodeArms61To72OnlyCodes(code, FromCodeArms61To72(code).value); }
    if FromCodeArms73To83(code).Some? { FromCodeArms73To83OnlyCodes(code, FromCodeArms73To83(code).value); }
  }

  /** The books named by arms 1 to 12. */
  predicate InArms1To12(b: BibleBook) {
    b.Genesis? || b.Exodus? || b.Leviticus? || b.Numbers? || b.Deuteronomy? || b.Joshua?
    || b.Judges? || b.Ruth? || b.FirstSamuel? || b.SecondSamuel? || b.FirstKings?
    || b.SecondKings?
  }

  lemma FromCodeArms1To12Books(code: string)
    ensures FromCodeArms1To12(code).Some? ==> InArms1To12(FromCodeArms1To12(code).value)
  {
  }

  lemma FromCodeArms1To12OnlyCodes(code: string, b: BibleBook)
    requires FromCodeArms1To12(code) == Some(b)
    ensures code == AsStr(b)
  {
    FromCodeArms1To12Books(code);
  }

  /** The books named by arms 13 to 24. */
  predicate InArms13To24(b: BibleBook) {
    b.FirstChronicles? || b.SecondChronicles? || b.Ezra? || b.Nehemiah? || b.Esther? || b.Job?
    || b.Psalms? || b.Proverbs? || b.Ecclesiastes? || b.SongOfSolomon? || b.Isaiah?
    || b.Jeremiah?
  }

  lemma FromCodeArms13To24Books(code: string)
    ensures FromCodeArms13To24(code).Some? ==> InArms13To24(FromCodeArms13To24(code).value)
  {
  }

  lemma FromCodeArms13To24OnlyCodes(code: string, b: BibleBook)
    requires FromCodeArms13To24(code) == Some(b)
    ensures code == AsStr(b)
  {
    FromCodeArms13To24Books(code);
  }

  /** The books named by arms 25 to 36. */
  predicate InArms25To36(b: BibleBook) {
    b.Lamentations? || b.Ezekiel? || b.Daniel? || b.Hosea? || b.Joel? || b.Amos? || b.Obadiah?
    || b.Jonah? || b.Micah? || b.Nahum? || b.Habakkuk? || b.Zephaniah?
  }

  lemma FromCodeArms25To36Books(code: string)
    ensures FromCodeArms25To36(code).Some? ==> InArms25To36(FromCodeArms25To36(code).value)
  {
  }

  lemma FromCodeArms25To36OnlyCodes(code: string, b: BibleBook)
    requires FromCodeArms25To36(code) == Some(b)
    ensures code == AsStr(b)
  {
    FromCodeArms25To36Books(code);
  }

  /** The books named by arms 37 to 48. */
  predicate InArms37To48(b: BibleBook) {
    b.Haggai? || b.Zechariah? || b.Malachi? || b.Matthew? || b.Mark? || b.Luke? || b.John?
    || b.Acts? || b.Romans? || b.FirstCorinthians? || b.SecondCorinthians? || b.Galatians?
  }

  lemma FromCodeArms37To48Books(code: string)
    ensures FromCodeArms37To48(code).Some? ==> InArms37To48(FromCodeArms37To48(code).value)
  {
  }

  lemma FromCodeArms37To48OnlyCodes(code: string, b: BibleBook)
    requires FromCodeArms37To48(code) == Some(b)
    ensures code == AsStr(b)
  {
    FromCodeArms37To48Books(code);
  }

  /** The books named by arms 49 to 60. */
  predicate InArms49To60(b: BibleBook) {
    b.Ephesians? || b.Philippians? || b.Colossians? || b.FirstThessalonians?
    || b.SecondThessalonians? || b.FirstTimothy? || b.SecondTimothy? || b.Titus? || b.Philemon?
    || b.Hebrews? || b.James? || b.FirstPeter?
  }

  lemma FromCodeArms49To60Books(code: string)
    ensures FromCodeArms49To60(code).Some? ==> InArms49To60(FromCodeArms49To60(code).value)
  {
  }

  lemma FromCodeArms49To60OnlyCodes(code: string, b: BibleBook)
    requires FromCodeArms49To60(code) == Some(b)
    ensures code == AsStr(b)
  {
    FromCodeArms49To60Books(code);
  }

  /** The books named by arms 61 to 72. */
  predicate InArms61To72(b: BibleBook) {
    b.SecondPeter? || b.FirstJohn? || b.SecondJohn? || b.ThirdJohn? || b.Jude? || b.Revelation?
    || b.Tobit? || b.Judith? || b.Wisdom? || b.Sirach? || b.Baruch? || b.FirstMaccabees?
  }

  lemma FromCodeArms61To72Books(code: string)
    ensures FromCodeArms61To72(code).Some? ==> InArms61To72(FromCodeArms61To72(code).value)
  {
  }

  lemma FromCodeArms61To72OnlyCodes(code: string, b: BibleBook)
    requires FromCodeArms61To72(code) == Some(b)
    ensures code == AsStr(b)
  {
    FromCodeArms61To72Books(code);
  }

  /** The books named by arms 73 to 83. */
  predicate InArms73To83(b: BibleBook) {
    b.SecondMaccabees? || b.EstherAdditions? || b.DanielSongOfThree? || b.DanielSusanna?
    || b.DanielBelAndTheDragon? || b.FirstEsdras? || b.SecondEsdras? || b.PrayerOfManasseh?
    || b.Psalm151? || b.ThirdMaccabees? || b.FourthMaccabees?
  }

  lemma FromCodeArms73To83Books(code: string)
    ensures FromCodeArms73To83(code).Some? ==> InArms73To83(FromCodeArms73To83(code).value)
  {
  }

  lemma FromCodeArms73To83OnlyCodes(code: string, b: BibleBook)
    requires FromCodeArms73To83(code) == Some(b)
    ensures code == AsStr(b)
  {
    FromCodeArms73To83Books(code);
  }

  /** Every code round-trips: `from_str(b.as_str()) == Ok(b)`. */
  lemma FromStrAsStr(b: BibleBook)
    ensures FromStr(AsStr(b)) == Some(b)
  {
    CodeIsLowercase(b);
    LowerOfNoUpper(AsStr(b));
    FromCodeAsStr(b);
  }

  /** `from_str(s)` succeeds with `b` exactly when `s` lowercases to `b`'s code. */
  lemma FromStrCharacterized(s: string, b: BibleBook)
    ensures FromStr(s) == Some(b) <==> Lower(s) == AsStr(b)
  {
    if FromStr(s) == Some(b) {
      FromCodeOnlyCodes(Lower(s));
    }
    FromCodeAsStr(b);
  }

  /** Case does not matter to `from_str`. */
  lemma FromStrIgnoresCase(s: string, t: string)
    requires EqIgnoreAsciiCase(s, t)
    ensures FromStr(s) == FromStr(t)
  {
  }

  /** No two books share a code. */
  lemma AsStrInjective(a: BibleBook, b: BibleBook)
    requires AsStr(a) == AsStr(b)
    ensures a == b
  {
    FromCodeAsStr(a);
    FromCodeAsStr(b);
  }

  /** Upper-case input is accepted: "JO" is John. */
  lemma FromStrUpperCaseExample()
    ensures FromStr("JO") == Some(John)
  {
    assert Lower("JO") == AsStr(John);
    FromStrCharacterized("JO", John);
  }

  /** Unknown input is rejected, as the unit tests of `from_str` require. */
  lemma FromStrRejectsEmpty()
    ensures FromStr("") == None
  {
    LowerOfNoUpper("");
  }

  lemma FromStrRejectsXyz()
    ensures FromStr("xyz") == None
  {
    LowerOfNoUpper("xyz");
  }

  lemma FromStrRejectsInvalid()
    ensures FromStr("invalid") == None
  {
    LowerOfNoUpper("invalid");
  }

  /** The codes the unit tests pin down, among them the easily confused jn/jo and jud/jd. */
  lemma FixedCodesJonahJohn()
    ensures AsStr(Jonah) == "jn" && AsStr(John) == "jo"
  {
    FromCodeArms25To36OnlyCodes("jn", Jonah);
    FromCodeArms37To48OnlyCodes("jo", John);
  }

  lemma FixedCodesJudgesJude()
    ensures AsStr(Judges) == "jud" && AsStr(Jude) == "jd"
  {
    FromCodeArms1To12OnlyCodes("jud", Judges);
    FromCodeArms61To72OnlyCodes("jd", Jude);
  }

  lemma FixedCodesFirstKingsPsalm151()
    ensures AsStr(FirstKings) == "1kgs" && AsStr(Psalm151) == "ps151"
  {
    FromCodeArms1To12OnlyCodes("1kgs", FirstKings);
    FromCodeArms73To83OnlyCodes("ps151", Psalm151);
  }

  /** Full names from the full-name test of the canonical and deuterocanonical books. */
  lemma FullNameCanonicalExamples()
    ensures FullName(Genesis) == "Genesis"
    ensures FullName(Psalms) == "Psalms"
    ensures FullName(Revelation) == "Revelation"
  {
  }

  lemma FullNameTobitExample()
    ensures FullName(Tobit) == "Tobit"
  {
  }

  lemma FullNameBelExample()
    ensures FullName(DanielBelAndTheDragon) == "Daniel (Bel and the Dragon)"
  {
  }

  lemma FullNameFourthMaccabeesExample()
    ensures FullName(FourthMaccabees) == "4 Maccabees"
  {
  }
}
