/** The three constant lookup tables of books.py: `triple_shortcuts` (lines
    14-81), `friendly_shortcuts` (lines 84-151) and `twin_shortcuts` (lines
    153-220).

    Each table is written in book order, and every value in it is the number of
    the book of its line. The model therefore lists each table by book number:
    the key or keys the source maps to book `id`. The lookup `key in t` /
    `t[key]` is then "the book whose listing contains `key`"; were a key listed
    twice, a Python dict display would keep the later value, and so does `Get`. */
module Shortcuts {
  import opened Wrappers

  /** A canonical book number: 1 is Genesis, 66 is Revelation. */
  type BookId = id: int | 1 <= id <= 66 witness 1

  /** The key `triple_shortcuts` maps to `id`. */
  function TripleCode(id: BookId): string {
    match id
    case 1 => "GEN"
    case 2 => "EXO"
    case 3 => "LEV"
    case 4 => "NUM"
    case 5 => "DEU"
    case 6 => "JOS"
    case 7 => "JDG"
    case 8 => "RUT"
    case 9 => "1SA"
    case 10 => "2SA"
    case 11 => "1KI"
    case 12 => "2KI"
    case 13 => "1CH"
    case 14 => "2CH"
    case 15 => "EZR"
    case 16 => "NEH"
    case 17 => "EST"
    case 18 => "JOB"
    case 19 => "PSA"
    case 20 => "PRO"
    case 21 => "ECC"
    case 22 => "SNG"
    case 23 => "ISA"
    case 24 => "JER"
    case 25 => "LAM"
    case 26 => "EZK"
    case 27 => "DAN"
    case 28 => "HOS"
    case 29 => "JOL"
    case 30 => "AMO"
    case 31 => "OBA"
    case 32 => "JON"
    case 33 => "MIC"
    case 34 => "NAM"
    case 35 => "HAB"
    case 36 => "ZEP"
    case 37 => "HAG"
    case 38 => "ZEC"
    case 39 => "MAL"
    case 40 => "MAT"
    case 41 => "MRK"
    case 42 => "LUK"
    case 43 => "JHN"
    case 44 => "ACT"
    case 45 => "ROM"
    case 46 => "1CO"
    case 47 => "2CO"
    case 48 => "GAL"
    case 49 => "EPH"
    case 50 => "PHP"
    case 51 => "COL"
    case 52 => "1TH"
    case 53 => "2TH"
    case 54 => "1TI"
    case 55 => "2TI"
    case 56 => "TIT"
    case 57 => "PHM"
    case 58 => "HEB"
    case 59 => "JAS"
    case 60 => "1PE"
    case 61 => "2PE"
    case 62 => "1JN"
    case 63 => "2JN"
    case 64 => "3JN"
    case 65 => "JUD"
    case 66 => "REV"
  }

  /** The key `twin_shortcuts` maps to `id`. */
  function TwinCode(id: BookId): string {
    match id
    case 1 => "GN"
    case 2 => "EX"
    case 3 => "LV"
    case 4 => "NU"
    case 5 => "DT"
    case 6 => "JS"
    case 7 => "JG"
    case 8 => "RT"
    case 9 => "S1"
    case 10 => "S2"
    case 11 => "K1"
    case 12 => "K2"
    case 13 => "R1"
    case 14 => "R2"
    case 15 => "ER"
    case 16 => "NH"
    case 17 => "ET"
    case 18 => "JB"
    case 19 => "PS"
    case 20 => "PR"
    case 21 => "EC"
    case 22 => "SS"
    case 23 => "IS"
    case 24 => "JR"
    case 25 => "LM"
    case 26 => "EK"
    case 27 => "DN"
    case 28 => "HS"
    case 29 => "JL"
    case 30 => "AM"
    case 31 => "OB"
    case 32 => "JH"
    case 33 => "MC"
    case 34 => "NM"
    case 35 => "HK"
    case 36 => "ZP"
    case 37 => "HG"
    case 38 => "ZC"
    case 39 => "ML"
    case 40 => "MT"
    case 41 => "MK"
    case 42 => "LK"
    case 43 => "JN"
    case 44 => "AC"
    case 45 => "RM"
    case 46 => "C1"
    case 47 => "C2"
    case 48 => "GL"
    case 49 => "EP"
    case 50 => "PP"
    case 51 => "CL"
    case 52 => "H1"
    case 53 => "H2"
    case 54 => "T1"
    case 55 => "T2"
    case 56 => "TT"
    case 57 => "PM"
    case 58 => "HB"
    case 59 => "JM"
    case 60 => "P1"
    case 61 => "P2"
    case 62 => "J1"
    case 63 => "J2"
    case 64 => "J3"
    case 65 => "JD"
    case 66 => "RV"
  }

  /** The keys `friendly_shortcuts` maps to `id`, in the order of the book's
      source line. The listing is split into runs of at most five books,
      each small enough for the verifier to check facts about it on its own. */
  function FriendlyKeys(id: BookId): seq<string> {
    if id <= 5 then LawKeys(id)
    else if id <= 8 then JoshuaToRuthKeys(id)
    else if id <= 12 then SamuelAndKingsKeys(id)
    else if id <= 17 then ChroniclesToEstherKeys(id)
    else if id <= 22 then PoetryKeys(id)
    else if id <= 27 then MajorProphetsKeys(id)
    else if id <= 32 then HoseaToJonahKeys(id)
    else if id <= 36 then MicahToZephaniahKeys(id)
    else if id <= 39 then HaggaiToMalachiKeys(id)
    else if id <= 44 then GospelsAndActsKeys(id)
    else if id <= 48 then RomansToGalatiansKeys(id)
    else if id <= 53 then EphesiansToThessaloniansKeys(id)
    else if id <= 57 then PaulinePersonalLettersKeys(id)
    else if id <= 61 then HebrewsToSecondPeterKeys(id)
    else if id <= 65 then JohnToJudeKeys(id)
    else ["REV", "Rev", "Revelation", "REVELATION"]  // Revelation
  }

  /** `friendly_shortcuts` lines for Genesis to Deuteronomy. */
  function LawKeys(id: int): seq<string>
    requires 1 <= id <= 5
  {
    match id
    case 1 => ["GEN", "Gen", "GENESIS", "Genesis"]
    case 2 => ["EXO", "Exo", "EXODUS", "Exodus"]
    case 3 => ["LEV", "Lev", "LEVITICUS", "Leviticus"]
    case 4 => ["NUM", "Num", "NUMBERS", "Numbers"]
    case 5 => ["DEU", "Deu", "DEUTERONOMY", "Deuteronomy"]
  }

  /** `friendly_shortcuts` lines for Joshua, Judges and Ruth. */
  function JoshuaToRuthKeys(id: int): seq<string>
    requires 6 <= id <= 8
  {
    match id
    case 6 => ["JOS", "Jos", "JOSHUA", "Joshua"]
    case 7 => ["JDG", "Jdg", "JUDGES", "Judges"]
    case 8 => ["RUT", "Rut", "RUTH", "Ruth"]
  }

  /** `friendly_shortcuts` lines for the books of Samuel and Kings. */
  function SamuelAndKingsKeys(id: int): seq<string>
    requires 9 <= id <= 12
  {
    match id
    case 9 => ["1SA", "1Sa", "1SAMUEL", "1Samuel", "1 Samuel"]
    case 10 => ["2SA", "2Sa", "2SAMUEL", "2Samuel", "2 Samuel"]
    case 11 => ["1KI", "1Ki", "1KINGS", "1Kings", "1 Kings"]
    case 12 => ["2KI", "2Ki", "2KINGS", "2Kings", "2 Kings"]
  }

  /** `friendly_shortcuts` lines for Chronicles to Esther. */
  function ChroniclesToEstherKeys(id: int): seq<string>
    requires 13 <= id <= 17
  {
    match id
    case 13 => ["1CH", "1Ch", "1CHRONICLES", "1Chronicles", "1 Chronicles"]
    case 14 => ["2CH", "2Ch", "2CHRONICLES", "2Chronicles", "2 Chronicles"]
    case 15 => ["EZR", "Ezr", "EZRA", "Ezra"]
    case 16 => ["NEH", "Neh", "NEHEMIAH", "Nehemiah"]
    case 17 => ["EST", "Est", "ESTHER", "Esther"]
  }

  /** `friendly_shortcuts` lines for Job to Song of Solomon. */
  function PoetryKeys(id: int): seq<string>
    requires 18 <= id <= 22
  {
    match id
    case 18 => ["JOB", "Job"]
    case 19 => ["PSA", "Psa", "PS", "Ps", "PSALM", "Psalm", "PSALMS", "Psalms"]
    case 20 => ["PRO", "Pro", "PROVERBS", "Proverbs"]
    case 21 => ["ECC", "Ecc", "ECCLESIASTES", "Ecclesiastes"]
    case 22 => ["SNG", "Sng", "SONG", "Song", "SONG OF SOLOMON", "Song of Solomon", "SONG OF SONGS", "Song of Songs"]
  }

  /** `friendly_shortcuts` lines for Isaiah to Daniel. */
  function MajorProphetsKeys(id: int): seq<string>
    requires 23 <= id <= 27
  {
    match id
    case 23 => ["ISA", "Isa", "ISAIAH", "Isaiah"]
    case 24 => ["JER", "Jer", "JEREMIAH", "Jeremiah"]
    case 25 => ["LAM", "Lam", "LAMENTATIONS", "Lamentations"]
    case 26 => ["EZK", "Ezk", "EZE", "Eze", "EZEKIEL", "Ezekiel"]
    case 27 => ["DAN", "Dan", "DANIEL", "Daniel"]
  }

  /** `friendly_shortcuts` lines for Hosea to Jonah. */
  function HoseaToJonahKeys(id: int): seq<string>
    requires 28 <= id <= 32
  {
    match id
    case 28 => ["HOS", "Hos", "HOSEA", "Hosea"]
    case 29 => ["JOL", "Joe", "Joel", "JOEL"]
    case 30 => ["AMO", "Amo", "Amos", "AMOS"]
    case 31 => ["OBA", "Oba", "Obadiah", "OBADIAH"]
    case 32 => ["JON", "Jon", "Jonah", "JONAH"]
  }

  /** `friendly_shortcuts` lines for Micah to Zephaniah. */
  function MicahToZephaniahKeys(id: int): seq<string>
    requires 33 <= id <= 36
  {
    match id
    case 33 => ["MIC", "Mic", "Micah", "MICAH"]
    case 34 => ["NAM", "Nam", "Nah", "Nahum", "NAHUM"]
    case 35 => ["HAB", "Hab", "Habakkuk", "HABAKKUK"]
    case 36 => ["ZEP", "Zep", "Zephaniah", "ZEPHANIAH"]
  }

  /** `friendly_shortcuts` lines for Haggai to Malachi. */
  function HaggaiToMalachiKeys(id: int): seq<string>
    requires 37 <= id <= 39
  {
    match id
    case 37 => ["HAG", "Hag", "Haggai", "HAGGAI"]
    case 38 => ["ZEC", "Zec", "Zechariah", "ZECHARIAH"]
    case 39 => ["MAL", "Mal", "Malachi", "MALACHI"]
  }

  /** `friendly_shortcuts` lines for Matthew to Acts. */
  function GospelsAndActsKeys(id: int): seq<string>
    requires 40 <= id <= 44
  {
    match id
    case 40 => ["MAT", "Mat", "Matt", "MATT", "MATTHEW", "Matthew"]
    case 41 => ["MRK", "Mrk", "Mark", "MARK"]
    case 42 => ["LUK", "Luk", "Luke", "LUKE"]
    case 43 => ["JHN", "Jhn", "John", "JOHN"]
    case 44 => ["ACT", "Act", "Acts", "ACTS"]
  }

  /** `friendly_shortcuts` lines for Romans to Galatians. */
  function RomansToGalatiansKeys(id: int): seq<string>
    requires 45 <= id <= 48
  {
    match id
    case 45 => ["ROM", "Rom", "Romans", "ROMANS"]
    case 46 => ["1CO", "1Co", "1COR", "1Cor", "1CORINTHIANS", "1Corinthians", "1 Corinthians"]
    case 47 => ["2CO", "2Co", "2COR", "2Cor", "2CORINTHIANS", "2Corinthians", "2 Corinthians"]
    case 48 => ["GAL", "Gal", "Galatians", "GALATIANS"]
  }

  /** `friendly_shortcuts` lines for Ephesians to 2 Thessalonians. */
  function EphesiansToThessaloniansKeys(id: int): seq<string>
    requires 49 <= id <= 53
  {
    match id
    case 49 => ["EPH", "Eph", "Ephesians", "EPHESIANS"]
    case 50 => ["PHP", "Php", "Phil", "PHIL", "Philippians", "PHILIPPIANS"]
    case 51 => ["COL", "Col", "Colossians", "COLOSSIANS"]
    case 52 => ["1TH", "1Th", "1THESS", "1Thess", "1THESSALONIANS", "1Thessalonians", "1 Thessalonians"]
    case 53 => ["2TH", "2Th", "2THESS", "2Thess", "2THESSALONIANS", "2Thessalonians", "2 Thessalonians"]
  }

  /** `friendly_shortcuts` lines for 1 Timothy to Philemon. */
  function PaulinePersonalLettersKeys(id: int): seq<string>
    requires 54 <= id <= 57
  {
    match id
    case 54 => ["1TI", "1Ti", "1TIM", "1Tim", "1TIMOTHY", "1Timothy", "1 Timothy"]
    case 55 => ["2TI", "2Ti", "2TIM", "2Tim", "2TIMOTHY", "2Timothy", "2 Timothy"]
    case 56 => ["TIT", "Tit", "TITUS", "Titus"]
    case 57 => ["PHM", "Phm", "Philemon", "PHILEMON"]
  }

  /** `friendly_shortcuts` lines for Hebrews to 2 Peter. */
  function HebrewsToSecondPeterKeys(id: int): seq<string>
    requires 58 <= id <= 61
  {
    match id
    case 58 => ["HEB", "Heb", "Hebrews", "HEBREWS"]
    case 59 => ["JAS", "Jas", "James", "JAMES"]
    case 60 => ["1PE", "1Pe", "1PET", "1Pet", "1PETER", "1Peter", "1 Peter"]
    case 61 => ["2PE", "2Pe", "2PET", "2Pet", "2PETER", "2Peter", "2 Peter"]
  }

  /** `friendly_shortcuts` lines for 1 John to Jude. */
  function JohnToJudeKeys(id: int): seq<string>
    requires 62 <= id <= 65
  {
    match id
    case 62 => ["1JN", "1Jn", "1JOHN", "1John", "1 John"]
    case 63 => ["2JN", "2Jn", "2JOHN", "2John", "2 John"]
    case 64 => ["3JN", "3Jn", "3JOHN", "3John", "3 John"]
    case 65 => ["JUD", "Jud", "Jude", "JUDE"]
  }

  /** The three shortcut tables. */
  datatype Table = Triple | Friendly | Twin

  /** The keys `t` maps to book `id`. */
  function Keys(t: Table, id: BookId): seq<string> {
    match t
    case Triple => [TripleCode(id)]
    case Friendly => FriendlyKeys(id)
    case Twin => [TwinCode(id)]
  }

  /** `t[key] if key in t else None`: the book whose listing in `t` contains
      `key` (the last one, were there several), or `None` when `key` is not a
      key of `t`. */
  function Get(t: Table, key: string): (r: Option<BookId>)
    ensures r.Some? ==> key in Keys(t, r.value)
    ensures r.Some? ==> forall j: BookId | r.value < j :: key !in Keys(t, j)
    ensures r.None? <==> forall j: BookId :: key !in Keys(t, j)
  {
    var listing := (id: BookId) => Keys(t, id);
    assert forall j: BookId :: listing(j) == Keys(t, j);
    LastListing(listing, key, 66)
  }

  /** The last of books 1..n whose entry in `listing` contains `key`. */
  function LastListing(listing: BookId -> seq<string>, key: string, n: nat): (r: Option<BookId>)
    requires n <= 66
    ensures r.Some? ==> r.value <= n && key in listing(r.value)
    ensures r.Some? ==> forall j: BookId | r.value < j <= n :: key !in listing(j)
    ensures r.None? <==> forall j: BookId | j <= n :: key !in listing(j)
    decreases n
  {
    if n == 0 then None
    else if key in listing(n) then Some(n)
    else LastListing(listing, key, n - 1)
  }

  /** The keys of `t`. */
  function KeySet(t: Table): set<string> {
    set id: int, k | 1 <= id <= 66 && k in Keys(t, id) :: k
  }
}
