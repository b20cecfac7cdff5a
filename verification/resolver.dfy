/** `get_book_id(translation, book_slug)` (books.py lines 233-265): the
    cascade that turns a user's book reference into a book number.

    1. a number, or a string Python's `int()` accepts, is returned as that
       integer;
    2. a key of `friendly_shortcuts`, matched exactly;
    3. the upper-cased reference as a key of `triple_shortcuts`;
    4. the upper-cased reference as a key of `twin_shortcuts`;
    5. the first book of the translation whose lower-cased name equals the
       lower-cased reference;
    6. the book with the highest non-zero `score_search` score, the earliest
       one on a tie;
    7. otherwise a `ValueError`.

    Stages 5 to 7 read `BOOKS[translation]`, which raises `KeyError` when the
    translation is not in `BOOKS`. */
module Resolver {
  import opened Wrappers
  import opened Ascii
  import opened PyInt
  import opened Shortcuts
  import opened BookScan

  /** The `book_slug` argument: a Python `int`, or a string. */
  datatype BookRef = Number(n: int) | Slug(s: string)

  /** `BOOKS`: the book list of every translation code. */
  type Books = map<string, seq<BookRecord>>

  /** What a call of `get_book_id` comes to: a book number, or the exception
      it raises. */
  datatype Outcome = Resolved(id: int) | ValueError(message: string) | KeyError(key: string)

  /** `is_number(book_slug)`. */
  predicate IsNumberRef(ref: BookRef) {
    ref.Number? || IsNumber(ref.s)
  }

  /** Stages 1 to 4, which read nothing but the reference and the three
      tables: the book number they settle on, or `None` to go on to the
      translation's book list. */
  function Shortcut(ref: BookRef): (r: Option<int>)
    ensures ref.Number? ==> r == Some(ref.n)
    ensures ref.Slug? && IsNumber(ref.s) ==> r == ParseInt(ref.s)
    ensures r.Some? && !IsNumberRef(ref) ==> 1 <= r.value <= 66
    ensures r.None? <==>
      && ref.Slug? && !IsNumber(ref.s)
      && Get(Friendly, ref.s).None?
      && Get(Triple, Upper(ref.s)).None?
      && Get(Twin, Upper(ref.s)).None?
  {
    match ref
    case Number(n) => Some(n)
    case Slug(s) =>
      if IsNumber(s) then ParseInt(s)
      else if Get(Friendly, s).Some? then Some(Get(Friendly, s).value as int)
      else
        var upper := Upper(s);
        if Get(Triple, upper).Some? then Some(Get(Triple, upper).value as int)
        else if Get(Twin, upper).Some? then Some(Get(Twin, upper).value as int)
        else None
  }

  /** The message of the `ValueError` raised when nothing matched. */
  function NotFoundMessage(slug: string, translation: string): (m: string)
    ensures IsInfixAt(slug, m, 6)
    ensures IsInfixAt(translation, m, 6 + |slug| + 28)
  {
    "Book '" + slug + "' not found in translation '" + translation
      + "'. Please check the book name or use a different translation."
  }

  /** `part` occurs in `s` starting at position `at`. */
  predicate IsInfixAt(part: string, s: string, at: nat) {
    at + |part| <= |s| && s[at..at + |part|] == part
  }

  /** `get_book_id(translation, book_slug)` with `BOOKS` as `books` and
      `score_search` as `score`. */
  function GetBookId(books: Books, score: Scorer, translation: string, ref: BookRef): (r: Outcome)
    ensures r.KeyError? <==> Shortcut(ref).None? && translation !in books
    ensures r.KeyError? ==> r.key == translation
    ensures r.ValueError? ==> ref.Slug? && r.message == NotFoundMessage(Lower(ref.s), translation)
    ensures r.Resolved? && Shortcut(ref).None? ==>
      translation in books && exists i | 0 <= i < |books[translation]| :: books[translation][i].bookid == r.id
  {
    match Shortcut(ref)
    case Some(id) => Resolved(id)
    case None => FromBooks(books, score, translation, ref.s)
  }

  /** Stages 5 to 7, reached when stages 1 to 4 miss: the reference is
      lower-cased and `BOOKS[translation]` is scanned. */
  function FromBooks(books: Books, score: Scorer, translation: string, s: string): (r: Outcome)
    ensures r.KeyError? <==> translation !in books
    ensures r.KeyError? ==> r.key == translation
    ensures r.ValueError? ==> r.message == NotFoundMessage(Lower(s), translation)
    ensures r.Resolved? ==>
      translation in books && exists i | 0 <= i < |books[translation]| :: books[translation][i].bookid == r.id
  {
    var slug := Lower(s);
    if translation !in books then KeyError(translation)
    else
      match Scan(books[translation], slug, score)
      case Some(id) => Resolved(id)
      case None => ValueError(NotFoundMessage(slug, translation))
  }
}
