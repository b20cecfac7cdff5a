/** Stages 5 and 6 of `get_book_id` (books.py lines 249-260): the pass over a
    translation's book list with the lower-cased reference, looking for an
    exact name and scoring every book it passes. */
module BookScan {
  import opened Wrappers
  import opened Ascii
  import opened Ranking

  /** One book of a translation in `BOOKS`: `{"name": ..., "bookid": ...}`. */
  datatype BookRecord = BookRecord(name: string, bookid: int)

  /** `score_search(name, query)`: a similarity score, 0 for "no match". */
  type Scorer = (string, string) -> nat

  /** `b["name"].lower() == book_slug`. */
  predicate NamesBook(b: BookRecord, slug: string) {
    Lower(b.name) == slug
  }

  /** The position of the first book whose lower-cased name is `slug`. */
  function FirstNameMatch(records: seq<BookRecord>, slug: string): (r: Option<nat>)
    ensures r.Some? ==> r.value < |records| && NamesBook(records[r.value], slug)
    ensures r.Some? ==> forall j | 0 <= j < r.value :: !NamesBook(records[j], slug)
    ensures r.None? <==> forall j | 0 <= j < |records| :: !NamesBook(records[j], slug)
  {
    if |records| == 0 then None
    else if NamesBook(records[0], slug) then Some(0)
    else
      match FirstNameMatch(records[1..], slug)
      case Some(i) => Some(i + 1)
      case None => None
  }

  /** `score_search(b["name"], book_slug)` for every book `b`, in list order:
      the book at each position is paired with its own score. */
  function ScoreAll(records: seq<BookRecord>, slug: string, score: Scorer): (r: seq<Scored<BookRecord>>)
    ensures |r| == |records|
    ensures forall i | 0 <= i < |r| :: r[i] == Scored(records[i], score(records[i].name, slug))
  {
    if |records| == 0 then []
    else
      var rest := ScoreAll(records[1..], slug, score);
      assert forall i | 1 <= i < |records| :: records[1..][i - 1] == records[i];
      [Scored(records[0], score(records[0].name, slug))] + rest
  }

  /** Stages 5 and 6 on the translation's book list and the lower-cased
      reference `slug`: the book number found, or `None`. */
  function Scan(records: seq<BookRecord>, slug: string, score: Scorer): (r: Option<int>)
    ensures r.Some? ==> exists i | 0 <= i < |records| :: r.value == records[i].bookid
  {
    match FirstNameMatch(records, slug)
    case Some(i) => Some(records[i].bookid)
    case None =>
      match TopScored(ScoreAll(records, slug, score))
      case Some(book) =>
        assert book in records by {
          var k := EarliestBestExists(ScoreAll(records, slug, score));
        }
        Some(book.bookid)
      case None => None
  }

  /** The scan finds nothing exactly when no name matches and no book scores. */
  lemma ScanMissesExactly(records: seq<BookRecord>, slug: string, score: Scorer)
    ensures Scan(records, slug, score).None? <==>
      forall j | 0 <= j < |records| :: !NamesBook(records[j], slug) && score(records[j].name, slug) == 0
  {
    var all := ScoreAll(records, slug, score);
    assert forall j | 0 <= j < |records| :: all[j].score == score(records[j].name, slug);
  }

  /** Stage 5: the first exact name decides, whatever the scores. */
  lemma ScanAtExactName(records: seq<BookRecord>, slug: string, score: Scorer, i: nat)
    requires i < |records| && NamesBook(records[i], slug)
    requires forall j | 0 <= j < i :: !NamesBook(records[j], slug)
    ensures Scan(records, slug, score) == Some(records[i].bookid)
  {
    assert FirstNameMatch(records, slug) == Some(i);
  }

  /** Stage 6: with no exact name, the head of the sorted suggestions. This
      unfolds `Scan` into the steps of the loop's code, the bridge `ScanBooks`
      needs. */
  lemma ScanWithoutExactName(records: seq<BookRecord>, slug: string, score: Scorer)
    requires forall j | 0 <= j < |records| :: !NamesBook(records[j], slug)
    ensures Scan(records, slug, score) ==
      var c := SortByScore(Positive(ScoreAll(records, slug, score)));
      if |c| > 0 then Some(c[0].item.bookid) else None
  {
  }

  /** `k` holds the earliest of the highest non-zero scores of `records`. */
  predicate IsBestMatch(records: seq<BookRecord>, slug: string, score: Scorer, k: int) {
    && 0 <= k < |records|
    && score(records[k].name, slug) > 0
    && (forall j | 0 <= j < |records| :: score(records[j].name, slug) <= score(records[k].name, slug))
    && (forall j | 0 <= j < k :: score(records[j].name, slug) < score(records[k].name, slug))
  }

  /** Stage 6: with no exact name, the earliest book with the highest
      non-zero score is found. */
  lemma ScanPicksEarliestBest(records: seq<BookRecord>, slug: string, score: Scorer, k: int)
    requires forall j | 0 <= j < |records| :: !NamesBook(records[j], slug)
    requires IsBestMatch(records, slug, score, k)
    ensures Scan(records, slug, score) == Some(records[k].bookid)
  {
    var all := ScoreAll(records, slug, score);
    assert IsEarliestBest(all, k);
    assert TopScored(all) == Some(records[k]);
  }

  /** The code of books.py lines 249-260 as written: one pass over the books
      that returns at the first exact name, then the sort and the head. It
      computes what `Scan` defines. */
  method ScanBooks(records: seq<BookRecord>, slug: string, score: Scorer) returns (r: Option<int>)
    ensures r == Scan(records, slug, score)
  {
    var exact, suggestions := Pass(records, slug, score);
    if exact.Some? {
      ScanAtExactName(records, slug, score, exact.value);
      return Some(records[exact.value].bookid);
    }
    ScanWithoutExactName(records, slug, score);
    suggestions := SortByScore(suggestions);
    if |suggestions| > 0 {
      return Some(suggestions[0].item.bookid);
    }
    return None;
  }

  /** The `for b in BOOKS[translation]` loop: the position of the first exact
      name if there is one, and otherwise every book that scored, in order,
      with its score. */
  method Pass(records: seq<BookRecord>, slug: string, score: Scorer)
    returns (exact: Option<nat>, suggestions: seq<Scored<BookRecord>>)
    ensures exact.Some? ==> exact.value < |records| && NamesBook(records[exact.value], slug)
    ensures exact.Some? ==> forall j | 0 <= j < exact.value :: !NamesBook(records[j], slug)
    ensures exact.None? ==> forall j | 0 <= j < |records| :: !NamesBook(records[j], slug)
    ensures exact.None? ==> suggestions == Positive(ScoreAll(records, slug, score))
  {
    ghost var all := ScoreAll(records, slug, score);
    suggestions := [];
    for i := 0 to |records|
      invariant forall j | 0 <= j < i :: !NamesBook(records[j], slug)
      invariant suggestions == Positive(all[..i])
    {
      if NamesBook(records[i], slug) {
        return Some(i), suggestions;
      }
      NoNameYet(records, slug, i);
      var s := score(records[i].name, slug);
      assert all[i] == Scored(records[i], s);
      Collect(all, i, suggestions);
      if s > 0 {
        suggestions := suggestions + [Scored(records[i], s)];
      }
    }
    assert all[..|records|] == all;
    return None, suggestions;
  }

  /** One step of the loop: the book at `i` does not carry the name either. */
  lemma NoNameYet(records: seq<BookRecord>, slug: string, i: nat)
    requires i < |records| && !NamesBook(records[i], slug)
    requires forall j | 0 <= j < i :: !NamesBook(records[j], slug)
    ensures forall j | 0 <= j < i + 1 :: !NamesBook(records[j], slug)
  {
  }

  /** One step of the loop: the book at `i` joins the suggestions if it scored. */
  lemma Collect(all: seq<Scored<BookRecord>>, i: nat, suggestions: seq<Scored<BookRecord>>)
    requires i < |all| && suggestions == Positive(all[..i])
    ensures Positive(all[..i + 1]) == suggestions + (if all[i].score > 0 then [all[i]] else [])
  {
    assert all[..i + 1] == all[..i] + [all[i]];
    PositiveOfSnoc(all[..i], all[i]);
  }
}
