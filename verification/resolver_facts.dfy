/** What `get_book_id` promises, stated over every `BOOKS`, every scorer and
    every translation code. */
module ResolverFacts {
  import opened Wrappers
  import opened Ascii
  import opened PyInt
  import opened Shortcuts
  import opened ShortcutFacts
  import opened BookScan
  import opened Resolver

  // ---- Stages 1 to 4 ------------------------------------------------------

  /** Stage 1: a number, or a string Python's `int()` accepts, comes back as
      that integer, in range or not. */
  lemma NumbersPassThrough(books: Books, score: Scorer, translation: string, ref: BookRef)
    requires IsNumberRef(ref)
    ensures GetBookId(books, score, translation, ref) ==
      Resolved(if ref.Number? then ref.n else ParseInt(ref.s).value)
  {
  }

  /** Stage 2 comes before the case-folded stages: a key of
      `friendly_shortcuts` resolves through that table, whatever its
      upper-cased form would give. */
  lemma FriendlyComesFirst(books: Books, score: Scorer, translation: string, s: string)
    requires !IsNumber(s) && Get(Friendly, s).Some?
    ensures GetBookId(books, score, translation, Slug(s)) == Resolved(Get(Friendly, s).value)
  {
  }

  /** Stage 3 comes before stage 4. */
  lemma TripleComesBeforeTwin(books: Books, score: Scorer, translation: string, s: string)
    requires !IsNumber(s) && Get(Friendly, s).None? && Get(Triple, Upper(s)).Some?
    ensures GetBookId(books, score, translation, Slug(s)) == Resolved(Get(Triple, Upper(s)).value)
  {
  }

  /** Stage 4 is reached only when stages 1 to 3 all miss. */
  lemma TwinComesLast(books: Books, score: Scorer, translation: string, s: string)
    requires !IsNumber(s) && Get(Friendly, s).None?
    requires Get(Triple, Upper(s)).None? && Get(Twin, Upper(s)).Some?
    ensures GetBookId(books, score, translation, Slug(s)) == Resolved(Get(Twin, Upper(s)).value)
  {
  }

  /** Stages 1 to 4 read neither `BOOKS`, the scorer nor the translation: a
      reference they settle resolves alike everywhere, even when a book of the
      translation carries the reference as its name. */
  lemma ShortcutsIgnoreBooks(books1: Books, score1: Scorer, translation1: string,
                             books2: Books, score2: Scorer, translation2: string, ref: BookRef)
    requires Shortcut(ref).Some?
    ensures GetBookId(books1, score1, translation1, ref) == Resolved(Shortcut(ref).value)
    ensures GetBookId(books1, score1, translation1, ref) == GetBookId(books2, score2, translation2, ref)
  {
  }

  /** Of `BOOKS` only the entry of the requested translation is read. */
  lemma OnlyTheTranslationMatters(books1: Books, books2: Books, score: Scorer, translation: string, ref: BookRef)
    requires translation in books1 <==> translation in books2
    requires translation in books1 ==> books1[translation] == books2[translation]
    ensures GetBookId(books1, score, translation, ref) == GetBookId(books2, score, translation, ref)
  {
  }

  // ---- Stages 5 to 7 ------------------------------------------------------

  /** Stage 5: the first book whose lower-cased name is the lower-cased
      reference wins, even when books before it scored. */
  lemma ExactNameWins(books: Books, score: Scorer, translation: string, s: string, i: nat)
    requires Shortcut(Slug(s)).None? && translation in books
    requires i < |books[translation]| && NamesBook(books[translation][i], Lower(s))
    requires forall j | 0 <= j < i :: !NamesBook(books[translation][j], Lower(s))
    ensures GetBookId(books, score, translation, Slug(s)) == Resolved(books[translation][i].bookid)
  {
    ScanAtExactName(books[translation], Lower(s), score, i);
  }

  /** Stage 6: with no exact name, the earliest book with the highest
      non-zero score wins. */
  lemma FuzzyPicksEarliestBest(books: Books, score: Scorer, translation: string, s: string, k: int)
    requires Shortcut(Slug(s)).None? && translation in books
    requires forall j | 0 <= j < |books[translation]| :: !NamesBook(books[translation][j], Lower(s))
    requires IsBestMatch(books[translation], Lower(s), score, k)
    ensures GetBookId(books, score, translation, Slug(s)) == Resolved(books[translation][k].bookid)
  {
    ScanPicksEarliestBest(books[translation], Lower(s), score, k);
  }

  /** Stage 7: a `ValueError` is raised exactly when stages 1 to 4 miss, the
      translation is known, no name matches and no book scores. */
  lemma NotFoundExactly(books: Books, score: Scorer, translation: string, s: string)
    ensures GetBookId(books, score, translation, Slug(s)).ValueError? <==>
      && Shortcut(Slug(s)).None? && translation in books
      && forall j | 0 <= j < |books[translation]| ::
           !NamesBook(books[translation][j], Lower(s)) && score(books[translation][j].name, Lower(s)) == 0
  {
    if translation in books {
      ScanMissesExactly(books[translation], Lower(s), score);
    }
  }

  /** The `ValueError` message names the lower-cased reference and the
      translation. */
  lemma NotFoundMessageNamesBoth(books: Books, score: Scorer, translation: string, s: string)
    requires GetBookId(books, score, translation, Slug(s)).ValueError?
    ensures var m := GetBookId(books, score, translation, Slug(s)).message;
      IsInfixAt(Lower(s), m, 6) && IsInfixAt(translation, m, 6 + |s| + 28)
  {
  }

  /** A translation missing from `BOOKS` raises `KeyError` exactly when
      stages 1 to 4 miss. */
  lemma MissingTranslationIsKeyError(books: Books, score: Scorer, translation: string, ref: BookRef)
    requires translation !in books
    ensures GetBookId(books, score, translation, ref) ==
      if Shortcut(ref).Some? then Resolved(Shortcut(ref).value) else KeyError(translation)
  {
  }

  /** Where a resolved number comes from: the number the caller gave, a
      canonical book number from a table, or the `bookid` of a book of the
      translation. */
  lemma ResultOrigin(books: Books, score: Scorer, translation: string, ref: BookRef)
    requires GetBookId(books, score, translation, ref).Resolved?
    ensures var id := GetBookId(books, score, translation, ref).id;
      || (IsNumberRef(ref) && Shortcut(ref) == Some(id))
      || (!IsNumberRef(ref) && Shortcut(ref) == Some(id) && 1 <= id <= 66)
      || (Shortcut(ref).None? && translation in books && exists i | 0 <= i < |books[translation]| :: books[translation][i].bookid == id)
  {
  }

  // ---- The tables through the cascade -----------------------------------

  lemma CapitalizedIsNoNumber(k: string)
    requires Capitalized(k)
    ensures !IsNumber(k)
  {
    if IsUpperLetter(k[0]) {
      NonNumeralIsNoNumber(k, 0);
    } else if IsUpperLetter(k[1]) {
      NonNumeralIsNoNumber(k, 1);
    } else {
      NonNumeralIsNoNumber(k, 2);
    }
  }

  /** A string without capital letters is not a key of `friendly_shortcuts`. */
  lemma UncapitalizedIsNoFriendlyKey(k: string)
    requires forall i | 0 <= i < |k| :: !IsUpperLetter(k[i])
    ensures Get(Friendly, k).None?
  {
    FriendlyKeyIsWellFormed(k);
  }

  /** Every key of `friendly_shortcuts` resolves to its book. */
  lemma EveryFriendlyKeyResolves(books: Books, score: Scorer, translation: string, k: string)
    requires Get(Friendly, k).Some?
    ensures GetBookId(books, score, translation, Slug(k)) == Resolved(Get(Friendly, k).value)
  {
    FriendlyKeyIsWellFormed(k);
    CapitalizedIsNoNumber(k);
  }

  /** Every triple code resolves to its book. */
  lemma EveryTripleCodeResolves(books: Books, score: Scorer, translation: string, id: BookId)
    ensures GetBookId(books, score, translation, Slug(TripleCode(id))) == Resolved(id)
  {
    FriendlyGetsTripleCode(id);
    EveryFriendlyKeyResolves(books, score, translation, TripleCode(id));
  }

  /** Every twin code resolves to its book. */
  lemma EveryTwinCodeResolves(books: Books, score: Scorer, translation: string, id: BookId)
    ensures GetBookId(books, score, translation, Slug(TwinCode(id))) == Resolved(id)
  {
    TwinCodeShortcut(id);
  }

  lemma TwinCodeShortcut(id: BookId)
    ensures Shortcut(Slug(TwinCode(id))) == Some(id)
  {
    var c := TwinCode(id);
    TwinCodeFacts(id);
    CapitalizedIsNoNumber(c);
    TwinCodeInFriendly(id);
    TripleKeyShape(c);
    TwinGet(id);
  }

  /** Triple and twin codes are matched whatever their case: a lower-cased
      code misses `friendly_shortcuts` and is upper-cased back into its table. */
  lemma CodesIgnoreCase(books: Books, score: Scorer, translation: string, id: BookId)
    ensures GetBookId(books, score, translation, Slug(Lower(TripleCode(id)))) == Resolved(id)
    ensures GetBookId(books, score, translation, Slug(Lower(TwinCode(id)))) == Resolved(id)
  {
    LowerTripleCodeShortcut(id);
    LowerTwinCodeShortcut(id);
  }

  lemma LowerTripleCodeShortcut(id: BookId)
    ensures Shortcut(Slug(Lower(TripleCode(id)))) == Some(id)
  {
    var c := TripleCode(id);
    TripleCodeIsCode(id);
    LowerCodeFacts(c);
    UncapitalizedIsNoFriendlyKey(Lower(c));
    TripleGet(id);
  }

  lemma LowerTwinCodeShortcut(id: BookId)
    ensures Shortcut(Slug(Lower(TwinCode(id)))) == Some(id)
  {
    var c := TwinCode(id);
    TwinCodeFacts(id);
    LowerCodeFacts(c);
    UncapitalizedIsNoFriendlyKey(Lower(c));
    TripleKeyShape(c);
    TwinGet(id);
  }

  /** A capitalized code made of capital letters and digits, lower-cased, has
      no capitals, is no number, and upper-cases back to itself. */
  lemma LowerCodeFacts(c: string)
    requires Capitalized(c) && forall i | 0 <= i < |c| :: IsCodeChar(c[i])
    ensures forall i | 0 <= i < |c| :: !IsUpperLetter(Lower(c)[i])
    ensures !IsNumber(Lower(c))
    ensures Upper(Lower(c)) == c
  {
    CaseRoundTrip(c);
    UpperWithoutSmallLetters(c);
    if IsUpperLetter(c[0]) {
      NonNumeralIsNoNumber(Lower(c), 0);
    } else {
      NonNumeralIsNoNumber(Lower(c), 1);
    }
  }

  // ---- Examples ----------------------------------------------------------

  /** "MK" is no key of `friendly_shortcuts` or `triple_shortcuts`, so it
      falls through to `twin_shortcuts` and gives Mark (41), even when the
      translation has a book named "MK". */
  lemma MarkByTwinCode(books: Books, score: Scorer, translation: string)
    ensures GetBookId(books, score, translation, Slug("MK")) == Resolved(41)
  {
    assert TwinCode(41) == "MK";
    EveryTwinCodeResolves(books, score, translation, 41);
  }

  /** "act" misses `friendly_shortcuts` (which has "ACT" and "Act") and
      gives Acts (44) through its upper-cased triple code. */
  lemma ActsByTripleCode(books: Books, score: Scorer, translation: string)
    ensures GetBookId(books, score, translation, Slug("act")) == Resolved(44)
  {
    assert Lower(TripleCode(44)) == "act";
    LowerTripleCodeShortcut(44);
  }

  /** "5" is a number, and resolves to 5 whatever `BOOKS` holds. */
  lemma FiveIsANumber(books: Books, score: Scorer, translation: string)
    ensures GetBookId(books, score, translation, Slug("5")) == Resolved(5)
  {
    ParseIntExamples();
  }

  /** "5.0" is not a number and no shortcut, so with a translation whose book
      list is empty it ends in the `ValueError`. */
  lemma FivePointZeroIsNotFound(books: Books, score: Scorer, translation: string)
    requires translation in books && books[translation] == []
    ensures GetBookId(books, score, translation, Slug("5.0")) == ValueError(NotFoundMessage("5.0", translation))
  {
    FivePointZeroFacts();
    FivePointZeroIsNoShortcut();
  }

  lemma FivePointZeroIsNoShortcut()
    ensures Shortcut(Slug("5.0")).None?
  {
    FivePointZeroFacts();
    UncapitalizedIsNoFriendlyKey("5.0");
    TripleKeyShape("5.0");
    TwinKeyShape("5.0");
  }

  /** "5.0" has no letter, is not a number, and is shaped like no code. */
  lemma FivePointZeroFacts()
    ensures Lower("5.0") == "5.0" && Upper("5.0") == "5.0"
    ensures !IsNumber("5.0") && !IsCodeShaped("5.0") && !Capitalized("5.0")
  {
    ParseIntExamples();
    FivePointZeroIsCaseless();
    assert "5.0"[1] == '.';
  }

  lemma FivePointZeroIsCaseless()
    ensures Lower("5.0") == "5.0" && Upper("5.0") == "5.0"
  {
    WithoutLetters("5.0");
  }
}
