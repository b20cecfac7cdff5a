/** Facts about the three shortcut tables of books.py. */
module ShortcutFacts {
  import opened Wrappers
  import opened Ascii
  import opened Shortcuts

  /** No two books share a triple code. */
  lemma TripleCodesDistinct()
    ensures forall i: BookId, j: BookId | i < j :: TripleCode(i) != TripleCode(j)
  {
  }

  /** Every triple code is code shaped... */
  lemma TripleCodesAreCodeShaped()
    ensures forall id: BookId :: IsCodeShaped(TripleCode(id))
  {
  }

  /** ...and capitalized. */
  lemma TripleCodesAreCapitalized()
    ensures forall id: BookId :: Capitalized(TripleCode(id))
  {
  }

  /** No two books share a twin code. */
  lemma TwinCodesDistinct()
    ensures forall i: BookId, j: BookId | i < j :: TwinCode(i) != TwinCode(j)
  {
  }

  /** Every twin code is two capital letters or digits... */
  lemma TwinCodesAreShort()
    ensures forall id: BookId ::
      |TwinCode(id)| == 2 && IsCodeChar(TwinCode(id)[0]) && IsCodeChar(TwinCode(id)[1])
  {
  }

  /** ...and capitalized. */
  lemma TwinCodesAreCapitalized()
    ensures forall id: BookId :: Capitalized(TwinCode(id))
  {
  }

  /** A key that could be a triple code: three capital letters or digits. */
  predicate IsCodeShaped(k: string) {
    |k| == 3 && IsCodeChar(k[0]) && IsCodeChar(k[1]) && IsCodeChar(k[2])
  }

  predicate IsCodeChar(c: char) {
    IsUpperLetter(c) || IsDigit(c)
  }

  /** A key whose book name starts with a capital letter, possibly after a
      leading book number ("1Sam", "1 Samuel"). */
  predicate Capitalized(k: string) {
    |k| >= 1 &&
    (IsUpperLetter(k[0]) ||
     (|k| >= 2 && IsDigit(k[0]) &&
      (IsUpperLetter(k[1]) || (|k| >= 3 && k[1] == ' ' && IsUpperLetter(k[2])))))
  }

  /** What holds of every key `k` on the `friendly_shortcuts` line of book
      `id`: it is capitalized; if it is code-shaped it is the book's triple
      code, or Ezekiel's extra "EZE"; and the only two-letter keys are the
      Psalms keys "PS" and "Ps". */
  predicate WellFormedKey(id: BookId, k: string) {
    && Capitalized(k)
    && (IsCodeShaped(k) ==> k == TripleCode(id) || (id == 26 && k == "EZE"))
    && (|k| == 2 ==> id == 19 && (k == "PS" || k == "Ps"))
  }

  /** A line of `friendly_shortcuts` lists its book's triple code and only
      well-formed keys. */
  predicate LineIsWellFormed(id: BookId, keys: seq<string>) {
    TripleCode(id) in keys && forall i | 0 <= i < |keys| :: WellFormedKey(id, keys[i])
  }

  lemma LawCensus()
    ensures forall id | 1 <= id <= 5 :: LineIsWellFormed(id, LawKeys(id))
  {
  }

  lemma JoshuaToRuthCensus()
    ensures forall id | 6 <= id <= 8 :: LineIsWellFormed(id, JoshuaToRuthKeys(id))
  {
  }

  lemma SamuelAndKingsCensus()
    ensures forall id | 9 <= id <= 12 :: LineIsWellFormed(id, SamuelAndKingsKeys(id))
  {
  }

  lemma ChroniclesToEstherCensus()
    ensures forall id | 13 <= id <= 17 :: LineIsWellFormed(id, ChroniclesToEstherKeys(id))
  {
  }

  lemma PoetryCensus()
    ensures forall id | 18 <= id <= 22 :: LineIsWellFormed(id, PoetryKeys(id))
  {
  }

  lemma MajorProphetsCensus()
    ensures forall id | 23 <= id <= 27 :: LineIsWellFormed(id, MajorProphetsKeys(id))
  {
  }

  lemma HoseaToJonahCensus()
    ensures forall id | 28 <= id <= 32 :: LineIsWellFormed(id, HoseaToJonahKeys(id))
  {
  }

  lemma MicahToZephaniahCensus()
    ensures forall id | 33 <= id <= 36 :: LineIsWellFormed(id, MicahToZephaniahKeys(id))
  {
  }

  lemma HaggaiToMalachiCensus()
    ensures forall id | 37 <= id <= 39 :: LineIsWellFormed(id, HaggaiToMalachiKeys(id))
  {
  }

  lemma GospelsAndActsCensus()
    ensures forall id | 40 <= id <= 44 :: LineIsWellFormed(id, GospelsAndActsKeys(id))
  {
  }

  lemma RomansToGalatiansCensus()
    ensures forall id | 45 <= id <= 48 :: LineIsWellFormed(id, RomansToGalatiansKeys(id))
  {
  }

  lemma EphesiansToColossiansCensus()
    ensures forall id | 49 <= id <= 51 :: LineIsWellFormed(id, EphesiansToThessaloniansKeys(id))
  {
  }

  lemma ThessaloniansCensus()
    ensures forall id | 52 <= id <= 53 :: LineIsWellFormed(id, EphesiansToThessaloniansKeys(id))
  {
  }

  lemma PaulinePersonalLettersCensus()
    ensures forall id | 54 <= id <= 57 :: LineIsWellFormed(id, PaulinePersonalLettersKeys(id))
  {
  }

  lemma HebrewsToSecondPeterCensus()
    ensures forall id | 58 <= id <= 61 :: LineIsWellFormed(id, HebrewsToSecondPeterKeys(id))
  {
  }

  lemma JohnToJudeCensus()
    ensures forall id | 62 <= id <= 65 :: LineIsWellFormed(id, JohnToJudeKeys(id))
  {
  }

  lemma RevelationCensus()
    ensures LineIsWellFormed(66, FriendlyKeys(66))
  {
  }

  /** Every line of `friendly_shortcuts` is well formed. */
  lemma FriendlyCensus()
    ensures forall id: BookId :: LineIsWellFormed(id, FriendlyKeys(id))
  {
    LawCensus();
    JoshuaToRuthCensus();
    SamuelAndKingsCensus();
    ChroniclesToEstherCensus();
    PoetryCensus();
    MajorProphetsCensus();
    HoseaToJonahCensus();
    MicahToZephaniahCensus();
    HaggaiToMalachiCensus();
    GospelsAndActsCensus();
    RomansToGalatiansCensus();
    EphesiansToColossiansCensus();
    ThessaloniansCensus();
    PaulinePersonalLettersCensus();
    HebrewsToSecondPeterCensus();
    JohnToJudeCensus();
    RevelationCensus();
  }

  lemma EzeIsNoTripleCode()
    ensures forall id: BookId :: TripleCode(id) != "EZE"
  {
  }

  /** The code a one-key-per-book table gives book `id`. */
  function Code(t: Table, id: BookId): string
    requires t != Friendly
  {
    Keys(t, id)[0]
  }

  predicate CodesAreDistinct(t: Table)
    requires t != Friendly
  {
    forall i: BookId, j: BookId | i < j :: Code(t, i) != Code(t, j)
  }

  /** The codes of books 1..n. */
  function CodesUpTo(t: Table, n: nat): set<string>
    requires t != Friendly && n <= 66
  {
    Image(CodeOf(t), n)
  }

  function CodeOf(t: Table): BookId -> string
    requires t != Friendly
  {
    (id: BookId) => Code(t, id)
  }

  /** The images of books 1..n. */
  function Image(f: BookId -> string, n: nat): set<string>
    requires n <= 66
  {
    set id: BookId | id <= n :: f(id)
  }

  lemma CodesUpToSize(t: Table, n: nat)
    requires t != Friendly && n <= 66 && CodesAreDistinct(t)
    ensures |CodesUpTo(t, n)| == n
  {
    DistinctImageSize(CodeOf(t), n);
  }

  /** `n` books with pairwise different images have `n` images. */
  lemma {:induction false} DistinctImageSize(f: BookId -> string, n: nat)
    requires n <= 66
    requires forall i: BookId, j: BookId | i < j :: f(i) != f(j)
    ensures |Image(f, n)| == n
    decreases n
  {
    if n > 0 {
      DistinctImageSize(f, n - 1);
      assert Image(f, n) == Image(f, n - 1) + {f(n)};
      assert f(n) !in Image(f, n - 1);
    } else {
      assert Image(f, n) == {};
    }
  }

  /** A table with one key per book and no key shared by two books maps its
      keys one-to-one onto the 66 books. */
  lemma CodeTableIsOneToOne(t: Table)
    requires t != Friendly && CodesAreDistinct(t)
    ensures forall id: BookId :: Get(t, Code(t, id)) == Some(id)
    ensures forall key | Get(t, key).Some? :: key == Code(t, Get(t, key).value)
    ensures KeySet(t) == CodesUpTo(t, 66) && |KeySet(t)| == 66
  {
    forall id: BookId ensures Get(t, Code(t, id)) == Some(id) {
      GetOfCode(t, id);
    }
    forall key | Get(t, key).Some? ensures key == Code(t, Get(t, key).value) {
      SingleKey(t, Get(t, key).value);
    }
    KeySetOfCodeTable(t);
    CodesUpToSize(t, 66);
  }

  lemma SingleKey(t: Table, id: BookId)
    requires t != Friendly
    ensures Keys(t, id) == [Code(t, id)]
  {
  }

  lemma GetOfCode(t: Table, id: BookId)
    requires t != Friendly && CodesAreDistinct(t)
    ensures Get(t, Code(t, id)) == Some(id)
  {
    var c := Code(t, id);
    SingleKey(t, id);
    var r := Get(t, c);
    assert r.Some?;
    SingleKey(t, r.value);
    assert c == Code(t, r.value);
  }

  lemma KeySetOfCodeTable(t: Table)
    requires t != Friendly
    ensures KeySet(t) == CodesUpTo(t, 66)
  {
    forall k | k in KeySet(t) ensures k in CodesUpTo(t, 66) {
      var id: BookId :| k in Keys(t, id);
      assert k == CodeOf(t)(id);
    }
    forall k | k in CodesUpTo(t, 66) ensures k in KeySet(t) {
      var id: BookId :| k == CodeOf(t)(id);
      assert k in Keys(t, id);
    }
  }

  /** `triple_shortcuts` maps its 66 keys one-to-one onto books 1..66. */
  lemma TripleIsOneToOne()
    ensures forall id: BookId :: Get(Triple, TripleCode(id)) == Some(id)
    ensures forall key | Get(Triple, key).Some? :: key == TripleCode(Get(Triple, key).value)
    ensures |KeySet(Triple)| == 66
  {
    TripleCodesDistinct();
    CodeTableIsOneToOne(Triple);
  }

  /** `twin_shortcuts` maps its 66 keys one-to-one onto books 1..66. */
  lemma TwinIsOneToOne()
    ensures forall id: BookId :: Get(Twin, TwinCode(id)) == Some(id)
    ensures forall key | Get(Twin, key).Some? :: key == TwinCode(Get(Twin, key).value)
    ensures |KeySet(Twin)| == 66
  {
    TwinCodesDistinct();
    CodeTableIsOneToOne(Twin);
  }

  /** Every key of `friendly_shortcuts` is well formed for the book it maps to. */
  lemma FriendlyKeyIsWellFormed(key: string)
    ensures Get(Friendly, key).Some? ==> WellFormedKey(Get(Friendly, key).value, key)
  {
    if Get(Friendly, key).Some? {
      var id := Get(Friendly, key).value;
      FriendlyCensus();
      assert LineIsWellFormed(id, FriendlyKeys(id));
      var i :| 0 <= i < |FriendlyKeys(id)| && FriendlyKeys(id)[i] == key;
    }
  }

  /** `friendly_shortcuts` maps every triple code to the same book as
      `triple_shortcuts` does. */
  lemma FriendlyExtendsTriple()
    ensures forall id: BookId :: Get(Friendly, TripleCode(id)) == Some(id)
    ensures KeySet(Triple) <= KeySet(Friendly)
  {
    forall id: BookId ensures Get(Friendly, TripleCode(id)) == Some(id) {
      FriendlyGetsTripleCode(id);
    }
    forall k | k in KeySet(Triple) ensures k in KeySet(Friendly) {
      var id: BookId :| k in Keys(Triple, id);
      FriendlyGetsTripleCode(id);
    }
  }

  lemma FriendlyGetsTripleCode(id: BookId)
    ensures Get(Friendly, TripleCode(id)) == Some(id)
  {
    var c := TripleCode(id);
    TripleCodeFacts(id);
    assert c in Keys(Friendly, id);
    var r := Get(Friendly, c).value;
    FriendlyKeyIsWellFormed(c);
    assert c == TripleCode(r);
    TripleCodeIsInjective(id, r);
  }

  lemma TripleCodeFacts(id: BookId)
    ensures IsCodeShaped(TripleCode(id)) && TripleCode(id) != "EZE"
    ensures TripleCode(id) in FriendlyKeys(id)
    ensures Capitalized(TripleCode(id))
  {
    TripleCodesAreCodeShaped();
    TripleCodesAreCapitalized();
    EzeIsNoTripleCode();
    FriendlyCensus();
  }

  lemma TripleCodeIsCode(id: BookId)
    ensures IsCodeShaped(TripleCode(id)) && Capitalized(TripleCode(id))
  {
    TripleCodesAreCodeShaped();
    TripleCodesAreCapitalized();
  }

  lemma TripleCodeIsInjective(i: BookId, j: BookId)
    ensures TripleCode(i) == TripleCode(j) ==> i == j
  {
    TripleCodesDistinct();
  }

  /** The only two-character keys of `friendly_shortcuts` are the Psalms keys. */
  lemma FriendlyTwoLetterKeys()
    ensures forall key | |key| == 2 :: Get(Friendly, key).Some? <==> key == "PS" || key == "Ps"
    ensures Get(Friendly, "PS") == Some(19) && Get(Friendly, "Ps") == Some(19)
  {
    forall key | |key| == 2 && Get(Friendly, key).Some?
      ensures (key == "PS" || key == "Ps") && Get(Friendly, key) == Some(19)
    {
      FriendlyKeyIsWellFormed(key);
    }
    assert "PS" in Keys(Friendly, 19) && "Ps" in Keys(Friendly, 19);
  }

  /** The book `triple_shortcuts` gives a triple code. */
  lemma TripleGet(id: BookId)
    ensures Get(Triple, TripleCode(id)) == Some(id)
  {
    TripleIsOneToOne();
  }

  /** The book `twin_shortcuts` gives a twin code. */
  lemma TwinGet(id: BookId)
    ensures Get(Twin, TwinCode(id)) == Some(id)
  {
    TwinIsOneToOne();
  }

  /** Every key of `triple_shortcuts` is code shaped. */
  lemma TripleKeyShape(k: string)
    ensures Get(Triple, k).Some? ==> IsCodeShaped(k)
  {
    TripleIsOneToOne();
    TripleCodesAreCodeShaped();
  }

  /** Every key of `twin_shortcuts` is two characters long. */
  lemma TwinKeyShape(k: string)
    ensures Get(Twin, k).Some? ==> |k| == 2
  {
    TwinIsOneToOne();
    TwinCodesAreShort();
  }

  /** The twin code of a book other than Psalms is no key of
      `friendly_shortcuts`; Psalms' "PS" is, for Psalms. */
  lemma TwinCodeInFriendly(id: BookId)
    ensures Get(Friendly, TwinCode(id)) == if id == 19 then Some(19) else None
  {
    var c := TwinCode(id);
    PsalmsTwinCode();
    TwinCodeFacts(id);
    FriendlyTwoLetterKeys();
    assert c != "Ps" by { assert IsCodeChar(c[1]); }
    TwinCodeIsInjective(id, 19);
  }

  lemma PsalmsTwinCode()
    ensures TwinCode(19) == "PS"
  {
  }

  lemma TwinCodeFacts(id: BookId)
    ensures |TwinCode(id)| == 2 && IsCodeChar(TwinCode(id)[0]) && IsCodeChar(TwinCode(id)[1])
    ensures Capitalized(TwinCode(id))
    ensures Upper(TwinCode(id)) == TwinCode(id)
  {
    TwinCodesAreShort();
    TwinCodesAreCapitalized();
    var c := TwinCode(id);
    assert !IsLowerLetter(c[0]) && !IsLowerLetter(c[1]);
    UpperWithoutSmallLetters(c);
  }

  lemma TwinCodeIsInjective(i: BookId, j: BookId)
    ensures TwinCode(i) == TwinCode(j) ==> i == j
  {
    TwinCodesDistinct();
  }
}
