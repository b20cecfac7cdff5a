# Book-reference resolution of bolls, in Dafny

bolls is a Bible web API. Its utility `get_book_id(translation, book_slug)`
turns a loose book reference into a canonical book number. The reference
can be a number, a code such as "Gen", "GEN" or "GN", or a name as a
translation spells it. Book numbers run from 1 (Genesis) to 66 (Revelation).
The first of seven stages that matches decides:

1. A number, or a string Python's `int()` accepts, is returned as that integer.
2. A key of `friendly_shortcuts` is matched with its case kept.
3. The upper-cased reference is looked up in `triple_shortcuts`.
4. The upper-cased reference is looked up in `twin_shortcuts`.
5. The first book of the translation whose lower-cased name equals the
   lower-cased reference is returned.
6. Otherwise the books with a non-zero `score_search` score are sorted by
   score, highest first, with a stable sort, and the head is returned.
7. Otherwise a `ValueError` is raised. Its message names the lower-cased
   reference and the translation.

The project has nine modules:

- `Wrappers`: the `Option` type.
- `Ascii`: ASCII character classes and `upper()`/`lower()`.
- `PyInt`: what `int(s)` accepts for a string, and the value it gives.
  `is_number` is built on it.
- `Shortcuts`: the three tables, listed by book, and the dictionary lookup.
- `ShortcutFacts`: what the tables contain.
- `Ranking`: the stable descending sort and the choice of its head.
- `BookScan`: stages 5 and 6 over a translation's book list. This is both a
  specification (`Scan`) and the loop as written (`ScanBooks`, `Pass`).
- `Resolver`: the cascade `GetBookId`, with its outcome `Resolved`,
  `ValueError` or `KeyError`.
- `ResolverFacts`: stage precedence, the tie-breaks and the failure cases,
  stated over every `BOOKS`, every scorer and every translation.

`BOOKS` is a parameter: a map from translation code to a list of
`BookRecord(name, bookid)`. `score_search` is another parameter. It is a
function from (book name, lower-cased reference) to a natural number, where 0
means "no match".

Four behaviours of the code are easy to miss; the model follows the code in
each:

- Only a string `int()` accepts is numeric. "5" resolves to 5, but "5.0" is
  not numeric. With nothing else matching it, "5.0" ends in the `ValueError`.
- The message of the `ValueError` holds the lower-cased reference. The
  reason is that `book_slug` is reassigned (books.py line 249) before the
  message is built.
- An unknown translation that reaches stage 5 fails with `KeyError` at
  `BOOKS[translation]`, not with the "not found" error.
- "act" never reaches the fuzzy stage. It is upper-cased to the triple code
  "ACT" and gives Acts (44) at stage 3, whatever the translation's book
  names are.

## Model

| member | source | states |
|---|---|---|
| Shortcuts.TripleCode | django/bolls/utils/books.py:14-81 | the key `triple_shortcuts` maps to each book, line by line; `ShortcutFacts.TripleIsOneToOne` states what the table is |
| Shortcuts.TwinCode | django/bolls/utils/books.py:153-220 | the key `twin_shortcuts` maps to each book, line by line; `ShortcutFacts.TwinIsOneToOne` states what the table is |
| Shortcuts.FriendlyKeys | django/bolls/utils/books.py:84-151 | the keys `friendly_shortcuts` maps to each book, in the order of the book's line; `ShortcutFacts.FriendlyCensus` states their shape |
| Shortcuts.Get | django/bolls/utils/books.py:239-247 | `key in table` / `table[key]`: the result is a book whose line lists the key, no later line lists it, and `None` exactly when no line lists it |
| Shortcuts.LastListing | django/bolls/utils/books.py:239-247 | the search behind the lookup: the last of books 1..n whose line lists the key, and `None` exactly when none of them does |
| ShortcutFacts.TripleIsOneToOne | django/bolls/utils/books.py:14-81 | every book's triple code looks up that book, every key is the triple code of the book it gives, and the table has exactly 66 keys |
| ShortcutFacts.TwinIsOneToOne | django/bolls/utils/books.py:153-220 | every book's twin code looks up that book, every key is the twin code of the book it gives, and the table has exactly 66 keys |
| ShortcutFacts.CodeTableIsOneToOne | django/bolls/utils/books.py:14-81 | a table with one key per book and no key shared by two books is a bijection from its 66 keys onto books 1..66 |
| ShortcutFacts.KeySetOfCodeTable | django/bolls/utils/books.py:14-81 | the keys of a one-key-per-book table are exactly the codes of books 1..66 |
| ShortcutFacts.CodesUpToSize | django/bolls/utils/books.py:14-81 | when no two books share a code, the codes of books 1..n number exactly n |
| ShortcutFacts.TripleCodesDistinct | django/bolls/utils/books.py:14-81 | no two books share a triple code |
| ShortcutFacts.TwinCodesDistinct | django/bolls/utils/books.py:153-220 | no two books share a twin code |
| ShortcutFacts.FriendlyCensus | django/bolls/utils/books.py:84-151 | every `friendly_shortcuts` line lists its book's triple code, and all its keys are capitalized; a three-character code-like key is the book's triple code (or Ezekiel's "EZE"); the only two-letter keys are Psalms' "PS" and "Ps" |
| ShortcutFacts.FriendlyKeyIsWellFormed | django/bolls/utils/books.py:84-151 | every key of `friendly_shortcuts` has the shape above for the book it gives |
| ShortcutFacts.FriendlyExtendsTriple | django/bolls/utils/books.py:14-151 | `friendly_shortcuts` maps every triple code to the same book as `triple_shortcuts`, so the triple keys are a subset of the friendly keys |
| ShortcutFacts.FriendlyTwoLetterKeys | django/bolls/utils/books.py:84-151 | a two-character string is a friendly key exactly when it is "PS" or "Ps", and both give Psalms (19) |
| ShortcutFacts.TwinCodeInFriendly | django/bolls/utils/books.py:84-220 | a twin code is a friendly key only for Psalms, where it gives the same book |
| PyInt.ParseInt | django/bolls/utils/books.py:226-236 | `int(s)` for a string: surrounding white space skipped, one optional sign, digits with single underscores between digits, at most 4300 digits; `None` where `int()` raises `ValueError` |
| PyInt.IsNumber | django/bolls/utils/books.py:223-230 | `is_number` of a string: `int()` accepts it |
| PyInt.SeparatorIsNoSpace | django/bolls/utils/books.py:226-230 | "\x1c5" is not a number: the separator U+001C is not white space `int()` skips |
| PyInt.DigitsValueOfDigits | django/bolls/utils/books.py:226-228 | reading back the decimal digits of a natural number gives that number |
| PyInt.ParseIntOfDecimal | django/bolls/utils/books.py:226-228 | `int(str(n)) == n` for every integer within CPython's 4300-digit limit |
| PyInt.StripIsSlice | django/bolls/utils/books.py:226-228 | the white space `int()` skips is a prefix and a suffix of the argument, and what remains is one contiguous slice |
| PyInt.NumbersHaveNoLetters | django/bolls/utils/books.py:223-230 | every character of a string `is_number` accepts is white space, a sign, a digit or an underscore |
| PyInt.NonNumeralIsNoNumber | django/bolls/utils/books.py:223-230 | a string holding any other character, such as a letter or a dot, is not a number |
| PyInt.ParseIntExamples | django/bolls/utils/books.py:226-230 | `int("5") == 5`, `int("-5") == -5`, and "5.0" is not a number |
| Ascii.Upper | django/bolls/utils/books.py:242 | `upper()`: same length, every lower-case letter replaced by its capital (code point minus 32), every other character kept |
| Ascii.Lower | django/bolls/utils/books.py:249-253 | `lower()`: same length, every capital replaced by its lower-case letter (code point plus 32), every other character kept |
| Ascii.CaseRoundTrip | django/bolls/utils/books.py:242-253 | upper-casing a lower-cased string gives the upper-cased original, and the other way round |
| Ranking.Insert | django/bolls/utils/books.py:258 | inserting into a list sorted by descending score keeps it sorted and adds exactly that element |
| Ranking.SortByScore | django/bolls/utils/books.py:258 | `sort(key=score, reverse=True)` yields a list sorted by descending score that is a permutation of its input |
| Ranking.InsertKeepsTies | django/bolls/utils/books.py:258 | inserting a candidate changes the run of any one score only by putting that candidate at its front |
| Ranking.WithScoreIsFilter | django/bolls/utils/books.py:258 | the run of one score holds exactly the candidates with that score, the measure `SortIsStable` compares |
| Ranking.SortIsStable | django/bolls/utils/books.py:258 | for every score, the candidates with that score leave the sort in the order they entered it |
| Ranking.SortHead | django/bolls/utils/books.py:258-260 | after the sort, the head is the earliest candidate with the highest score |
| Ranking.EarliestBestExists | django/bolls/utils/books.py:258-260 | every non-empty list has exactly one earliest position of its highest score |
| Ranking.Positive | django/bolls/utils/books.py:255-257 | `if score: suggestions.append(...)` keeps only non-zero scores, and the list is empty exactly when every score is zero |
| Ranking.PositiveIsSublist | django/bolls/utils/books.py:255-257 | every suggestion is a candidate of the list |
| Ranking.PositiveOfSnoc | django/bolls/utils/books.py:255-257 | appending a candidate to the list appends it to the suggestions exactly when its score is not zero |
| Ranking.PositiveKeepsEarliestBest | django/bolls/utils/books.py:255-257 | dropping the zero scores keeps the earliest best candidate earliest best, when its score is not zero |
| Ranking.TopScored | django/bolls/utils/books.py:255-260 | nothing is chosen exactly when every score is zero; otherwise the choice is the earliest candidate with the highest score |
| BookScan.NamesBook | django/bolls/utils/books.py:253 | `b["name"].lower() == book_slug` |
| BookScan.ScoreAll | django/bolls/utils/books.py:255 | every book paired with its own `score_search` score, in list order |
| BookScan.FirstNameMatch | django/bolls/utils/books.py:252-254 | the position of the first book whose lower-cased name is the reference, with no such book before it, and `None` exactly when no book has that name |
| BookScan.Scan | django/bolls/utils/books.py:249-260 | a book number found by the scan is the `bookid` of a book of the list |
| BookScan.ScanAtExactName | django/bolls/utils/books.py:252-254 | the first book with the exact name decides, whatever the scores of the books before it |
| BookScan.ScanWithoutExactName | django/bolls/utils/books.py:255-260 | with no exact name, the scan returns the head of the sorted suggestions, or nothing if there are none |
| BookScan.ScanPicksEarliestBest | django/bolls/utils/books.py:255-260 | with no exact name, the scan returns the earliest book with the highest non-zero score |
| BookScan.ScanMissesExactly | django/bolls/utils/books.py:252-262 | the scan finds nothing exactly when no name matches and every book scores zero |
| BookScan.Collect | django/bolls/utils/books.py:255-257 | one turn of the loop: the book joins the suggestions exactly when it scored |
| BookScan.ScanBooks | django/bolls/utils/books.py:251-260 | the loop, with its early return and the sort afterwards, computes what `Scan` specifies |
| BookScan.Pass | django/bolls/utils/books.py:251-257 | the `for` loop stops at the first exact name; if there is none, it has collected every book that scored, in list order |
| Resolver.IsNumberRef | django/bolls/utils/books.py:223-230 | `is_number(book_slug)`: an `int`, or a string `int()` accepts |
| Resolver.Shortcut | django/bolls/utils/books.py:235-247 | stages 1-4: a number gives itself; a numeric string gives `int()` of it; any other hit lies in 1..66; nothing is found exactly when the reference is a non-numeric string that misses all three tables |
| Resolver.NotFoundMessage | django/bolls/utils/books.py:262-265 | the message carries the reference and the translation at their places in the text |
| Resolver.GetBookId | django/bolls/utils/books.py:233-265 | `KeyError(translation)` exactly when stages 1-4 miss and the translation is unknown; a `ValueError` carries the not-found message for the lower-cased reference; a number not from stages 1-4 is the `bookid` of a book of the translation |
| Resolver.FromBooks | django/bolls/utils/books.py:249-265 | stages 5-7: `KeyError` exactly for an unknown translation, and otherwise a `bookid` of the translation's list or the `ValueError` |
| ResolverFacts.NumbersPassThrough | django/bolls/utils/books.py:235-236 | a numeric reference resolves to its integer, in 1..66 or not |
| ResolverFacts.FriendlyComesFirst | django/bolls/utils/books.py:239-240 | a non-numeric key of `friendly_shortcuts` resolves through that table, with its case kept |
| ResolverFacts.TripleComesBeforeTwin | django/bolls/utils/books.py:242-245 | when stages 1-2 miss, a hit in `triple_shortcuts` decides, whatever `twin_shortcuts` holds |
| ResolverFacts.TwinComesLast | django/bolls/utils/books.py:246-247 | when stages 1-3 miss, a hit in `twin_shortcuts` decides |
| ResolverFacts.ShortcutsIgnoreBooks | django/bolls/utils/books.py:235-252 | a reference that stages 1-4 settle resolves alike for every `BOOKS`, scorer and translation, including a translation that is not in `BOOKS` |
| ResolverFacts.OnlyTheTranslationMatters | django/bolls/utils/books.py:252 | of `BOOKS`, only the requested translation's entry is read |
| ResolverFacts.ExactNameWins | django/bolls/utils/books.py:249-254 | with stages 1-4 missing, the first book whose lower-cased name is the lower-cased reference wins, even when books before it scored |
| ResolverFacts.FuzzyPicksEarliestBest | django/bolls/utils/books.py:255-260 | with no exact name, the earliest book with the highest non-zero score wins |
| ResolverFacts.NotFoundExactly | django/bolls/utils/books.py:252-265 | a `ValueError` is raised exactly when stages 1-4 miss, the translation is known, no name matches and every score is zero |
| ResolverFacts.NotFoundMessageNamesBoth | django/bolls/utils/books.py:249-265 | the `ValueError` message holds the lower-cased reference and the translation |
| ResolverFacts.MissingTranslationIsKeyError | django/bolls/utils/books.py:252 | for a translation missing from `BOOKS`, only stages 1-4 can resolve; every other reference raises `KeyError` |
| ResolverFacts.ResultOrigin | django/bolls/utils/books.py:233-260 | a resolved number is the caller's number, the book number in 1..66 that a shortcut stage found for a non-numeric reference, or, when every shortcut stage missed, a `bookid` of the translation's list |
| ResolverFacts.CapitalizedIsNoNumber | django/bolls/utils/books.py:223-230 | a string whose book name starts with a capital letter is not numeric |
| ResolverFacts.UncapitalizedIsNoFriendlyKey | django/bolls/utils/books.py:84-151 | a string with no capital letter is not a key of `friendly_shortcuts` |
| ResolverFacts.EveryFriendlyKeyResolves | django/bolls/utils/books.py:84-240 | every key of `friendly_shortcuts` resolves to the book the table gives it |
| ResolverFacts.EveryTripleCodeResolves | django/bolls/utils/books.py:14-245 | every triple code resolves to its book |
| ResolverFacts.EveryTwinCodeResolves | django/bolls/utils/books.py:153-247 | every twin code resolves to its book, for every `BOOKS` |
| ResolverFacts.CodesIgnoreCase | django/bolls/utils/books.py:242-247 | a lower-cased triple or twin code resolves to its book too |
| ResolverFacts.MarkByTwinCode | django/bolls/utils/books.py:235-247 | "MK" gives Mark (41) for every `BOOKS`, even one whose translation has a book named "MK" |
| ResolverFacts.ActsByTripleCode | django/bolls/utils/books.py:242-245 | "act" gives Acts (44) through the triple code "ACT", before any name scan |
| ResolverFacts.FiveIsANumber | django/bolls/utils/books.py:235-236 | "5" resolves to 5 for every `BOOKS` |
| ResolverFacts.FivePointZeroIsNoShortcut | django/bolls/utils/books.py:235-247 | "5.0" is not numeric and misses all three tables |
| ResolverFacts.FivePointZeroIsNotFound | django/bolls/utils/books.py:249-265 | with an empty book list, "5.0" raises the `ValueError` |

## Left out

- Loading `BOOKS` from `translations_books.json` (books.py lines 7-11) is file I/O. `BOOKS` is a parameter.
- `score_search` is not part of this model (its file, `score_search.py`, is not modelled). It is a parameter: a deterministic function from (name, reference) to a natural number. Natural numbers suffice because books.py line 256 only asks `if score:`, reading 0 as "no match", and line 258 only compares scores with each other.
- Floats, complex numbers and other objects as `book_slug` are not modelled. The reference is an `int` or a string, so the `int(float)` truncation and the `TypeError` that `int(complex)` raises after `is_number` accepted it are out of scope.
- Case mapping, white space and digits are ASCII only. Python's Unicode `upper()`/`lower()` (including mappings that change a string's length), Unicode white space and non-ASCII decimal digits in `int()` are not modelled. Non-ASCII white space that `int()` maps to a space before parsing (U+0085, U+00A0, U+2000..U+200A, U+3000 and the like) is not modelled; the ASCII white space it skips is tab, line feed, vertical tab, form feed, carriage return and space, and the separators U+001C..U+001F are not skipped.
- Book records are well formed: a record without a `"name"` or `"bookid"` key, and a non-string name, are not modelled.
- `PyInt.ParseInt` assumes a CPython with the limit on decimal digits that `int()` converts (`sys.get_int_max_str_digits()`, default 4300). That limit is in 3.11 and later, and in the 3.7.14, 3.8.14, 3.9.14 and 3.10.7 security releases (CVE-2020-10735). Older releases accept any length.
- That every `friendly_shortcuts` value lies in 1..66 is carried by the type of `Shortcuts.Get`'s result (`BookId`), not by a separate lemma.
- The data-loading commands `load_translation.py` and `load_commentaries.py`, and the URL routing in `urls.py`, are not part of this model. They are file, database and framework plumbing.
