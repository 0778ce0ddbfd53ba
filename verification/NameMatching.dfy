/**
 Words: a string split around white space, as strings.Fields does.
 */
module Words {
  import opened Text

  /** The words of s when the word w stands open before it. */
  function FieldsFrom(w: string, s: string): seq<string>
    decreases s
  {
    if s == [] then Closed(w)
    else if IsSpace(s[0]) then Closed(w) + FieldsFrom([], s[1..])
    else FieldsFrom(w + [s[0]], s[1..])
  }

  function Closed(w: string): seq<string>
  {
    if w == [] then [] else [w]
  }

  function Fields(s: string): seq<string>
  {
    FieldsFrom([], s)
  }

  predicate NoSpace(s: string)
  {
    forall c :: c in s ==> !IsSpace(c)
  }

  function JoinWords(words: seq<string>): string
  {
    if words == [] then []
    else if |words| == 1 then words[0]
    else words[0] + " " + JoinWords(words[1..])
  }

  /** White space between two texts keeps their words apart. */
  lemma {:induction false} FieldsApart(w: string, x: string, space: char, y: string)
    requires IsSpace(space)
    ensures FieldsFrom(w, x + [space] + y) == FieldsFrom(w, x) + Fields(y)
    decreases x
  {
    var s := x + [space] + y;
    if x == [] {
      assert s[0] == space && s[1..] == y;
    } else {
      assert s[0] == x[0] && s[1..] == x[1..] + [space] + y;
      FieldsApart(if IsSpace(x[0]) then [] else w + [x[0]], x[1..], space, y);
    }
  }

  lemma {:induction false} BlanksMakeNoWords(blanks: string)
    requires forall c :: c in blanks ==> IsSpace(c)
    ensures Fields(blanks) == []
  {
    if blanks != [] {
      assert blanks[0] in blanks;
      BlanksMakeNoWords(blanks[1..]);
    }
  }

  lemma FieldsAround(x: string, blanks: string, y: string)
    requires blanks != [] && forall c :: c in blanks ==> IsSpace(c)
    ensures Fields(x + blanks + y) == Fields(x) + Fields(y)
  {
    var n := |blanks| - 1;
    assert blanks[n] in blanks;
    FieldsOfTail(x, blanks[..n], blanks[n], y);
    assert x + blanks + y == (x + blanks[..n]) + [blanks[n]] + y;
  }

  lemma FieldsOfTail(x: string, blanks: string, space: char, y: string)
    requires IsSpace(space) && forall c :: c in blanks ==> IsSpace(c)
    ensures Fields(x + blanks + [space] + y) == Fields(x) + Fields(y)
  {
    FieldsApart([], x + blanks, space, y);
    TrailingBlanks([], x, blanks);
  }

  lemma {:induction false} TrailingBlanks(w: string, x: string, blanks: string)
    requires forall c :: c in blanks ==> IsSpace(c)
    ensures FieldsFrom(w, x + blanks) == FieldsFrom(w, x)
    decreases x
  {
    if x == [] {
      assert x + blanks == blanks;
      if blanks != [] {
        assert blanks[0] in blanks;
        BlanksMakeNoWords(blanks[1..]);
      }
    } else {
      assert (x + blanks)[0] == x[0] && (x + blanks)[1..] == x[1..] + blanks;
      TrailingBlanks(if IsSpace(x[0]) then [] else w + [x[0]], x[1..], blanks);
    }
  }

  lemma {:induction false} WordStaysOpen(w: string, x: string, rest: string)
    requires NoSpace(x)
    ensures FieldsFrom(w, x + rest) == FieldsFrom(w + x, rest)
    decreases x
  {
    if x == [] {
      assert x + rest == rest && w + x == w;
    } else {
      assert x[0] in x && (x + rest)[0] == x[0] && (x + rest)[1..] == x[1..] + rest;
      WordStaysOpen(w + [x[0]], x[1..], rest);
      assert w + [x[0]] + x[1..] == w + x;
    }
  }

  /** Words of words: none empty, none with white space. */
  lemma {:induction false} FieldsAreWords(w: string, s: string)
    requires NoSpace(w)
    ensures forall f :: f in FieldsFrom(w, s) ==> f != [] && NoSpace(f)
    decreases s
  {
    if s != [] {
      FieldsAreWords(if IsSpace(s[0]) then [] else w + [s[0]], s[1..]);
    }
  }

  /** Joining words with single spaces and splitting them again gives the words. */
  lemma {:induction false} JoinedFields(words: seq<string>)
    requires forall f :: f in words ==> f != [] && NoSpace(f)
    ensures Fields(JoinWords(words)) == words
  {
    if words != [] {
      assert words[0] in words;
      WordStaysOpen([], words[0], []);
      assert words[0] + [] == words[0] && [] + words[0] == words[0];
      if |words| > 1 {
        assert forall f :: f in words[1..] ==> f in words;
        JoinedFields(words[1..]);
        FieldsApart([], words[0], ' ', JoinWords(words[1..]));
        assert words[0] + " " + JoinWords(words[1..]) == words[0] + [' '] + JoinWords(words[1..]);
      }
    }
  }

  /** Splitting makes up no characters. */
  lemma {:induction false} FieldsKeepCharacters(w: string, s: string, c: char)
    requires c !in w && c !in s
    ensures forall f :: f in FieldsFrom(w, s) ==> c !in f
    decreases s
  {
    if s != [] {
      assert s[0] in s;
      FieldsKeepCharacters(if IsSpace(s[0]) then [] else w + [s[0]], s[1..], c);
    }
  }

  // ---- tokens of words ----

  /** The tokens of a text are those before and after any white space in it. */
  ghost predicate KeepsApart<T(!new)>(f: string -> seq<T>)
  {
    f([]) == [] && forall x, space, y :: IsSpace(space) ==> f(x + [space] + y) == f(x) + f(y)
  }

  ghost function TokensOf<T>(f: string -> seq<T>, words: seq<string>): seq<T>
  {
    if words == [] then [] else f(words[0]) + TokensOf(f, words[1..])
  }

  /** Where each word's tokens start. */
  ghost function Starts<T>(f: string -> seq<T>, words: seq<string>, at: nat): set<nat>
    decreases words
  {
    if words == [] then {} else {at} + Starts(f, words[1..], at + |f(words[0])|)
  }

  lemma TokensOfClosed<T(!new)>(f: string -> seq<T>, w: string, words: seq<string>)
    requires KeepsApart(f)
    ensures TokensOf(f, Closed(w) + words) == f(w) + TokensOf(f, words)
  {
    if w == [] {
      assert Closed(w) + words == words;
    } else {
      assert (Closed(w) + words)[0] == w && (Closed(w) + words)[1..] == words;
    }
  }

  /** The words' tokens are the text's tokens. */
  lemma {:induction false} TokensOfFields<T(!new)>(f: string -> seq<T>, w: string, s: string)
    requires KeepsApart(f)
    ensures TokensOf(f, FieldsFrom(w, s)) == f(w + s)
    decreases s
  {
    if s == [] {
      TokensOfClosed(f, w, []);
      assert Closed(w) + [] == Closed(w) && w + s == w;
    } else if IsSpace(s[0]) {
      TokensOfFields(f, [], s[1..]);
      assert [] + s[1..] == s[1..];
      TokensOfClosed(f, w, Fields(s[1..]));
      assert w + [s[0]] + s[1..] == w + s;
    } else {
      TokensOfFields(f, w + [s[0]], s[1..]);
      assert w + [s[0]] + s[1..] == w + s;
    }
  }

  lemma {:induction false} TokensOfConcat<T>(f: string -> seq<T>, x: seq<string>, y: seq<string>)
    ensures TokensOf(f, x + y) == TokensOf(f, x) + TokensOf(f, y)
  {
    if x == [] {
      assert x + y == y;
    } else {
      assert (x + y)[0] == x[0] && (x + y)[1..] == x[1..] + y;
      TokensOfConcat(f, x[1..], y);
    }
  }

  lemma {:induction false} StartsConcat<T>(f: string -> seq<T>, x: seq<string>, y: seq<string>, at: nat)
    ensures Starts(f, x + y, at) == Starts(f, x, at) + Starts(f, y, at + |TokensOf(f, x)|)
    decreases x
  {
    if x == [] {
      assert x + y == y;
    } else {
      assert (x + y)[0] == x[0] && (x + y)[1..] == x[1..] + y;
      StartsConcat(f, x[1..], y, at + |f(x[0])|);
    }
  }

  lemma OneMoreWord<T>(f: string -> seq<T>, words: seq<string>, i: nat)
    requires i < |words|
    ensures TokensOf(f, words[..i + 1]) == TokensOf(f, words[..i]) + f(words[i])
    ensures Starts(f, words[..i + 1], 0) == Starts(f, words[..i], 0) + {|TokensOf(f, words[..i])|}
  {
    assert words[..i + 1] == words[..i] + [words[i]];
    TokensOfConcat(f, words[..i], [words[i]]);
    StartsConcat(f, words[..i], [words[i]], 0);
    assert [words[i]][1..] == [];
  }

  /** A text after white space starts a word at its first token. */
  lemma WordStartsAfterSpace<T(!new)>(f: string -> seq<T>, x: string, y: string)
    requires KeepsApart(f) && f(y) != []
    ensures |f(x)| in Starts(f, Fields(x + [' '] + y), 0)
  {
    TokensOfFields(f, [], x);
    TokensOfFields(f, [], y);
    assert [] + x == x && [] + y == y;
    assert Fields(y) != [];
    FieldsApart([], x, ' ', y);
    StartsConcat(f, Fields(x), Fields(y), 0);
  }
}

/**
 Name matching: a name is spelled in two ways at once, plainly and as ICAO Doc 9303
 part 3 section 6 transliterates it, and compared word by word.
 */
module NameMatching {
  import opened Text
  import opened Words
  import opened Wrappers

  /** The character tables the normalisation looks things up in. */
  datatype Unicode = Unicode(upper: char -> char, nfd: char -> string, isMark: char -> bool, isLetterOrDigit: char -> bool)

  const PLAIN: map<char, string> := map[
    '\U{00DF}' := "SS", '\U{1E9E}' := "SS", '\U{00D8}' := "O", '\U{00C6}' := "AE", '\U{0152}' := "OE",
    '\U{00DE}' := "TH", '\U{00D0}' := "D", '\U{0132}' := "IJ", '\U{0141}' := "L", '\U{0110}' := "D",
    '\U{0126}' := "H", '\U{014A}' := "N", '\U{0131}' := "I"]

  /** The letters ICAO spells with two: A, O and U with diaeresis, A with ring, O with stroke. */
  const TWO_LETTERS: map<char, string> := map[
    '\U{00C4}' := "AE", '\U{00D6}' := "OE", '\U{00DC}' := "UE", '\U{00C5}' := "AA", '\U{00D8}' := "OE"]

  const ICAO: map<char, string> := PLAIN + TWO_LETTERS

  // ---- spelling ----

  /** A decomposed letter without its marks; what is no letter or digit is a blank. */
  function Stripped(u: Unicode, s: string): string
  {
    if s == [] then []
    else (if u.isMark(s[0]) then [] else if u.isLetterOrDigit(s[0]) then [s[0]] else " ") + Stripped(u, s[1..])
  }

  function SpellChar(u: Unicode, table: map<char, string>, c: char): string
  {
    var up := u.upper(c);
    if up in table then table[up] else if c in table then table[c] else Stripped(u, u.nfd(up))
  }

  function Spell(u: Unicode, table: map<char, string>, s: string): string
  {
    if s == [] then [] else SpellChar(u, table, s[0]) + Spell(u, table, s[1..])
  }

  /** The name with its words apart by single spaces. */
  function Normalized(u: Unicode, table: map<char, string>, s: string): string
  {
    JoinWords(Fields(Spell(u, table, s)))
  }

  predicate Letters(u: Unicode, s: string)
  {
    forall c :: c in s ==> u.isLetterOrDigit(c)
  }

  /** What the tables are taken to say of Unicode. */
  ghost predicate Lawful(u: Unicode)
  {
    && (forall c :: u.isLetterOrDigit(c) ==> !IsSpace(c) && c != '/')
    && (forall c :: 'A' <= c <= 'Z' ==> u.isLetterOrDigit(c))
    && (forall c :: c in TWO_LETTERS ==> u.upper(c) == c)
    && (forall c :: c in TWO_LETTERS && c !in PLAIN ==> Letters(u, Stripped(u, u.nfd(c))) && Stripped(u, u.nfd(c)) != [])
    && (forall c :: IsSpace(c) ==> u.upper(c) == c && Blank(Stripped(u, u.nfd(c))))
  }

  predicate Blank(s: string)
  {
    s != [] && forall c :: c in s ==> IsSpace(c)
  }

  /** A word of the alphabet, as the tables spell letters. */
  predicate Spelled(s: string)
  {
    s != [] && forall c :: c in s ==> 'A' <= c <= 'Z'
  }

  lemma TablesSpellLetters(c: char)
    ensures c in PLAIN ==> c in ICAO && Spelled(PLAIN[c])
    ensures c in ICAO ==> Spelled(ICAO[c])
    ensures c in ICAO <==> c in PLAIN || c in TWO_LETTERS
    ensures c !in TWO_LETTERS && c in PLAIN ==> ICAO[c] == PLAIN[c]
  {
  }

  /** Letters in both spellings, or the same in both. */
  ghost predicate Parallel(u: Unicode, plain: string, icao: string)
  {
    plain == icao || (plain != [] && icao != [] && Letters(u, plain) && Letters(u, icao))
  }

  lemma SpelledAreLetters(u: Unicode, s: string)
    requires Lawful(u) && Spelled(s)
    ensures s != [] && Letters(u, s)
  {
  }

  /** Each character is spelled in letters in both ways, or in the same way. */
  lemma CharsAreParallel(u: Unicode, c: char)
    requires Lawful(u)
    ensures Parallel(u, SpellChar(u, PLAIN, c), SpellChar(u, ICAO, c))
  {
    var up := u.upper(c);
    TablesSpellLetters(up);
    TablesSpellLetters(c);
    if up in ICAO {
      SpelledAreLetters(u, ICAO[up]);
      if up in PLAIN {
        SpelledAreLetters(u, PLAIN[up]);
      } else if c in PLAIN {
        SpelledAreLetters(u, PLAIN[c]);
      } else {
        assert up in TWO_LETTERS && u.upper(up) == up;
      }
    } else if c in PLAIN {
      assert c !in TWO_LETTERS;
    }
  }

  // ---- the two spellings have the same words ----

  /** Reading a text has closed some words and left one open, or none. */
  datatype Reading = Reading(words: seq<string>, open: string)

  function ReadChar(r: Reading, c: char): Reading
  {
    if IsSpace(c) then Reading(r.words + Closed(r.open), []) else Reading(r.words, r.open + [c])
  }

  function ReadOn(r: Reading, s: string): Reading
    decreases s
  {
    if s == [] then r else ReadOn(ReadChar(r, s[0]), s[1..])
  }

  lemma {:induction false} ReadingFields(r: Reading, s: string)
    ensures r.words + FieldsFrom(r.open, s) == ReadOn(r, s).words + Closed(ReadOn(r, s).open)
    decreases s
  {
    if s != [] {
      ReadingFields(ReadChar(r, s[0]), s[1..]);
    }
  }

  lemma {:induction false} ReadOnConcat(r: Reading, x: string, y: string)
    ensures ReadOn(r, x + y) == ReadOn(ReadOn(r, x), y)
    decreases x
  {
    if x == [] {
      assert x + y == y;
    } else {
      assert (x + y)[0] == x[0] && (x + y)[1..] == x[1..] + y;
      ReadOnConcat(ReadChar(r, x[0]), x[1..], y);
    }
  }

  /** As many words closed, and a word open in both or in neither. */
  predicate Alike(p: Reading, i: Reading)
  {
    |p.words| == |i.words| && (p.open == [] <==> i.open == [])
  }

  lemma {:induction false} SameTextAlike(p: Reading, i: Reading, s: string)
    requires Alike(p, i)
    ensures Alike(ReadOn(p, s), ReadOn(i, s))
    decreases s
  {
    if s != [] {
      SameTextAlike(ReadChar(p, s[0]), ReadChar(i, s[0]), s[1..]);
    }
  }

  lemma {:induction false} LettersStayOpen(u: Unicode, r: Reading, s: string)
    requires Lawful(u) && Letters(u, s)
    ensures ReadOn(r, s) == Reading(r.words, r.open + s)
    decreases s
  {
    if s == [] {
      assert r.open + s == r.open;
    } else {
      assert s[0] in s && u.isLetterOrDigit(s[0]);
      LettersStayOpen(u, ReadChar(r, s[0]), s[1..]);
      assert r.open + [s[0]] + s[1..] == r.open + s;
    }
  }

  lemma ParallelAlike(u: Unicode, p: Reading, i: Reading, plain: string, icao: string)
    requires Lawful(u) && Alike(p, i) && Parallel(u, plain, icao)
    ensures Alike(ReadOn(p, plain), ReadOn(i, icao))
  {
    if plain == icao {
      SameTextAlike(p, i, plain);
    } else {
      LettersStayOpen(u, p, plain);
      LettersStayOpen(u, i, icao);
    }
  }

  lemma {:induction false} SpellingsAlike(u: Unicode, p: Reading, i: Reading, s: string)
    requires Lawful(u) && Alike(p, i)
    ensures Alike(ReadOn(p, Spell(u, PLAIN, s)), ReadOn(i, Spell(u, ICAO, s)))
    decreases s
  {
    if s != [] {
      var plain, icao := SpellChar(u, PLAIN, s[0]), SpellChar(u, ICAO, s[0]);
      CharsAreParallel(u, s[0]);
      ParallelAlike(u, p, i, plain, icao);
      SpellingsAlike(u, ReadOn(p, plain), ReadOn(i, icao), s[1..]);
      ReadOnConcat(p, plain, Spell(u, PLAIN, s[1..]));
      ReadOnConcat(i, icao, Spell(u, ICAO, s[1..]));
    }
  }

  lemma NormalizedFields(u: Unicode, table: map<char, string>, s: string)
    ensures Fields(Normalized(u, table, s)) == Fields(Spell(u, table, s))
  {
    FieldsAreWords([], Spell(u, table, s));
    JoinedFields(Fields(Spell(u, table, s)));
  }

  /** Every name has as many words in one spelling as in the other. */
  lemma SameNumberOfWords(u: Unicode, s: string)
    requires Lawful(u)
    ensures |Fields(Normalized(u, PLAIN, s))| == |Fields(Normalized(u, ICAO, s))|
  {
    NormalizedFields(u, PLAIN, s);
    NormalizedFields(u, ICAO, s);
    var none := Reading([], []);
    SpellingsAlike(u, none, none, s);
    ReadingFields(none, Spell(u, PLAIN, s));
    ReadingFields(none, Spell(u, ICAO, s));
    assert forall f: seq<string> :: [] + f == f;
  }

  // ---- tokens ----

  /** One word of a name in both spellings. */
  datatype Token = Token(plain: string, icao: string)

  function Zipped(plain: seq<string>, icao: seq<string>): seq<Token>
    requires |plain| == |icao|
  {
    seq(|plain|, i requires 0 <= i < |plain| => Token(plain[i], icao[i]))
  }

  lemma ZippedConcat(plain: seq<string>, icao: seq<string>, plain': seq<string>, icao': seq<string>)
    requires |plain| == |icao| && |plain'| == |icao'|
    ensures Zipped(plain + plain', icao + icao') == Zipped(plain, icao) + Zipped(plain', icao')
  {
  }

  /** The words of a name; both spellings are indexed alike. */
  function NameTokens(u: Unicode, s: string): seq<Token>
    requires Lawful(u)
  {
    SameNumberOfWords(u, s);
    Zipped(Fields(Normalized(u, PLAIN, s)), Fields(Normalized(u, ICAO, s)))
  }

  predicate Equal(a: Token, b: Token)
  {
    a.plain == b.plain || a.icao == b.icao
  }

  predicate EqualTokens(a: seq<Token>, b: seq<Token>)
  {
    |a| == |b| && forall i :: 0 <= i < |a| ==> Equal(a[i], b[i])
  }

  // ---- the words of a printed name ----

  lemma {:induction false} SpellConcat(u: Unicode, table: map<char, string>, x: string, y: string)
    ensures Spell(u, table, x + y) == Spell(u, table, x) + Spell(u, table, y)
  {
    if x == [] {
      assert x + y == y;
    } else {
      assert (x + y)[0] == x[0] && (x + y)[1..] == x[1..] + y;
      SpellConcat(u, table, x[1..], y);
    }
  }

  /** White space is no letter of the tables. */
  lemma NoSpaceInTables(c: char)
    requires IsSpace(c)
    ensures c !in PLAIN && c !in ICAO
  {
  }

  lemma SpaceSpelled(u: Unicode, table: map<char, string>, space: char)
    requires Lawful(u) && IsSpace(space) && (table == PLAIN || table == ICAO)
    ensures Blank(Spell(u, table, [space]))
  {
    NoSpaceInTables(space);
    assert [space][1..] == [];
    assert Spell(u, table, [space]) == SpellChar(u, table, space);
  }

  lemma SpelledApart(u: Unicode, table: map<char, string>, x: string, space: char, y: string)
    requires Lawful(u) && IsSpace(space) && (table == PLAIN || table == ICAO)
    ensures Fields(Normalized(u, table, x + [space] + y)) == Fields(Normalized(u, table, x)) + Fields(Normalized(u, table, y))
  {
    SpellConcat(u, table, x + [space], y);
    SpellConcat(u, table, x, [space]);
    SpaceSpelled(u, table, space);
    FieldsAround(Spell(u, table, x), Spell(u, table, [space]), Spell(u, table, y));
    NormalizedFields(u, table, x);
    NormalizedFields(u, table, y);
    NormalizedFields(u, table, x + [space] + y);
  }

  /** White space keeps the words of two names apart. */
  lemma TokensApart(u: Unicode, x: string, space: char, y: string)
    requires Lawful(u) && IsSpace(space)
    ensures NameTokens(u, x + [space] + y) == NameTokens(u, x) + NameTokens(u, y)
  {
    SpelledApart(u, PLAIN, x, space, y);
    SpelledApart(u, ICAO, x, space, y);
    SameNumberOfWords(u, x);
    SameNumberOfWords(u, y);
    ZippedConcat(Fields(Normalized(u, PLAIN, x)), Fields(Normalized(u, ICAO, x)),
                 Fields(Normalized(u, PLAIN, y)), Fields(Normalized(u, ICAO, y)));
  }

  /** The tokens of any text. */
  ghost function Tokenizer(u: Unicode): string -> seq<Token>
    requires Lawful(u)
  {
    s => if Lawful(u) then NameTokens(u, s) else []
  }

  lemma TokenizerApart(u: Unicode)
    requires Lawful(u)
    ensures KeepsApart(Tokenizer(u))
  {
    NormalizedFields(u, PLAIN, []);
    forall x, space, y | IsSpace(space) ensures Tokenizer(u)(x + [space] + y) == Tokenizer(u)(x) + Tokenizer(u)(y) {
      TokensApart(u, x, space, y);
    }
  }

  /** Where the space-separated words of a printed name start among its tokens. */
  ghost function WordStarts(u: Unicode, fullName: string): set<nat>
    requires Lawful(u)
  {
    Starts(Tokenizer(u), Fields(fullName), 0)
  }

  /** Splits a printed name into words, and marks where they start. */
  method PrintedTokens(u: Unicode, fullName: string) returns (tokens: seq<Token>, wordStarts: set<nat>)
    requires Lawful(u)
    ensures tokens == NameTokens(u, fullName)
    ensures wordStarts == WordStarts(u, fullName)
  {
    var words := Fields(fullName);
    tokens, wordStarts := [], {};
    ghost var f := Tokenizer(u);
    for i := 0 to |words|
      invariant tokens == TokensOf(f, words[..i])
      invariant wordStarts == Starts(f, words[..i], 0)
    {
      OneMoreWord(f, words, i);
      wordStarts := wordStarts + {|tokens|};
      tokens := tokens + NameTokens(u, words[i]);
    }
    assert words[..|words|] == words;
    TokenizerApart(u);
    TokensOfFields(f, [], fullName);
    assert [] + fullName == fullName;
  }

  // ---- the surname at the end ----

  /** A disclosed person; the date is the day it parses to, if it does. */
  datatype Person = Person(givenNames: string, surname: string, prefix: string, dateOfBirth: Option<int>)

  /** The zero time. */
  const ZERO := 0

  function Rotated(s: seq<Token>, k: nat): seq<Token>
    requires k <= |s|
  {
    s[k..] + s[..k]
  }

  ghost predicate IsRotation(s: seq<Token>, r: seq<Token>)
  {
    exists k: nat :: k < |s| && r == Rotated(s, k)
  }

  /** The disclosed surname with its prefix leading. */
  function WholeSurname(u: Unicode, p: Person): seq<Token>
    requires Lawful(u)
  {
    NameTokens(u, p.prefix) + NameTokens(u, p.surname)
  }

  /** What may end a printed name: the surname with its prefix, starting at any of its words. */
  ghost predicate IsTail(u: Unicode, p: Person, t: seq<Token>)
    requires Lawful(u)
  {
    t != [] && IsRotation(WholeSurname(u, p), t)
  }

  function SurnameVariants(u: Unicode, p: Person): seq<seq<Token>>
    requires Lawful(u)
  {
    var surname, prefix := NameTokens(u, p.surname), NameTokens(u, p.prefix);
    if prefix == [] then [surname] else [prefix + surname, surname + prefix]
  }

  function TokenKey(t: Token): string
  {
    t.plain + "/" + t.icao
  }

  function TokensKey(tokens: seq<Token>): string
  {
    if tokens == [] then []
    else if |tokens| == 1 then TokenKey(tokens[0])
    else TokenKey(tokens[0]) + " " + TokensKey(tokens[1..])
  }

  /** Spellings hold no separator. */
  ghost predicate IsToken(t: Token)
  {
    t.plain != [] && '/' !in t.plain && ' ' !in t.plain && '/' !in t.icao && ' ' !in t.icao
  }

  ghost predicate AreTokens(tokens: seq<Token>)
  {
    forall t :: t in tokens ==> IsToken(t)
  }

  lemma {:induction false} SplitAt(x: string, rest: string, y: string, rest': string, c: char)
    requires x + [c] + rest == y + [c] + rest' && c !in x && c !in y
    ensures x == y && rest == rest'
  {
    var s := x + [c] + rest;
    assert s[0] == if x == [] then c else x[0];
    assert s[0] == if y == [] then c else y[0];
    assert x != [] ==> x[0] in x;
    assert y != [] ==> y[0] in y;
    if x != [] {
      assert s[1..] == x[1..] + [c] + rest == y[1..] + [c] + rest';
      SplitAt(x[1..], rest, y[1..], rest', c);
      assert x == [x[0]] + x[1..] && y == [y[0]] + y[1..];
    } else {
      assert s[1..] == rest == rest';
    }
  }

  lemma KeyOfToken(a: Token, b: Token)
    requires IsToken(a) && IsToken(b) && TokenKey(a) == TokenKey(b)
    ensures a == b
  {
    SplitAt(a.plain, a.icao, b.plain, b.icao, '/');
  }

  lemma KeyStep(tokens: seq<Token>)
    requires AreTokens(tokens) && tokens != []
    ensures ' ' !in TokenKey(tokens[0])
    ensures TokensKey(tokens) == if |tokens| == 1 then TokenKey(tokens[0]) else TokenKey(tokens[0]) + [' '] + TokensKey(tokens[1..])
    ensures TokensKey(tokens) != [] && AreTokens(tokens[1..])
  {
    assert tokens[0] in tokens;
  }

  /** The key tells token sequences apart. */
  lemma {:induction false} KeysTellApart(a: seq<Token>, b: seq<Token>)
    requires AreTokens(a) && AreTokens(b) && TokensKey(a) == TokensKey(b)
    ensures a == b
    decreases |a|
  {
    if a != [] {
      KeyStep(a);
    }
    if b != [] {
      KeyStep(b);
    }
    if a != [] && b != [] {
      var x, y := TokenKey(a[0]), TokenKey(b[0]);
      var key := TokensKey(a);
      assert a[0] in a && b[0] in b;
      assert |a| > 1 ==> key[|x|] == ' ';
      assert |b| > 1 ==> key[|y|] == ' ';
      if |a| > 1 && |b| > 1 {
        SplitAt(x, TokensKey(a[1..]), y, TokensKey(b[1..]), ' ');
        KeysTellApart(a[1..], b[1..]);
      }
      assert |a| == |b| && x == y;
      KeyOfToken(a[0], b[0]);
      assert a == [a[0]] + a[1..] && b == [b[0]] + b[1..];
    }
  }

  lemma {:induction false} SpellingHasNoSlash(u: Unicode, table: map<char, string>, s: string)
    requires Lawful(u) && (table == PLAIN || table == ICAO)
    ensures '/' !in Spell(u, table, s)
  {
    if s != [] {
      TablesSpellLetters(u.upper(s[0]));
      TablesSpellLetters(s[0]);
      StrippedHasNoSlash(u, u.nfd(u.upper(s[0])));
      SpellingHasNoSlash(u, table, s[1..]);
    }
  }

  lemma {:induction false} StrippedHasNoSlash(u: Unicode, s: string)
    requires Lawful(u)
    ensures '/' !in Stripped(u, s)
  {
    if s != [] {
      StrippedHasNoSlash(u, s[1..]);
    }
  }

  lemma FieldIsClean(u: Unicode, table: map<char, string>, s: string, f: string)
    requires Lawful(u) && (table == PLAIN || table == ICAO)
    requires f in Fields(Normalized(u, table, s))
    ensures f != [] && '/' !in f && ' ' !in f
  {
    NormalizedFields(u, table, s);
    SpellingHasNoSlash(u, table, s);
    FieldsKeepCharacters([], Spell(u, table, s), '/');
    FieldsAreWords([], Spell(u, table, s));
    assert NoSpace(f) && IsSpace(' ');
  }

  /** The words of a name hold neither of the key's separators. */
  lemma NamesAreTokens(u: Unicode, s: string)
    requires Lawful(u)
    ensures AreTokens(NameTokens(u, s))
  {
    var plain, icao := Fields(Normalized(u, PLAIN, s)), Fields(Normalized(u, ICAO, s));
    SameNumberOfWords(u, s);
    forall t | t in NameTokens(u, s) ensures IsToken(t) {
      var i: nat :| i < |plain| && t == Token(plain[i], icao[i]);
      FieldIsClean(u, PLAIN, s, plain[i]);
      FieldIsClean(u, ICAO, s, icao[i]);
    }
  }

  /** Where each word of a turned sequence comes from. */
  lemma RotatedAt(s: seq<Token>, k: nat, i: nat)
    requires k <= |s| && i < |s|
    ensures |Rotated(s, k)| == |s| && Rotated(s, k)[i] == if k + i < |s| then s[k + i] else s[k + i - |s|]
  {
  }

  /** Turning a word sequence twice is turning it once. */
  lemma RotateTwice(s: seq<Token>, k: nat, l: nat) returns (m: nat)
    requires k <= |s| && l < |s|
    ensures m < |s| && Rotated(Rotated(s, k), l) == Rotated(s, m)
  {
    m := if k + l < |s| then k + l else k + l - |s|;
    var once := Rotated(s, k);
    var twice := Rotated(once, l);
    forall i | 0 <= i < |s| ensures twice[i] == Rotated(s, m)[i] {
      RotatedAt(once, l, i);
      RotatedAt(s, k, if l + i < |s| then l + i else l + i - |s|);
      RotatedAt(s, m, i);
    }
  }

  /** The tails added so far, under their keys. */
  ghost predicate Keyed(tails: seq<seq<Token>>, seen: set<string>)
  {
    && (forall t :: t in tails ==> t != [] && AreTokens(t) && TokensKey(t) in seen)
    && (forall key :: key in seen ==> exists t :: t in tails && TokensKey(t) == key)
  }

  /** Adds a tail unless it is empty or there already. */
  method AddTail(tails: seq<seq<Token>>, seen: set<string>, t: seq<Token>) returns (tails': seq<seq<Token>>, seen': set<string>)
    requires Keyed(tails, seen) && AreTokens(t)
    ensures Keyed(tails', seen')
    ensures forall x :: x in tails' <==> x in tails || (x == t && t != [])
  {
    var key := TokensKey(t);
    if t != [] {
      KeyStep(t);
    }
    if key == "" {
      return tails, seen;
    }
    if key in seen {
      ghost var x :| x in tails && TokensKey(x) == key;
      KeysTellApart(x, t);
      return tails, seen;
    }
    tails', seen' := tails + [t], seen + {key};
    assert t in tails';
    forall k | k in seen' ensures exists x :: x in tails' && TokensKey(x) == k {
      if k in seen {
        var x :| x in tails && TokensKey(x) == k;
        assert x in tails';
      }
    }
  }

  lemma TurnedAreTokens(s: seq<Token>, k: nat)
    requires AreTokens(s) && k <= |s|
    ensures AreTokens(Rotated(s, k))
  {
    forall t | t in Rotated(s, k) ensures IsToken(t) {
      assert t in s;
    }
  }

  ghost predicate RotatedBefore(v: seq<Token>, n: nat, x: seq<Token>)
    requires n <= |v|
  {
    exists k: nat :: k < n && x == Rotated(v, k)
  }

  lemma OneMoreRotation(v: seq<Token>, n: nat)
    requires n < |v|
    ensures forall x :: RotatedBefore(v, n + 1, x) <==> RotatedBefore(v, n, x) || x == Rotated(v, n)
  {
    assert RotatedBefore(v, n + 1, Rotated(v, n));
  }

  /** Adds every rotation of one order of the surname. */
  method AddRotations(tails: seq<seq<Token>>, seen: set<string>, v: seq<Token>) returns (tails': seq<seq<Token>>, seen': set<string>)
    requires Keyed(tails, seen) && AreTokens(v)
    ensures Keyed(tails', seen')
    ensures forall x :: x in tails' <==> x in tails || IsRotation(v, x)
  {
    tails', seen' := AddTail(tails, seen, v);
    if v == [] {
      return;
    }
    assert Rotated(v, 0) == v;
    OneMoreRotation(v, 0);
    for i := 1 to |v|
      invariant Keyed(tails', seen')
      invariant forall x :: x in tails' <==> x in tails || RotatedBefore(v, i, x)
    {
      TurnedAreTokens(v, i);
      OneMoreRotation(v, i);
      tails', seen' := AddTail(tails', seen', Rotated(v, i));
    }
    assert forall x :: RotatedBefore(v, |v|, x) <==> IsRotation(v, x);
  }

  /** The surname with its prefix trailing is the one with its prefix leading, turned. */
  lemma VariantsTurn(u: Unicode, p: Person, x: seq<Token>)
    requires Lawful(u) && IsRotation(NameTokens(u, p.surname) + NameTokens(u, p.prefix), x)
    ensures x != [] && IsRotation(WholeSurname(u, p), x)
  {
    TrailingIsTurned(NameTokens(u, p.prefix), NameTokens(u, p.surname), x);
  }

  lemma TrailingIsTurned(prefix: seq<Token>, surname: seq<Token>, x: seq<Token>)
    requires IsRotation(surname + prefix, x)
    ensures x != [] && IsRotation(prefix + surname, x)
  {
    var k: nat :| k < |surname + prefix| && x == Rotated(surname + prefix, k);
    assert Rotated(prefix + surname, |prefix|) == surname + prefix;
    var m := RotateTwice(prefix + surname, |prefix|, k);
    assert x == Rotated(prefix + surname, m);
  }

  /** Collects what may end a printed name, each once. */
  method SurnameTails(u: Unicode, p: Person) returns (tails: seq<seq<Token>>)
    requires Lawful(u)
    ensures forall t :: t in tails <==> IsTail(u, p, t)
  {
    var seen: set<string>;
    var variants := SurnameVariants(u, p);
    ghost var whole := WholeSurname(u, p);
    NamesAreTokens(u, p.surname);
    NamesAreTokens(u, p.prefix);
    assert variants[0] == whole;
    tails, seen := AddRotations([], {}, variants[0]);
    assert forall t :: t in tails <==> IsTail(u, p, t);
    if |variants| > 1 {
      ghost var first := tails;
      tails, seen := AddRotations(tails, seen, variants[1]);
      forall t | t in tails ensures IsTail(u, p, t) {
        if t !in first {
          VariantsTurn(u, p, t);
        }
      }
    }
  }

  // ---- matching ----

  /** Words of common surname prefixes, as the plain spelling has them. */
  const PREFIX_WORDS: set<string> := {
    "VAN", "DE", "DER", "DEN", "HET", "T", "TE", "TEN", "TER", "IN", "OP", "AAN", "BIJ", "UIT", "VOOR", "ONDER", "OVER",
    "LA", "LE", "DU", "DES", "DA", "DI", "DEL", "DOS", "DAS", "VON", "VOM", "ZU", "ZUM", "ZUR", "S", "D", "L"}

  /** The printed words before a surname go on past the disclosed given names and end in a prefix word. */
  method EndsInSurnamePrefix(printed: seq<Token>, disclosed: seq<Token>) returns (ends: bool)
    ensures ends == GoesOnInPrefix(printed, disclosed)
  {
    var end := |printed|;
    while end > |disclosed| && printed[end - 1].plain in PREFIX_WORDS
      invariant end <= |printed|
      invariant end < |printed| ==> GoesOnInPrefix(printed, disclosed)
    {
      end := end - 1;
    }
    return end < |printed|;
  }

  predicate GoesOnInPrefix(printed: seq<Token>, disclosed: seq<Token>)
  {
    |printed| > |disclosed| && printed[|printed| - 1].plain in PREFIX_WORDS
  }

  /** One list starts the other, or every printed name is disclosed. */
  predicate GivenNamesMatch(printed: seq<Token>, disclosed: seq<Token>)
  {
    && printed != [] && disclosed != []
    && var shared := if |printed| < |disclosed| then |printed| else |disclosed|;
       || EqualTokens(printed[..shared], disclosed[..shared])
       || forall d :: d in printed ==> exists e :: e in disclosed && Equal(d, e)
  }

  /** Both dates are readable, not the zero time, and the same day. */
  predicate SameBirthDate(document: Option<int>, disclosed: Option<int>)
  {
    document.Some? && document == disclosed && document.value != ZERO
  }

  /** The tail ends the printed name: at the start of a word, after some given name, and no prefix is left over. */
  predicate Fits(tokens: seq<Token>, wordStarts: set<nat>, t: seq<Token>, disclosedGiven: seq<Token>)
  {
    && 0 < |t| < |tokens|
    && var n := |tokens| - |t|;
       n in wordStarts && EqualTokens(tokens[n..], t) && !GoesOnInPrefix(tokens[..n], disclosedGiven)
  }

  /** Some rotation of the disclosed surname ends the printed name. */
  ghost predicate SurnameEnds(u: Unicode, fullName: string, p: Person)
    requires Lawful(u)
  {
    exists t :: IsTail(u, p, t) && Fits(NameTokens(u, fullName), WordStarts(u, fullName), t, NameTokens(u, p.givenNames))
  }

  /** What of the printed name is compared with the given names. */
  ghost function GivenPart(u: Unicode, fullName: string, p: Person): seq<Token>
    requires Lawful(u)
  {
    var tokens, n := NameTokens(u, fullName), |WholeSurname(u, p)|;
    if SurnameEnds(u, fullName, p) then if n <= |tokens| then tokens[..|tokens| - n] else []
    else if tokens != [] then tokens[..1] else []
  }

  datatype Outcome = Outcome(matched: bool, dateOfBirth: bool, surname: bool, givenNames: bool)

  /** All tails have as many words, so it does not matter which one is found. */
  lemma {:induction false} TailsAreAsLong(u: Unicode, p: Person)
    requires Lawful(u)
    ensures forall t :: IsTail(u, p, t) ==> |t| == |WholeSurname(u, p)|
  {
  }

  /** Looks for the first tail that ends the printed name. */
  method FindSurname(tokens: seq<Token>, wordStarts: set<nat>, tails: seq<seq<Token>>, disclosedGiven: seq<Token>)
    returns (found: bool, given: seq<Token>)
    ensures found <==> exists t :: t in tails && Fits(tokens, wordStarts, t, disclosedGiven)
    ensures found ==> exists t :: t in tails && 0 < |t| < |tokens| && given == tokens[..|tokens| - |t|]
    ensures !found ==> given == tokens
  {
    for i := 0 to |tails|
      invariant forall j :: 0 <= j < i ==> !Fits(tokens, wordStarts, tails[j], disclosedGiven)
    {
      var t := tails[i];
      if |t| == 0 || |t| >= |tokens| || |tokens| - |t| !in wordStarts {
        continue;
      }
      var rest := tokens[..|tokens| - |t|];
      var past := EndsInSurnamePrefix(rest, disclosedGiven);
      if EqualTokens(tokens[|tokens| - |t|..], t) && !past {
        assert t in tails && Fits(tokens, wordStarts, t, disclosedGiven);
        return true, rest;
      }
    }
    return false, tokens;
  }

  /** What the search leaves as given names is the part before the surname, whichever tail was found. */
  lemma GivenIsPart(u: Unicode, fullName: string, p: Person, tails: seq<seq<Token>>, found: bool, given: seq<Token>)
    requires Lawful(u)
    requires forall t :: t in tails <==> IsTail(u, p, t)
    requires var tokens := NameTokens(u, fullName);
             && (found <==> exists t :: t in tails && Fits(tokens, WordStarts(u, fullName), t, NameTokens(u, p.givenNames)))
             && (found ==> exists t :: t in tails && 0 < |t| < |tokens| && given == tokens[..|tokens| - |t|])
             && (!found ==> given == tokens)
    ensures found == SurnameEnds(u, fullName, p)
    ensures GivenPart(u, fullName, p) == if !found && given != [] then given[..1] else given
  {
    var tokens := NameTokens(u, fullName);
    TailsAreAsLong(u, p);
    if found {
      var t :| t in tails && Fits(tokens, WordStarts(u, fullName), t, NameTokens(u, p.givenNames));
      assert IsTail(u, p, t);
    }
  }

  /** Compares a printed full name and its date with the disclosed person. */
  method MatchFullName(u: Unicode, fullName: string, dateOfBirth: Option<int>, p: Person) returns (res: Outcome)
    requires Lawful(u)
    ensures res.dateOfBirth == SameBirthDate(dateOfBirth, p.dateOfBirth)
    ensures res.surname == SurnameEnds(u, fullName, p)
    ensures res.givenNames == GivenNamesMatch(GivenPart(u, fullName, p), NameTokens(u, p.givenNames))
    ensures res.matched == (res.dateOfBirth && res.surname && res.givenNames)
  {
    var date := SameBirthDate(dateOfBirth, p.dateOfBirth);
    var tokens, wordStarts := PrintedTokens(u, fullName);
    var disclosedGiven := NameTokens(u, p.givenNames);
    var tails := SurnameTails(u, p);
    var surname, given := FindSurname(tokens, wordStarts, tails, disclosedGiven);
    GivenIsPart(u, fullName, p, tails, surname, given);
    if !surname && |tokens| > 0 {
      given := tokens[..1];
    }
    var givenNames := GivenNamesMatch(given, disclosedGiven);
    return Outcome(date && surname && givenNames, date, surname, givenNames);
  }

  /** The printed name is cut at a word start into given names and the surname from one of its words round. */
  ghost predicate SplitsAt(tokens: seq<Token>, wordStarts: set<nat>, at: nat, whole: seq<Token>, disclosedGiven: seq<Token>)
  {
    && 0 < at < |tokens| && at in wordStarts
    && !GoesOnInPrefix(tokens[..at], disclosedGiven)
    && exists k: nat :: k < |whole| && EqualTokens(tokens[at..], Rotated(whole, k))
  }

  lemma FitsSplits(tokens: seq<Token>, wordStarts: set<nat>, t: seq<Token>, whole: seq<Token>, disclosedGiven: seq<Token>)
    requires Fits(tokens, wordStarts, t, disclosedGiven) && IsRotation(whole, t)
    ensures |whole| < |tokens| && SplitsAt(tokens, wordStarts, |tokens| - |whole|, whole, disclosedGiven)
  {
    var k: nat :| k < |whole| && t == Rotated(whole, k);
    assert EqualTokens(tokens[|tokens| - |whole|..], Rotated(whole, k));
  }

  lemma SplitsFit(tokens: seq<Token>, wordStarts: set<nat>, at: nat, whole: seq<Token>, disclosedGiven: seq<Token>)
    requires SplitsAt(tokens, wordStarts, at, whole, disclosedGiven)
    ensures exists t :: t != [] && IsRotation(whole, t) && Fits(tokens, wordStarts, t, disclosedGiven)
  {
    var k: nat :| k < |whole| && EqualTokens(tokens[at..], Rotated(whole, k));
    var t := Rotated(whole, k);
    assert |t| == |tokens| - at && |tokens| - |t| == at;
    assert t != [] && IsRotation(whole, t) && Fits(tokens, wordStarts, t, disclosedGiven);
  }

  /**
   The surname is found exactly when the printed name can be cut at the start of a word
   into given names, with no prefix word left over, and the disclosed surname from one
   of its words round to the one before it.
   */
  lemma SurnameFoundIffSplit(u: Unicode, fullName: string, p: Person)
    requires Lawful(u)
    ensures SurnameEnds(u, fullName, p) <==>
            exists at: nat :: SplitsAt(NameTokens(u, fullName), WordStarts(u, fullName), at,
                                       WholeSurname(u, p), NameTokens(u, p.givenNames))
  {
    var tokens, wordStarts := NameTokens(u, fullName), WordStarts(u, fullName);
    var whole, given := WholeSurname(u, p), NameTokens(u, p.givenNames);
    if SurnameEnds(u, fullName, p) {
      var t :| IsTail(u, p, t) && Fits(tokens, wordStarts, t, given);
      FitsSplits(tokens, wordStarts, t, whole, given);
    }
    if at: nat :| SplitsAt(tokens, wordStarts, at, whole, given) {
      SplitsFit(tokens, wordStarts, at, whole, given);
      var t :| t != [] && IsRotation(whole, t) && Fits(tokens, wordStarts, t, given);
      assert IsTail(u, p, t);
    }
  }

  /** The holder's own name as it may be printed, with the prefix before or after the surname. */
  function OwnSurname(p: Person, trailing: bool): string
  {
    if trailing then p.surname + [' '] + p.prefix else p.prefix + [' '] + p.surname
  }

  function OwnName(p: Person, trailing: bool): string
  {
    p.givenNames + [' '] + OwnSurname(p, trailing)
  }

  lemma OwnSurnameIsTail(u: Unicode, p: Person, trailing: bool)
    requires Lawful(u) && WholeSurname(u, p) != []
    ensures IsTail(u, p, NameTokens(u, OwnSurname(p, trailing)))
  {
    var prefix, surname := NameTokens(u, p.prefix), NameTokens(u, p.surname);
    if trailing {
      TokensApart(u, p.surname, ' ', p.prefix);
      assert Rotated(surname + prefix, 0) == surname + prefix;
      TrailingIsTurned(prefix, surname, surname + prefix);
    } else {
      TokensApart(u, p.prefix, ' ', p.surname);
      assert Rotated(prefix + surname, 0) == prefix + surname;
    }
  }

  lemma StartsAfterSpace(u: Unicode, x: string, y: string)
    requires Lawful(u) && NameTokens(u, y) != []
    ensures NameTokens(u, x + [' '] + y) == NameTokens(u, x) + NameTokens(u, y)
    ensures |NameTokens(u, x)| in WordStarts(u, x + [' '] + y)
  {
    TokensApart(u, x, ' ', y);
    TokenizerApart(u);
    WordStartsAfterSpace(Tokenizer(u), x, y);
  }

  lemma Itself(tokens: seq<Token>)
    ensures EqualTokens(tokens, tokens)
  {
  }

  lemma OwnNameFits(u: Unicode, p: Person, trailing: bool)
    requires Lawful(u) && NameTokens(u, p.givenNames) != [] && WholeSurname(u, p) != []
    ensures SurnameEnds(u, OwnName(p, trailing), p)
    ensures GivenPart(u, OwnName(p, trailing), p) == NameTokens(u, p.givenNames)
  {
    var given, tail := NameTokens(u, p.givenNames), NameTokens(u, OwnSurname(p, trailing));
    OwnSurnameIsTail(u, p, trailing);
    TailsAreAsLong(u, p);
    StartsAfterSpace(u, p.givenNames, OwnSurname(p, trailing));
    var tokens := NameTokens(u, OwnName(p, trailing));
    SplitFits(given, tail, WordStarts(u, OwnName(p, trailing)));
    assert Fits(tokens, WordStarts(u, OwnName(p, trailing)), tail, given);
    assert tokens[..|tokens| - |tail|] == given;
  }

  lemma SplitFits(given: seq<Token>, tail: seq<Token>, wordStarts: set<nat>)
    requires given != [] && tail != [] && |given| in wordStarts
    ensures Fits(given + tail, wordStarts, tail, given)
  {
    assert (given + tail)[|given|..] == tail && (given + tail)[..|given|] == given;
    Itself(tail);
  }

  /**
   A holder whose own name is printed, with the prefix before or after the surname,
   matches by name exactly when there is a given name and a surname to match.
   */
  lemma HoldersMatchThemselves(u: Unicode, p: Person, trailing: bool)
    requires Lawful(u)
    ensures SurnameEnds(u, OwnName(p, trailing), p)
            && GivenNamesMatch(GivenPart(u, OwnName(p, trailing), p), NameTokens(u, p.givenNames))
            <==> NameTokens(u, p.givenNames) != [] && WholeSurname(u, p) != []
  {
    if NameTokens(u, p.givenNames) != [] && WholeSurname(u, p) != [] {
      OwnNameFits(u, p, trailing);
      Itself(NameTokens(u, p.givenNames));
    }
  }

  // ---- initials ----

  /** The parts between hyphens. */
  function SplitHyphens(s: string): (parts: seq<string>)
    ensures parts != []
  {
    if s == [] then [[]]
    else
      var rest := SplitHyphens(s[1..]);
      if s[0] == '-' then [[]] + rest else [[s[0]] + rest[0]] + rest[1..]
  }

  /** The printed surname, and its two parts when one hyphen joins them. */
  function SurnameCandidates(u: Unicode, surname: string): seq<seq<Token>>
    requires Lawful(u)
  {
    var parts := SplitHyphens(surname);
    [NameTokens(u, surname)] + if |parts| == 2 then [NameTokens(u, parts[0]), NameTokens(u, parts[1])] else []
  }

  /** One initial per given name, each the start of either spelling of the name in its place. */
  predicate InitialsMatch(u: Unicode, initials: seq<string>, given: seq<Token>)
  {
    && initials != [] && |initials| == |given|
    && forall i :: 0 <= i < |initials| ==>
         var letters := Normalized(u, PLAIN, initials[i]);
         letters != "" && (letters <= given[i].plain || letters <= given[i].icao)
  }

  /** The printed surname, or a part of it, is a rotation of the disclosed one. */
  ghost predicate SurnameIs(u: Unicode, surname: string, p: Person)
    requires Lawful(u)
  {
    exists c, t :: c in SurnameCandidates(u, surname) && IsTail(u, p, t) && EqualTokens(c, t)
  }

  /** Compares printed initials and a surname with the disclosed person. */
  method MatchInitials(u: Unicode, initials: seq<string>, surname: string, dateOfBirth: Option<int>, p: Person) returns (res: Outcome)
    requires Lawful(u)
    ensures res.dateOfBirth == SameBirthDate(dateOfBirth, p.dateOfBirth)
    ensures res.surname == SurnameIs(u, surname, p)
    ensures res.givenNames == InitialsMatch(u, initials, NameTokens(u, p.givenNames))
    ensures res.matched == (res.dateOfBirth && res.surname && res.givenNames)
  {
    var date := SameBirthDate(dateOfBirth, p.dateOfBirth);
    var candidates := SurnameCandidates(u, surname);
    var tails := SurnameTails(u, p);
    var found := FindEqual(candidates, tails);
    var givenNames := InitialsMatch(u, initials, NameTokens(u, p.givenNames));
    return Outcome(date && found && givenNames, date, found, givenNames);
  }

  /** Looks for a tail equal to a candidate. */
  method FindEqual(candidates: seq<seq<Token>>, tails: seq<seq<Token>>) returns (found: bool)
    ensures found <==> exists c, t :: c in candidates && t in tails && EqualTokens(c, t)
  {
    for i := 0 to |tails|
      invariant forall c, j :: 0 <= j < i && c in candidates ==> !EqualTokens(c, tails[j])
    {
      if exists c :: c in candidates && EqualTokens(c, tails[i]) {
        return true;
      }
    }
    return false;
  }

  lemma {:induction false} NoHyphens(s: string)
    requires '-' !in s
    ensures SplitHyphens(s) == [s]
  {
    if s != [] {
      assert s[0] in s;
      NoHyphens(s[1..]);
      assert [s[0]] + s[1..] == s && [s[1..]][1..] == [];
    }
  }

  lemma {:induction false} OneHyphen(x: string, y: string)
    requires '-' !in x && '-' !in y
    ensures SplitHyphens(x + ['-'] + y) == [x, y]
  {
    var s := x + ['-'] + y;
    if x == [] {
      NoHyphens(y);
      assert s[0] == '-' && s[1..] == y;
    } else {
      assert x[0] in x;
      assert s[0] == x[0] && s[1..] == x[1..] + ['-'] + y;
      OneHyphen(x[1..], y);
      assert [x[0]] + x[1..] == x;
    }
  }

  /** The holder's own surname still matches when a partner's is joined to it with a hyphen, in either order. */
  lemma MarriedNamesMatch(u: Unicode, p: Person, partner: string, trailing: bool, ownFirst: bool)
    requires Lawful(u) && WholeSurname(u, p) != []
    requires '-' !in partner && '-' !in OwnSurname(p, trailing)
    ensures SurnameIs(u, if ownFirst then OwnSurname(p, trailing) + ['-'] + partner else partner + ['-'] + OwnSurname(p, trailing), p)
  {
    var own := OwnSurname(p, trailing);
    OwnSurnameIsTail(u, p, trailing);
    Itself(NameTokens(u, own));
    if ownFirst {
      OneHyphen(own, partner);
      assert NameTokens(u, own) == SurnameCandidates(u, own + ['-'] + partner)[1];
    } else {
      OneHyphen(partner, own);
      assert NameTokens(u, own) == SurnameCandidates(u, partner + ['-'] + own)[2];
    }
  }
}
