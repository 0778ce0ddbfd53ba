/**
 Placeholders and escaping: {{name}} placeholders are found by one leftmost scan,
 resolved in the text part as they are and in the HTML part after escaping.
 */
module MailText {
  import opened Text
  import opened Wrappers

  type Vars = map<string, string>

  function Value(vars: Vars, name: string): string
  {
    if name in vars then vars[name] else ""
  }

  // ---- the placeholder pattern ----

  predicate IsLetter(c: char)
  {
    'A' <= c <= 'Z' || 'a' <= c <= 'z'
  }

  predicate IsNameChar(c: char)
  {
    IsLetter(c) || '0' <= c <= '9'
  }

  /** The pattern itself: two braces, blanks up to i, a name up to j, blanks, two braces. */
  ghost predicate IsCut(s: string, i: int, j: int)
  {
    && 2 <= i < j <= |s| - 2
    && s[0] == s[1] == '{' && s[|s| - 2] == s[|s| - 1] == '}'
    && (forall k :: 2 <= k < i ==> IsBlank(s[k]))
    && IsLetter(s[i]) && (forall k :: i <= k < j ==> IsNameChar(s[k]))
    && (forall k :: j <= k < |s| - 2 ==> IsBlank(s[k]))
  }

  ghost predicate IsPlaceholder(s: string, name: string)
  {
    exists i, j :: IsCut(s, i, j) && name == s[i..j]
  }

  /** Where the blanks from i on end. */
  function SkipBlanks(t: string, i: nat): (j: nat)
    requires i <= |t|
    ensures i <= j <= |t| && forall k :: i <= k < j ==> IsBlank(t[k])
    ensures j < |t| ==> !IsBlank(t[j])
    decreases |t| - i
  {
    if i < |t| && IsBlank(t[i]) then SkipBlanks(t, i + 1) else i
  }

  /** Where the letters and digits from i on end. */
  function SkipName(t: string, i: nat): (j: nat)
    requires i <= |t|
    ensures i <= j <= |t| && forall k :: i <= k < j ==> IsNameChar(t[k])
    ensures j < |t| ==> !IsNameChar(t[j])
    decreases |t| - i
  {
    if i < |t| && IsNameChar(t[i]) then SkipName(t, i + 1) else i
  }

  datatype Found = Found(name: string, length: nat)

  /** The placeholder the text starts with, by one look at each character. */
  function Match(t: string): (m: Option<Found>)
    ensures m.Some? ==> 5 <= m.value.length <= |t|
  {
    if |t| < 2 || t[0] != '{' || t[1] != '{' then None
    else
      var i := SkipBlanks(t, 2);
      var j := SkipName(t, i);
      var k := SkipBlanks(t, j);
      if i < j && IsLetter(t[i]) && k + 2 <= |t| && t[k] == '}' && t[k + 1] == '}' then Some(Found(t[i..j], k + 2))
      else None
  }

  /** What the scan matches is a placeholder. */
  lemma MatchIsPlaceholder(t: string)
    requires Match(t).Some?
    ensures IsPlaceholder(t[..Match(t).value.length], Match(t).value.name)
  {
    var i := SkipBlanks(t, 2);
    var j := SkipName(t, i);
    var s := t[..SkipBlanks(t, j) + 2];
    assert forall k :: 0 <= k < |s| ==> s[k] == t[k];
    assert IsCut(s, i, j);
    assert s[i..j] == t[i..j];
  }

  lemma BlanksTo(t: string, i: nat, j: nat)
    requires i <= j < |t| && (forall k :: i <= k < j ==> IsBlank(t[k])) && !IsBlank(t[j])
    ensures SkipBlanks(t, i) == j
  {
  }

  lemma NameTo(t: string, i: nat, j: nat)
    requires i <= j < |t| && (forall k :: i <= k < j ==> IsNameChar(t[k])) && !IsNameChar(t[j])
    ensures SkipName(t, i) == j
  {
  }

  /** A text that starts with a placeholder is cut the same way as the placeholder. */
  lemma MatchCut(t: string, n: nat, i: int, j: int)
    requires n <= |t| && IsCut(t[..n], i, j)
    ensures Match(t) == Some(Found(t[i..j], n))
  {
    var s := t[..n];
    assert forall k :: 0 <= k < n ==> t[k] == s[k];
    assert IsNameChar(t[i]) && t[n - 2] == t[n - 1] == '}';
    assert IsBlank(t[j]) || j == n - 2;
    BlanksTo(t, 2, i);
    NameTo(t, i, j);
    BlanksTo(t, j, n - 2);
  }

  /** The scan finds every placeholder the text starts with, and there is only one. */
  lemma MatchFinds(t: string, s: string, name: string)
    requires s <= t && IsPlaceholder(s, name)
    ensures Match(t) == Some(Found(name, |s|))
  {
    var i, j :| IsCut(s, i, j) && name == s[i..j];
    assert s == t[..|s|];
    MatchCut(t, |s|, i, j);
    assert t[i..j] == s[i..j];
  }

  /** A text as the leftmost, non-overlapping matches cut it up. */
  datatype Piece = Char(c: char) | Hole(name: string, text: string)

  function Scan(t: string): seq<Piece>
  {
    if t == [] then []
    else match Match(t)
         case Some(m) => [Hole(m.name, t[..m.length])] + Scan(t[m.length..])
         case None => [Char(t[0])] + Scan(t[1..])
  }

  function PieceText(p: Piece): string
  {
    match p
    case Char(c) => [c]
    case Hole(_, text) => text
  }

  function Print(pieces: seq<Piece>): string
  {
    if pieces == [] then [] else PieceText(pieces[0]) + Print(pieces[1..])
  }

  /** The first piece of a text, cut off it. */
  lemma ScanFirst(t: string)
    requires t != []
    ensures Scan(t) != []
    ensures var n := |PieceText(Scan(t)[0])|;
            1 <= n <= |t| && PieceText(Scan(t)[0]) == t[..n] && Scan(t)[1..] == Scan(t[n..])
  {
    if Match(t).Some? {
      assert Scan(t)[1..] == Scan(t[Match(t).value.length..]);
    } else {
      assert Scan(t)[1..] == Scan(t[1..]) && [t[0]] == t[..1];
    }
  }

  /** The scan cuts the text up without losing or moving anything. */
  lemma {:induction false} ScanPrints(t: string)
    ensures Print(Scan(t)) == t
  {
    if t != [] {
      ScanFirst(t);
      var pieces := Scan(t);
      var n := |PieceText(pieces[0])|;
      ScanPrints(t[n..]);
      assert Print(pieces) == PieceText(pieces[0]) + Print(pieces[1..]);
      assert t[..n] + t[n..] == t;
    }
  }

  // ---- substitution and escaping ----

  /** The pieces with each placeholder's value in its place, which is never looked at again. */
  function Replace(pieces: seq<Piece>, vars: Vars): string
  {
    if pieces == [] then []
    else (match pieces[0] case Char(c) => [c] case Hole(name, _) => Value(vars, name)) + Replace(pieces[1..], vars)
  }

  function SubstituteText(t: string, vars: Vars): string
  {
    Replace(Scan(t), vars)
  }

  function EscapeChar(c: char): string
  {
    if c == '&' then "&amp;"
    else if c == '\'' then "&#39;"
    else if c == '<' then "&lt;"
    else if c == '>' then "&gt;"
    else if c == '"' then "&#34;"
    else [c]
  }

  function EscapeString(t: string): string
  {
    if t == [] then [] else EscapeChar(t[0]) + EscapeString(t[1..])
  }

  function BreakLines(t: string): string
  {
    if t == [] then [] else (if t[0] == '\n' then "<br />" else [t[0]]) + BreakLines(t[1..])
  }

  function EscapeToHTML(t: string): string
  {
    BreakLines(EscapeString(t))
  }

  function EscapedValue(p: Piece, vars: Vars): string
  {
    match p
    case Char(c) => [c]
    case Hole(name, _) => EscapeToHTML(Value(vars, name))
  }

  function ReplaceEscaped(pieces: seq<Piece>, vars: Vars): string
  {
    if pieces == [] then [] else EscapedValue(pieces[0], vars) + ReplaceEscaped(pieces[1..], vars)
  }

  /** Escapes the whole text, then resolves the placeholders still found in it to escaped values. */
  function SubstituteHTML(t: string, vars: Vars): string
  {
    ReplaceEscaped(Scan(EscapeToHTML(t)), vars)
  }

  /** What one character becomes in the HTML part. */
  function HTMLChar(c: char): string
  {
    if c == '\n' then "<br />" else EscapeChar(c)
  }

  /** Character by character, what the two passes of escaping make of a text. */
  function HTMLOf(t: string): string
  {
    if t == [] then [] else HTMLChar(t[0]) + HTMLOf(t[1..])
  }

  lemma {:induction false} BreakLinesConcat(s: string, t: string)
    ensures BreakLines(s + t) == BreakLines(s) + BreakLines(t)
  {
    if s == [] {
      assert s + t == t;
    } else {
      assert (s + t)[1..] == s[1..] + t;
      BreakLinesConcat(s[1..], t);
    }
  }

  lemma {:induction false} NothingToBreak(s: string)
    requires '\n' !in s
    ensures BreakLines(s) == s
  {
    if s != [] {
      NothingToBreak(s[1..]);
    }
  }

  lemma BreaksOfChar(c: char)
    ensures BreakLines(EscapeChar(c)) == HTMLChar(c)
  {
    var s := EscapeChar(c);
    if c == '\n' {
      assert BreakLines(s[1..]) == [];
    } else {
      NothingToBreak(s);
    }
  }

  /** The line breaks are made after escaping, so their markup is not escaped itself. */
  lemma {:induction false} EscapeIsHTML(t: string)
    ensures EscapeToHTML(t) == HTMLOf(t)
  {
    if t != [] {
      BreakLinesConcat(EscapeChar(t[0]), EscapeString(t[1..]));
      BreaksOfChar(t[0]);
      EscapeIsHTML(t[1..]);
    }
  }

  lemma {:induction false} HTMLConcat(s: string, t: string)
    ensures HTMLOf(s + t) == HTMLOf(s) + HTMLOf(t)
  {
    if s == [] {
      assert s + t == t;
    } else {
      assert (s + t)[1..] == s[1..] + t;
      HTMLConcat(s[1..], t);
    }
  }

  /** A character the HTML part leaves as it is. */
  predicate IsPlain(c: char)
  {
    c !in "&'<>\"\n"
  }

  lemma PlainChar(c: char)
    ensures IsPlain(c) ==> HTMLChar(c) == [c]
    ensures !IsPlain(c) ==> |HTMLChar(c)| > 1 && (HTMLChar(c)[0] == '&' || HTMLChar(c)[0] == '<')
    ensures forall i :: 0 <= i < |HTMLChar(c)| && HTMLChar(c)[i] == '{' ==> IsPlain(c)
  {
  }

  lemma {:induction false} PlainStays(s: string)
    requires forall c :: c in s ==> IsPlain(c)
    ensures HTMLOf(s) == s
  {
    if s != [] {
      PlainChar(s[0]);
      PlainStays(s[1..]);
    }
  }

  // ---- placeholders in an escaped text ----

  /** A placeholder whose braces hold no newline. */
  predicate Clean(p: Piece)
  {
    p.Hole? ==> '\n' !in p.text
  }

  predicate CleanText(t: string)
  {
    forall p :: p in Scan(t) ==> Clean(p)
  }

  /** The only character of a placeholder that escaping changes is a newline. */
  predicate InPlaceholder(c: char)
  {
    c == '\n' || (IsPlain(c) && c != '{')
  }

  lemma PlaceholderChars(s: string, name: string)
    requires IsPlaceholder(s, name)
    ensures |s| >= 5 && s[0] == s[1] == '{' && forall i :: 2 <= i < |s| ==> InPlaceholder(s[i])
  {
    var i, j :| IsCut(s, i, j) && name == s[i..j];
    forall k | 2 <= k < |s| ensures InPlaceholder(s[k]) {
      assert IsBlank(s[k]) || IsNameChar(s[k]) || s[k] == '}';
    }
  }

  /** What stands plain at the start of the escaped text stood there in the text. */
  lemma {:induction false} PlainPrefix(t: string, s: string)
    requires s <= HTMLOf(t) && forall c :: c in s ==> c != '&' && c != '<'
    ensures s <= t && forall c :: c in s ==> IsPlain(c)
  {
    if s != [] {
      assert t != [];
      PlainChar(t[0]);
      assert s[0] == HTMLChar(t[0])[0] && s[0] in s;
      assert HTMLOf(t)[1..] == HTMLOf(t[1..]);
      assert forall c :: c in s[1..] ==> c in s;
      PlainPrefix(t[1..], s[1..]);
      assert s == [s[0]] + s[1..] && t == [t[0]] + t[1..];
    }
  }

  lemma KeptMatch(t: string)
    requires Match(t).Some? && '\n' !in t[..Match(t).value.length]
    ensures Match(HTMLOf(t)) == Match(t)
    ensures var n := Match(t).value.length; HTMLOf(t) == t[..n] + HTMLOf(t[n..])
  {
    var m := Match(t).value;
    var s := t[..m.length];
    MatchIsPlaceholder(t);
    PlaceholderChars(s, m.name);
    PlainStays(s);
    assert t == s + t[m.length..];
    HTMLConcat(s, t[m.length..]);
    MatchFinds(HTMLOf(t), s, m.name);
  }

  lemma NoNewMatch(t: string)
    requires Match(HTMLOf(t)).Some?
    ensures Match(t) == Match(HTMLOf(t)) && '\n' !in t[..Match(t).value.length]
  {
    var h := HTMLOf(t);
    var m := Match(h).value;
    var s := h[..m.length];
    MatchIsPlaceholder(h);
    PlainStart(t, s, m.name);
    MatchFinds(t, s, m.name);
  }

  lemma NoMarkup(s: string, name: string)
    requires IsPlaceholder(s, name)
    ensures forall c :: c in s ==> c != '&' && c != '<'
  {
    PlaceholderChars(s, name);
    forall i | 0 <= i < |s| ensures s[i] != '&' && s[i] != '<' {
      assert i >= 2 ==> InPlaceholder(s[i]);
    }
  }

  lemma PlainStart(t: string, s: string, name: string)
    requires s <= HTMLOf(t) && IsPlaceholder(s, name)
    ensures s <= t && '\n' !in s && '\n' !in t[..|s|]
  {
    NoMarkup(s, name);
    PlainPrefix(t, s);
    assert s == t[..|s|];
  }

  // ---- the pieces of an escaped text ----

  function Chars(s: string): seq<Piece>
  {
    if s == [] then [] else [Char(s[0])] + Chars(s[1..])
  }

  lemma ScanStep(c: char, rest: string)
    requires Match([c] + rest) == None
    ensures Scan([c] + rest) == [Char(c)] + Scan(rest)
  {
    assert ([c] + rest)[1..] == rest;
  }

  lemma NoFirstBrace(t: string)
    requires t != [] && t[0] != '{'
    ensures Match(t) == None && Scan(t) == [Char(t[0])] + Scan(t[1..])
  {
  }

  /** No placeholder starts where no brace opens. */
  lemma {:induction false} NoMatchInside(s: string, rest: string)
    requires '{' !in s
    ensures Scan(s + rest) == Chars(s) + Scan(rest)
  {
    if s == [] {
      assert s + rest == rest;
    } else {
      var whole := s + rest;
      assert s[0] in s && whole[0] == s[0] && whole[1..] == s[1..] + rest;
      NoFirstBrace(whole);
      NoMatchInside(s[1..], rest);
    }
  }

  /** What escaping makes of one piece: a newline placeholder falls apart into characters. */
  function EscapedPiece(p: Piece): seq<Piece>
  {
    match p
    case Char(c) => Chars(HTMLChar(c))
    case Hole(_, text) => if Clean(p) then [p] else Chars(HTMLOf(text))
  }

  function EscapedPieces(pieces: seq<Piece>): seq<Piece>
  {
    if pieces == [] then [] else EscapedPiece(pieces[0]) + EscapedPieces(pieces[1..])
  }

  lemma ScanEscapedChar(t: string)
    requires t != [] && Match(t) == None
    ensures Scan(HTMLOf(t)) == Chars(HTMLChar(t[0])) + Scan(HTMLOf(t[1..]))
  {
    var s := HTMLChar(t[0]);
    PlainChar(t[0]);
    if '{' in s {
      if Match(HTMLOf(t)).Some? {
        NoNewMatch(t);
      }
      ScanStep(t[0], HTMLOf(t[1..]));
      assert Chars([t[0]]) == [Char(t[0])] + Chars([t[0]][1..]);
    } else {
      NoMatchInside(s, HTMLOf(t[1..]));
    }
  }

  lemma ScanKeptHole(t: string)
    requires Match(t).Some? && '\n' !in t[..Match(t).value.length]
    ensures var m := Match(t).value; Scan(HTMLOf(t)) == [Hole(m.name, t[..m.length])] + Scan(HTMLOf(t[m.length..]))
  {
    var m := Match(t).value;
    KeptMatch(t);
    var s, h := t[..m.length], HTMLOf(t);
    assert h[..m.length] == s && h[m.length..] == HTMLOf(t[m.length..]);
  }

  /** A newline placeholder is no placeholder once escaped, and none starts within it. */
  lemma ScanLostHole(t: string)
    requires Match(t).Some? && '\n' in t[..Match(t).value.length]
    ensures var n := Match(t).value.length; Scan(HTMLOf(t)) == Chars(HTMLOf(t[..n])) + Scan(HTMLOf(t[n..]))
  {
    var n := Match(t).value.length;
    var h, rest := HTMLOf(t[2..n]), HTMLOf(t[n..]);
    LostMatch(t);
    LostShape(t);
    LostScan(HTMLOf(t), h, rest);
    BracedChars(h, Scan(rest));
  }

  lemma LostMatch(t: string)
    requires Match(t).Some? && '\n' in t[..Match(t).value.length]
    ensures Match(HTMLOf(t)) == None
  {
    if Match(HTMLOf(t)).Some? {
      NoNewMatch(t);
    }
  }

  lemma LostShape(t: string)
    requires Match(t).Some?
    ensures var n := Match(t).value.length;
            var h, whole := HTMLOf(t[2..n]), HTMLOf(t);
            && HTMLOf(t[..n]) == ['{'] + (['{'] + h)
            && |whole| >= 3 && whole[0] == whole[1] == '{' && whole[2] != '{' && whole[2..] == h + HTMLOf(t[n..])
            && '{' !in h
  {
    var n := Match(t).value.length;
    var s := t[..n];
    MatchIsPlaceholder(t);
    PlaceholderChars(s, Match(t).value.name);
    assert t == s + t[n..];
    HTMLConcat(s, t[n..]);
    assert s[2..] == t[2..n];
    OpenBraces(s);
    NoBraces(s[2..]);
    PastBraces(HTMLOf(s[2..]), HTMLOf(t[n..]));
  }

  lemma PastBraces(h: string, rest: string)
    requires h != [] && '{' !in h
    ensures var whole := ['{'] + (['{'] + h) + rest;
            |whole| >= 3 && whole[0] == whole[1] == '{' && whole[2] != '{' && whole[2..] == h + rest
  {
    assert h[0] in h;
  }

  lemma LostScan(t: string, h: string, rest: string)
    requires |t| >= 3 && t[0] == t[1] == '{' && t[2] != '{' && t[2..] == h + rest && '{' !in h
    requires Match(t) == None
    ensures Scan(t) == [Char('{')] + ([Char('{')] + (Chars(h) + Scan(rest)))
  {
    NoMatchInside(h, rest);
    NoSecondBrace(t[1..]);
    assert t[1..][1..] == t[2..];
  }

  lemma NoSecondBrace(t: string)
    requires |t| >= 2 && t[1] != '{'
    ensures Match(t) == None
  {
  }

  lemma BracedChars(h: string, after: seq<Piece>)
    ensures [Char('{')] + ([Char('{')] + (Chars(h) + after)) == Chars(['{'] + (['{'] + h)) + after
  {
    CharsStep('{', h);
    CharsStep('{', ['{'] + h);
  }

  lemma CharsStep(c: char, h: string)
    ensures Chars([c] + h) == [Char(c)] + Chars(h)
  {
    assert ([c] + h)[1..] == h;
  }

  lemma OpenBraces(s: string)
    requires |s| >= 3 && s[0] == s[1] == '{'
    ensures HTMLOf(s) == ['{'] + (['{'] + HTMLOf(s[2..])) && HTMLOf(s[2..]) != []
  {
    PlainStep(s);
    PlainStep(s[1..]);
    assert s[1..][1..] == s[2..];
    NotEmpty(s[2..]);
  }

  lemma PlainStep(s: string)
    requires s != [] && IsPlain(s[0])
    ensures HTMLOf(s) == [s[0]] + HTMLOf(s[1..])
  {
    PlainChar(s[0]);
  }

  lemma NotEmpty(s: string)
    requires s != []
    ensures HTMLOf(s) != []
  {
    PlainChar(s[0]);
  }

  lemma {:induction false} NoBraces(s: string)
    requires forall i :: 0 <= i < |s| ==> s[i] != '{'
    ensures '{' !in HTMLOf(s)
  {
    if s != [] {
      PlainChar(s[0]);
      NoBraces(s[1..]);
    }
  }

  /** Scanning the escaped text is escaping the scanned text. */
  lemma {:induction false} ScanEscaped(t: string)
    ensures Scan(HTMLOf(t)) == EscapedPieces(Scan(t))
  {
    if t != [] {
      if Match(t).Some? {
        var m := Match(t).value;
        if '\n' in t[..m.length] {
          ScanLostHole(t);
        } else {
          ScanKeptHole(t);
        }
        ScanEscaped(t[m.length..]);
        assert Scan(t)[1..] == Scan(t[m.length..]);
      } else {
        ScanEscapedChar(t);
        ScanEscaped(t[1..]);
        assert Scan(t)[1..] == Scan(t[1..]);
      }
    }
  }

  // ---- the HTML part against the text part ----

  /** What the HTML part shows for one piece: its value, or its own text when a newline hides it. */
  function ShownPiece(p: Piece, vars: Vars): string
  {
    match p
    case Char(c) => [c]
    case Hole(name, text) => if Clean(p) then Value(vars, name) else text
  }

  function Shown(pieces: seq<Piece>, vars: Vars): string
  {
    if pieces == [] then [] else ShownPiece(pieces[0], vars) + Shown(pieces[1..], vars)
  }

  lemma ReplaceFirst(p: Piece, rest: seq<Piece>, vars: Vars)
    ensures ReplaceEscaped([p] + rest, vars) == EscapedValue(p, vars) + ReplaceEscaped(rest, vars)
  {
    assert ([p] + rest)[1..] == rest;
  }

  lemma {:induction false} ReplaceChars(s: string, rest: seq<Piece>, vars: Vars)
    ensures ReplaceEscaped(Chars(s) + rest, vars) == s + ReplaceEscaped(rest, vars)
  {
    if s == [] {
      assert Chars(s) + rest == rest;
    } else {
      assert Chars(s) + rest == [Char(s[0])] + (Chars(s[1..]) + rest);
      ReplaceFirst(Char(s[0]), Chars(s[1..]) + rest, vars);
      ReplaceChars(s[1..], rest, vars);
      Joined(s, ReplaceEscaped(rest, vars));
    }
  }

  lemma Joined(s: string, rest: string)
    requires s != []
    ensures [s[0]] + (s[1..] + rest) == s + rest
  {
  }

  lemma PieceShown(p: Piece, rest: seq<Piece>, vars: Vars)
    ensures ReplaceEscaped(EscapedPiece(p) + rest, vars) == HTMLOf(ShownPiece(p, vars)) + ReplaceEscaped(rest, vars)
  {
    match p
    case Char(c) =>
      ReplaceChars(HTMLChar(c), rest, vars);
      assert [c][1..] == [];
    case Hole(name, text) =>
      if Clean(p) {
        EscapeIsHTML(Value(vars, name));
        ReplaceFirst(p, rest, vars);
      } else {
        ReplaceChars(HTMLOf(text), rest, vars);
      }
  }

  lemma {:induction false} PiecesShown(pieces: seq<Piece>, vars: Vars)
    ensures ReplaceEscaped(EscapedPieces(pieces), vars) == HTMLOf(Shown(pieces, vars))
  {
    if pieces != [] {
      PieceShown(pieces[0], EscapedPieces(pieces[1..]), vars);
      PiecesShown(pieces[1..], vars);
      HTMLConcat(ShownPiece(pieces[0], vars), Shown(pieces[1..], vars));
    }
  }

  /**
   The HTML part is the escaped form of one string for every text and all values: the
   text with its values put in, each once and never scanned again, except that a
   placeholder with a newline inside its braces stays as it stands.
   */
  lemma HTMLShows(t: string, vars: Vars)
    ensures SubstituteHTML(t, vars) == EscapeToHTML(Shown(Scan(t), vars))
  {
    EscapeIsHTML(t);
    ScanEscaped(t);
    PiecesShown(Scan(t), vars);
    EscapeIsHTML(Shown(Scan(t), vars));
  }

  lemma {:induction false} CleanShown(pieces: seq<Piece>, vars: Vars)
    requires forall p :: p in pieces ==> Clean(p)
    ensures Shown(pieces, vars) == Replace(pieces, vars)
  {
    if pieces != [] {
      assert Clean(pieces[0]);
      CleanShown(pieces[1..], vars);
    }
  }

  /** With every value empty, a newline placeholder makes the HTML part say more than the text part. */
  lemma {:induction false} DirtyShowsMore(pieces: seq<Piece>)
    ensures |Shown(pieces, map[])| >= |Replace(pieces, map[])|
    ensures (exists p :: p in pieces && !Clean(p)) ==> |Shown(pieces, map[])| > |Replace(pieces, map[])|
  {
    if pieces != [] {
      DirtyShowsMore(pieces[1..]);
      assert Clean(pieces[0]) ==> |ShownPiece(pieces[0], map[])| == |Replace([pieces[0]], map[])|;
    }
  }

  /** Reads an escaped text back. */
  function Unescape(h: string): string
  {
    if h == [] then []
    else if "&amp;" <= h then "&" + Unescape(h[5..])
    else if "&#39;" <= h then "'" + Unescape(h[5..])
    else if "&lt;" <= h then "<" + Unescape(h[4..])
    else if "&gt;" <= h then ">" + Unescape(h[4..])
    else if "&#34;" <= h then "\"" + Unescape(h[5..])
    else if "<br />" <= h then "\n" + Unescape(h[6..])
    else [h[0]] + Unescape(h[1..])
  }

  lemma UnescapeStep(c: char, rest: string)
    ensures Unescape(HTMLChar(c) + rest) == [c] + Unescape(rest)
  {
    var e := HTMLChar(c);
    var h := e + rest;
    assert h[|e|..] == rest;
    PlainChar(c);
    assert h[0] == e[0];
    if !IsPlain(c) {
      assert h[1] == e[1] && h[2] == e[2] && h[3] == e[3];
    }
  }

  /** Escaping loses nothing: the text comes back from its escaped form. */
  lemma {:induction false} EscapeRoundTrip(t: string)
    ensures Unescape(EscapeToHTML(t)) == t
  {
    EscapeIsHTML(t);
    if t != [] {
      UnescapeStep(t[0], HTMLOf(t[1..]));
      EscapeIsHTML(t[1..]);
      EscapeRoundTrip(t[1..]);
    }
  }

  /**
   Substitution commutes with escaping, whatever the values, exactly when no
   placeholder of the text has a newline inside its braces.
   */
  lemma {:induction false} CommutesIffClean(t: string)
    ensures (forall vars: Vars :: SubstituteHTML(t, vars) == EscapeToHTML(SubstituteText(t, vars))) <==> CleanText(t)
  {
    if CleanText(t) {
      forall vars: Vars ensures SubstituteHTML(t, vars) == EscapeToHTML(SubstituteText(t, vars)) {
        HTMLShows(t, vars);
        CleanShown(Scan(t), vars);
      }
    } else {
      var none: Vars := map[];
      HTMLShows(t, none);
      DirtyShowsMore(Scan(t));
      EscapeRoundTrip(Shown(Scan(t), none));
      EscapeRoundTrip(SubstituteText(t, none));
      assert SubstituteHTML(t, none) != EscapeToHTML(SubstituteText(t, none));
    }
  }

  // ---- what validation sees of a text ----

  function Names(t: string): set<string>
  {
    set p | p in Scan(t) && p.Hole? :: p.name
  }

  predicate HasBraces(s: string)
  {
    exists i :: 0 <= i < |s| && "{{" <= s[i..]
  }

  /** Only declared placeholders, and no "{{" left over once they are cut out. */
  predicate ValidPlaceholders(t: string, allowed: set<string>)
  {
    Names(t) <= allowed && !HasBraces(SubstituteText(t, map[]))
  }

  /** A placeholder standing alone. */
  lemma WholePlaceholder(t: string, name: string)
    requires IsPlaceholder(t, name)
    ensures Scan(t) == [Hole(name, t)]
  {
    MatchFinds(t, t, name);
    assert t[..|t|] == t && t[|t|..] == [];
  }

  const NEWLINE_PLACEHOLDER := "{{\na}}"

  lemma NewlinePlaceholderScans()
    ensures Scan(NEWLINE_PLACEHOLDER) == [Hole("a", NEWLINE_PLACEHOLDER)]
  {
    var t := NEWLINE_PLACEHOLDER;
    assert IsPlaceholder(t, "a") by {
      assert IsCut(t, 3, 4) && t[3..4] == "a";
    }
    WholePlaceholder(t, "a");
  }

  lemma HoleReplaced(name: string, text: string, vars: Vars)
    ensures Replace([Hole(name, text)], vars) == Value(vars, name)
    ensures Shown([Hole(name, text)], vars) == if '\n' in text then text else Value(vars, name)
  {
    var pieces := [Hole(name, text)];
    assert pieces[1..] == [];
  }

  /** A newline placeholder validates, and the HTML part keeps it whatever its value. */
  lemma {:induction false} NewlinePlaceholderKept(value: string)
    ensures ValidPlaceholders(NEWLINE_PLACEHOLDER, {"a"})
    ensures SubstituteText(NEWLINE_PLACEHOLDER, map["a" := value]) == value
    ensures Unescape(SubstituteHTML(NEWLINE_PLACEHOLDER, map["a" := value])) == NEWLINE_PLACEHOLDER
  {
    var t, vars := NEWLINE_PLACEHOLDER, map["a" := value];
    NewlinePlaceholderScans();
    HoleReplaced("a", t, vars);
    HoleReplaced("a", t, map[]);
    assert t[2] == '\n';
    HTMLShows(t, vars);
    EscapeRoundTrip(t);
  }
}
