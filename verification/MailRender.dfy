/**
 Rendering a mail: a template of typed blocks is validated, its variables are checked,
 its blocks are resolved in order, and every link that reaches the mail is checked.
 */
module MailRender {
  import opened MailText
  import opened Text
  import opened Wrappers

  const MAX_BLOCKS := 24

  datatype Kind = Heading | Paragraph | Footer | Button | Qr | Logo | Divider | Unknown

  datatype Block = Block(kind: Kind, text: string, caption: string, url: string, linkFallback: string)

  datatype Template = Template(subject: string, preheader: string, blocks: seq<Block>)

  /** A declared variable; appScheme is "" for one that carries no app link. */
  datatype Variable = Variable(name: string, isURL: bool, appScheme: string)

  datatype Url = Url(scheme: string, host: string)

  /** The URL parser: the scheme and host of a text that is a URL. */
  type Parser = string -> Option<Url>

  datatype Prose = Prose(html: string, text: string)

  /** contentID is the number of a QR block's image. */
  datatype Resolved = Resolved(kind: Kind, text: Prose, caption: Prose, url: string, linkFallback: Prose, contentID: Option<nat>)

  datatype Failure = BadTemplate | MissingVariable(name: string) | BadURL(name: string) | Undeclared | BadLink(index: nat) | NoQr(index: nat)

  datatype Result<T> = Ok(value: T) | Err(failure: Failure)

  // ---- links ----

  /** An absolute http or https URL with a host. */
  predicate IsHttp(parse: Parser, value: string)
  {
    && value != ""
    && parse(value).Some?
    && parse(value).value.scheme in {"http", "https"}
    && parse(value).value.host != ""
  }

  /** What a URL variable may hold: an http(s) URL, or an app link of the variable's own scheme. */
  predicate IsLink(parse: Parser, v: Variable, value: string)
  {
    IsHttp(parse, value)
    || (v.appScheme != "" && parse(value).Some?
        && parse(value).value.scheme == v.appScheme
        && parse(value).value.scheme !in {"http", "https"} && parse(value).value.host != "")
  }

  function FirstHole(pieces: seq<Piece>): Option<Piece>
  {
    if pieces == [] then None else if pieces[0].Hole? then Some(pieces[0]) else FirstHole(pieces[1..])
  }

  /** The first declaration of a name. */
  function Declared(variables: seq<Variable>, name: string): (v: Option<Variable>)
    ensures v.Some? ==> v.value in variables && v.value.name == name
    ensures v.None? ==> forall u :: u in variables ==> u.name != name
  {
    if variables == [] then None
    else if variables[0].name == name then Some(variables[0])
    else Declared(variables[1..], name)
  }

  function DeclaredNames(variables: seq<Variable>): set<string>
  {
    set v | v in variables :: v.name
  }

  /** A block's link: one URL variable standing alone, or an http(s) URL without placeholders. */
  predicate ValidButtonURL(parse: Parser, value: string, variables: seq<Variable>)
  {
    && value != ""
    && match FirstHole(Scan(value))
       case Some(Hole(name, text)) =>
         text == value && (Declared(variables, name).Some? ==> Declared(variables, name).value.isURL)
       case _ => IsHttp(parse, value)
  }

  // ---- validation ----

  predicate IsTextKind(kind: Kind)
  {
    kind == Heading || kind == Paragraph || kind == Footer
  }

  predicate IsLinkKind(kind: Kind)
  {
    kind == Button || kind == Qr
  }

  predicate ValidBlock(parse: Parser, b: Block, variables: seq<Variable>)
  {
    var allowed := DeclaredNames(variables);
    && ValidPlaceholders(b.text, allowed) && ValidPlaceholders(b.caption, allowed)
    && ValidPlaceholders(b.url, allowed) && ValidPlaceholders(b.linkFallback, allowed)
    && match b.kind
       case Heading | Paragraph | Footer => b.caption == b.url == b.linkFallback == "" && TrimSpace(b.text) != ""
       case Button => b.text == "" && TrimSpace(b.caption) != "" && ValidButtonURL(parse, b.url, variables)
       case Qr => b.text == b.linkFallback == "" && ValidButtonURL(parse, b.url, variables)
       case Logo | Divider => b.text == b.caption == b.url == b.linkFallback == ""
       case Unknown => false
  }

  predicate ValidTemplate(parse: Parser, t: Template, variables: seq<Variable>)
  {
    && ValidPlaceholders(t.subject, DeclaredNames(variables))
    && ValidPlaceholders(t.preheader, DeclaredNames(variables))
    && TrimSpace(t.subject) != ""
    && 1 <= |t.blocks| <= MAX_BLOCKS
    && (forall b :: b in t.blocks ==> ValidBlock(parse, b, variables))
    && exists b :: b in t.blocks && (b.kind == Heading || b.kind == Paragraph)
  }

  // ---- resolving ----

  const NO_PROSE := Prose("", "")

  /** Both renderings of a text, or nothing when it has placeholders and all their values are empty. */
  function ResolveProse(t: string, vars: Vars): Prose
  {
    if t == "" then NO_PROSE
    else if Names(t) != {} && forall name :: name in Names(t) ==> Value(vars, name) == "" then NO_PROSE
    else Prose(SubstituteHTML(t, vars), SubstituteText(t, vars))
  }

  function ResolveBlock(b: Block, vars: Vars): Resolved
  {
    match b.kind
    case Heading | Paragraph | Footer => Resolved(b.kind, ResolveProse(b.text, vars), NO_PROSE, "", NO_PROSE, None)
    case Button =>
      Resolved(b.kind, NO_PROSE, ResolveProse(b.caption, vars), SubstituteText(b.url, vars), ResolveProse(b.linkFallback, vars), None)
    case Qr => Resolved(b.kind, NO_PROSE, ResolveProse(b.caption, vars), SubstituteText(b.url, vars), NO_PROSE, None)
    case Logo | Divider | Unknown => Resolved(b.kind, NO_PROSE, NO_PROSE, "", NO_PROSE, None)
  }

  /** A text block whose prose comes to nothing. */
  predicate Dropped(b: Block, vars: Vars)
  {
    IsTextKind(b.kind) && TrimSpace(ResolveProse(b.text, vars).text) == ""
  }

  /** The resolved blocks that stay. */
  function ResolvedBlocks(blocks: seq<Block>, vars: Vars): seq<Resolved>
  {
    if blocks == [] then []
    else
      var before, b := ResolvedBlocks(blocks[..|blocks| - 1], vars), blocks[|blocks| - 1];
      if Dropped(b, vars) then before else before + [ResolveBlock(b, vars)]
  }

  /** The loop over the layout. */
  method ResolveContent(blocks: seq<Block>, vars: Vars) returns (content: seq<Resolved>)
    ensures content == ResolvedBlocks(blocks, vars)
  {
    content := [];
    for i := 0 to |blocks|
      invariant content == ResolvedBlocks(blocks[..i], vars)
    {
      assert blocks[..i + 1][..i] == blocks[..i];
      var b := blocks[i];
      var r := Resolved(b.kind, NO_PROSE, NO_PROSE, "", NO_PROSE, None);
      if IsTextKind(b.kind) {
        r := r.(text := ResolveProse(b.text, vars));
        if TrimSpace(r.text.text) == "" {
          continue;
        }
      } else if b.kind == Button {
        r := r.(caption := ResolveProse(b.caption, vars), linkFallback := ResolveProse(b.linkFallback, vars));
        r := r.(url := SubstituteText(b.url, vars));
      } else if b.kind == Qr {
        r := r.(caption := ResolveProse(b.caption, vars), url := SubstituteText(b.url, vars));
      }
      content := content + [r];
    }
    assert blocks[..|blocks|] == blocks;
  }

  /** Which blocks stay, by their place in the layout. */
  function Kept(blocks: seq<Block>, vars: Vars): seq<nat>
  {
    if blocks == [] then []
    else
      var n := |blocks| - 1;
      Kept(blocks[..n], vars) + if Dropped(blocks[n], vars) then [] else [n]
  }

  lemma {:induction false} KeptIsSorted(blocks: seq<Block>, vars: Vars)
    ensures forall k :: 0 <= k < |Kept(blocks, vars)| ==> Kept(blocks, vars)[k] < |blocks|
    ensures forall k, l :: 0 <= k < l < |Kept(blocks, vars)| ==> Kept(blocks, vars)[k] < Kept(blocks, vars)[l]
  {
    if blocks != [] {
      KeptIsSorted(blocks[..|blocks| - 1], vars);
    }
  }

  lemma {:induction false} KeptAreNotDropped(blocks: seq<Block>, vars: Vars, i: nat)
    requires i < |blocks|
    ensures i in Kept(blocks, vars) <==> !Dropped(blocks[i], vars)
  {
    var n := |blocks| - 1;
    KeptIsSorted(blocks[..n], vars);
    if i < n {
      KeptAreNotDropped(blocks[..n], vars, i);
    }
  }

  lemma {:induction false} KeptIsContent(blocks: seq<Block>, vars: Vars)
    ensures |Kept(blocks, vars)| == |ResolvedBlocks(blocks, vars)|
    ensures forall k :: 0 <= k < |Kept(blocks, vars)| ==>
              Kept(blocks, vars)[k] < |blocks| && ResolvedBlocks(blocks, vars)[k] == ResolveBlock(blocks[Kept(blocks, vars)[k]], vars)
  {
    if blocks != [] {
      var n := |blocks| - 1;
      KeptIsContent(blocks[..n], vars);
      forall k | 0 <= k < |Kept(blocks, vars)|
        ensures Kept(blocks, vars)[k] < |blocks|
        ensures ResolvedBlocks(blocks, vars)[k] == ResolveBlock(blocks[Kept(blocks, vars)[k]], vars)
      {
        if k < |Kept(blocks[..n], vars)| {
          assert Kept(blocks, vars)[k] == Kept(blocks[..n], vars)[k];
        }
      }
    }
  }

  /**
   Resolving keeps the layout's order and drops exactly the text blocks whose prose
   comes to nothing.
   */
  lemma {:induction false} LayoutIsKept(blocks: seq<Block>, vars: Vars)
    ensures var kept, content := Kept(blocks, vars), ResolvedBlocks(blocks, vars);
            && |kept| == |content|
            && (forall k :: 0 <= k < |kept| ==> kept[k] < |blocks| && content[k] == ResolveBlock(blocks[kept[k]], vars))
            && (forall k, l :: 0 <= k < l < |kept| ==> kept[k] < kept[l])
            && (forall i :: 0 <= i < |blocks| ==> (i in kept <==> !Dropped(blocks[i], vars)))
  {
    KeptIsSorted(blocks, vars);
    KeptIsContent(blocks, vars);
    forall i | 0 <= i < |blocks| ensures i in Kept(blocks, vars) <==> !Dropped(blocks[i], vars) {
      KeptAreNotDropped(blocks, vars, i);
    }
  }

  lemma {:induction false} NoHolesNoChange(pieces: seq<Piece>, vars: Vars)
    requires forall p :: p in pieces ==> p.Char?
    ensures Replace(pieces, vars) == Print(pieces)
  {
    if pieces != [] {
      assert pieces[0].Char?;
      NoHolesNoChange(pieces[1..], vars);
    }
  }

  lemma NamedIn(t: string, p: Piece)
    requires p in Scan(t) && p.Hole?
    ensures p.name in Names(t)
  {
  }

  /** A text without placeholders is its own rendering. */
  lemma LiteralStays(t: string, vars: Vars)
    requires Names(t) == {}
    ensures SubstituteText(t, vars) == t
  {
    forall p | p in Scan(t) ensures p.Char? {
      if p.Hole? {
        NamedIn(t, p);
      }
    }
    NoHolesNoChange(Scan(t), vars);
    ScanPrints(t);
  }

  /** A valid text block disappears only for its placeholders: all empty, or blank with the text around them. */
  lemma {:induction false} DroppedForItsVariables(parse: Parser, b: Block, variables: seq<Variable>, vars: Vars)
    requires ValidBlock(parse, b, variables) && IsTextKind(b.kind)
    ensures Dropped(b, vars) <==>
            Names(b.text) != {} &&
            ((forall name :: name in Names(b.text) ==> Value(vars, name) == "") || TrimSpace(SubstituteText(b.text, vars)) == "")
  {
    if Names(b.text) == {} {
      LiteralStays(b.text, vars);
    }
    assert TrimSpace("") == "";
  }

  // ---- rendering ----

  /** The first declared variable that is missing or holds no link it should hold. */
  function VariableFailure(parse: Parser, variables: seq<Variable>, vars: Vars): Option<Failure>
  {
    if variables == [] then None
    else
      var v := variables[0];
      if v.name !in vars then Some(MissingVariable(v.name))
      else if v.isURL && !IsLink(parse, v, vars[v.name]) then Some(BadURL(v.name))
      else VariableFailure(parse, variables[1..], vars)
  }

  /** Every declared variable is supplied, each URL variable with a link. */
  predicate WellTyped(parse: Parser, variables: seq<Variable>, vars: Vars)
  {
    forall v :: v in variables ==> v.name in vars && (v.isURL ==> IsLink(parse, v, vars[v.name]))
  }

  lemma {:induction false} NoFailureIffWellTyped(parse: Parser, variables: seq<Variable>, vars: Vars)
    ensures VariableFailure(parse, variables, vars).None? <==> WellTyped(parse, variables, vars)
  {
    if variables != [] {
      NoFailureIffWellTyped(parse, variables[1..], vars);
      assert forall v :: v in variables <==> v == variables[0] || v in variables[1..];
    }
  }

  /** Numbers the QR blocks in order. */
  function Numbered(content: seq<Resolved>): seq<Resolved>
  {
    if content == [] then []
    else
      var before, r := Numbered(content[..|content| - 1]), content[|content| - 1];
      before + [if r.kind == Qr then r.(contentID := Some(|QrLinks(content[..|content| - 1])|)) else r]
  }

  /** What the QR images encode, in order. */
  function QrLinks(content: seq<Resolved>): seq<string>
  {
    if content == [] then []
    else
      var before, r := QrLinks(content[..|content| - 1]), content[|content| - 1];
      if r.kind == Qr then before + [r.url] else before
  }

  /** The app links among the values. */
  function AppLinks(variables: seq<Variable>, vars: Vars): set<string>
  {
    set v | v in variables && v.isURL && v.appScheme != "" :: Value(vars, v.name)
  }

  /** The blocks of a rendered mail and the links its images encode. */
  datatype Body = Body(content: seq<Resolved>, images: seq<string>)

  /** The first block whose resolved link is refused, or whose image cannot be made. */
  function LinkFailure(parse: Parser, encodes: string -> bool, appLinks: set<string>, content: seq<Resolved>): Option<Failure>
  {
    if content == [] then None
    else
      var n := |content| - 1;
      var before, r := LinkFailure(parse, encodes, appLinks, content[..n]), content[n];
      if before.Some? then before
      else if IsLinkKind(r.kind) && r.url !in appLinks && !IsHttp(parse, r.url) then Some(BadLink(n))
      else if r.kind == Qr && !encodes(r.url) then Some(NoQr(n))
      else None
  }

  function Embedded(parse: Parser, encodes: string -> bool, appLinks: set<string>, content: seq<Resolved>): Result<Body>
  {
    var failure := LinkFailure(parse, encodes, appLinks, content);
    if failure.Some? then Err(failure.value) else Ok(Body(Numbered(content), QrLinks(content)))
  }

  /** What rendering answers. */
  function Rendered(parse: Parser, encodes: string -> bool, variables: seq<Variable>, t: Template, vars: Vars): Result<Body>
  {
    if !ValidTemplate(parse, t, variables) then Err(BadTemplate)
    else if VariableFailure(parse, variables, vars).Some? then Err(VariableFailure(parse, variables, vars).value)
    else if !(vars.Keys <= DeclaredNames(variables)) then Err(Undeclared)
    else Embedded(parse, encodes, AppLinks(variables, vars), ResolvedBlocks(t.blocks, vars))
  }

  lemma {:induction false} FirstHoleIs(pieces: seq<Piece>)
    ensures FirstHole(pieces).Some? ==> FirstHole(pieces).value in pieces && FirstHole(pieces).value.Hole?
    ensures FirstHole(pieces).None? ==> forall p :: p in pieces ==> p.Char?
  {
    if pieces != [] {
      FirstHoleIs(pieces[1..]);
    }
  }

  /** A scanned hole as long as the text is the whole of it. */
  lemma {:induction false} WholeHole(t: string, p: Piece)
    requires p in Scan(t) && p.Hole? && |p.text| >= |t|
    ensures Scan(t) == [p]
  {
    if Match(t).Some? {
      var m := Match(t).value;
      if p in Scan(t[m.length..]) {
        HolesFit(t[m.length..], p);
        assert false;
      }
      assert t[m.length..] == [];
    } else {
      HolesFit(t[1..], p);
      assert false;
    }
  }

  lemma {:induction false} HolesFit(t: string, p: Piece)
    requires p in Scan(t) && p.Hole?
    ensures |p.text| <= |t|
  {
    if t != [] {
      if Match(t).Some? {
        var m := Match(t).value;
        if p in Scan(t[m.length..]) {
          HolesFit(t[m.length..], p);
        }
      } else {
        HolesFit(t[1..], p);
      }
    }
  }

  /** A link is checked when it is http(s), or an app link some variable may hold. */
  ghost predicate IsChecked(parse: Parser, variables: seq<Variable>, vars: Vars, link: string)
  {
    link in AppLinks(variables, vars) || IsHttp(parse, link)
  }

  /** The one link of a valid block: a checked literal, or the value of one declared URL variable. */
  lemma ResolvedLinkIsChecked(parse: Parser, url: string, variables: seq<Variable>, vars: Vars)
    requires ValidPlaceholders(url, DeclaredNames(variables)) && ValidButtonURL(parse, url, variables)
    requires WellTyped(parse, variables, vars)
    ensures IsChecked(parse, variables, vars, SubstituteText(url, vars))
    ensures SubstituteText(url, vars) == url || exists v :: v in variables && v.isURL && SubstituteText(url, vars) == Value(vars, v.name)
  {
    FirstHoleIs(Scan(url));
    if FirstHole(Scan(url)).Some? {
      var p := FirstHole(Scan(url)).value;
      assert p.name in Names(url);
      WholeHole(url, p);
      HoleReplaced(p.name, p.text, vars);
      var v := Declared(variables, p.name).value;
      assert v in variables && v.isURL && v.appScheme != "" ==> Value(vars, v.name) in AppLinks(variables, vars);
    } else {
      assert Names(url) == {};
      LiteralStays(url, vars);
    }
  }

  /** Every link that reaches a mail of a valid template and well-typed variables is checked. */
  lemma EveryLinkIsChecked(parse: Parser, t: Template, variables: seq<Variable>, vars: Vars, k: nat)
    requires ValidTemplate(parse, t, variables) && WellTyped(parse, variables, vars)
    requires k < |ResolvedBlocks(t.blocks, vars)| && IsLinkKind(ResolvedBlocks(t.blocks, vars)[k].kind)
    ensures IsChecked(parse, variables, vars, ResolvedBlocks(t.blocks, vars)[k].url)
  {
    LayoutIsKept(t.blocks, vars);
    var b := t.blocks[Kept(t.blocks, vars)[k]];
    assert ValidBlock(parse, b, variables);
    ResolvedLinkIsChecked(parse, b.url, variables, vars);
  }

  /** The loop over the supplied variables. */
  method CheckVariables(parse: Parser, variables: seq<Variable>, vars: Vars) returns (failure: Option<Failure>)
    ensures failure == VariableFailure(parse, variables, vars)
  {
    for i := 0 to |variables|
      invariant VariableFailure(parse, variables, vars) == VariableFailure(parse, variables[i..], vars)
    {
      var v := variables[i];
      assert variables[i..][0] == v && variables[i..][1..] == variables[i + 1..];
      if v.name !in vars {
        return Some(MissingVariable(v.name));
      }
      if v.isURL && !IsLink(parse, v, vars[v.name]) {
        return Some(BadURL(v.name));
      }
    }
    assert variables[|variables|..] == [];
    return None;
  }

  /** The loop over the resolved blocks: checks each link where it lands, and makes the QR images. */
  method EmbedImages(parse: Parser, encodes: string -> bool, appLinks: set<string>, resolved: seq<Resolved>)
    returns (res: Result<Body>)
    ensures res == Embedded(parse, encodes, appLinks, resolved)
  {
    var content, images := resolved, [];
    for i := 0 to |resolved|
      invariant |content| == |resolved|
      invariant content[..i] == Numbered(resolved[..i]) && content[i..] == resolved[i..]
      invariant images == QrLinks(resolved[..i])
      invariant LinkFailure(parse, encodes, appLinks, resolved[..i]).None?
    {
      var r := resolved[i];
      assert resolved[..i + 1][..i] == resolved[..i];
      assert content[i] == content[i..][0] == r;
      if IsLinkKind(r.kind) && r.url !in appLinks && !IsHttp(parse, r.url) {
        FailureStays(parse, encodes, appLinks, resolved, i + 1);
        return Err(BadLink(i));
      }
      if r.kind == Qr {
        if !encodes(r.url) {
          FailureStays(parse, encodes, appLinks, resolved, i + 1);
          return Err(NoQr(i));
        }
        content := content[i := r.(contentID := Some(|images|))];
        images := images + [r.url];
      }
      assert content[..i + 1] == content[..i] + [content[i]];
      assert content[i + 1..] == resolved[i..][1..];
    }
    assert resolved[..|resolved|] == resolved && content[..|resolved|] == content;
    return Ok(Body(content, images));
  }

  lemma {:induction false} FailureStays(parse: Parser, encodes: string -> bool, appLinks: set<string>, content: seq<Resolved>, n: nat)
    requires n <= |content| && LinkFailure(parse, encodes, appLinks, content[..n]).Some?
    ensures LinkFailure(parse, encodes, appLinks, content) == LinkFailure(parse, encodes, appLinks, content[..n])
  {
    if n < |content| {
      var m := |content| - 1;
      assert content[..m][..n] == content[..n];
      FailureStays(parse, encodes, appLinks, content[..m], n);
    } else {
      assert content[..n] == content;
    }
  }

  /** Renders the template, checking each link again where it lands. */
  method Render(parse: Parser, encodes: string -> bool, variables: seq<Variable>, t: Template, vars: Vars)
    returns (res: Result<Body>)
    ensures res == Rendered(parse, encodes, variables, t, vars)
  {
    if !ValidTemplate(parse, t, variables) {
      return Err(BadTemplate);
    }
    var failure := CheckVariables(parse, variables, vars);
    if failure.Some? {
      return Err(failure.value);
    }
    if !(vars.Keys <= DeclaredNames(variables)) {
      return Err(Undeclared);
    }
    var content := ResolveContent(t.blocks, vars);
    res := EmbedImages(parse, encodes, AppLinks(variables, vars), content);
  }

  lemma {:induction false} NumberedLength(content: seq<Resolved>)
    ensures |Numbered(content)| == |content|
  {
    if content != [] {
      NumberedLength(content[..|content| - 1]);
    }
  }

  /** Each QR block shows the image of its own link. */
  lemma {:induction false} QrImagesMatch(content: seq<Resolved>, i: nat)
    requires i < |content| && content[i].kind == Qr
    ensures |Numbered(content)| == |content|
    ensures var id := Numbered(content)[i].contentID;
            id.Some? && id.value < |QrLinks(content)| && QrLinks(content)[id.value] == content[i].url
  {
    var n := |content| - 1;
    NumberedLength(content);
    NumberedLength(content[..n]);
    if i < n {
      assert content[..n][i] == content[i];
      QrImagesMatch(content[..n], i);
    }
  }

  /** Every QR link of the content has an image. */
  ghost predicate AllEncode(content: seq<Resolved>, encodes: string -> bool)
  {
    forall i :: 0 <= i < |content| && content[i].kind == Qr ==> encodes(content[i].url)
  }

  ghost predicate AllChecked(parse: Parser, appLinks: set<string>, content: seq<Resolved>)
  {
    forall i :: 0 <= i < |content| && IsLinkKind(content[i].kind) ==> content[i].url in appLinks || IsHttp(parse, content[i].url)
  }

  /** Where all links are checked, only an image can fail. */
  lemma {:induction false} OnlyImagesFail(parse: Parser, encodes: string -> bool, appLinks: set<string>, content: seq<Resolved>)
    requires AllChecked(parse, appLinks, content)
    ensures LinkFailure(parse, encodes, appLinks, content).None? <==> AllEncode(content, encodes)
    ensures LinkFailure(parse, encodes, appLinks, content).Some? ==> LinkFailure(parse, encodes, appLinks, content).value.NoQr?
  {
    if content != [] {
      var n := |content| - 1;
      assert forall i :: 0 <= i < n ==> content[..n][i] == content[i];
      OnlyImagesFail(parse, encodes, appLinks, content[..n]);
    }
  }

  /**
   Rendering fails only for the template, the variables or an image that cannot be
   made: once those are right, the second look at the links refuses none of them.
   */
  lemma {:induction false} RendersIffWellFormed(parse: Parser, encodes: string -> bool, variables: seq<Variable>, t: Template, vars: Vars)
    ensures Rendered(parse, encodes, variables, t, vars).Ok? <==>
            && ValidTemplate(parse, t, variables)
            && WellTyped(parse, variables, vars)
            && vars.Keys <= DeclaredNames(variables)
            && AllEncode(ResolvedBlocks(t.blocks, vars), encodes)
    ensures Rendered(parse, encodes, variables, t, vars).Err? ==> !Rendered(parse, encodes, variables, t, vars).failure.BadLink?
  {
    NoFailureIffWellTyped(parse, variables, vars);
    FailureIsOfVariable(parse, variables, vars);
    if ValidTemplate(parse, t, variables) && WellTyped(parse, variables, vars) {
      var content := ResolvedBlocks(t.blocks, vars);
      forall k | 0 <= k < |content| && IsLinkKind(content[k].kind)
        ensures content[k].url in AppLinks(variables, vars) || IsHttp(parse, content[k].url)
      {
        EveryLinkIsChecked(parse, t, variables, vars, k);
      }
      OnlyImagesFail(parse, encodes, AppLinks(variables, vars), content);
    }
  }

  lemma {:induction false} FailureIsOfVariable(parse: Parser, variables: seq<Variable>, vars: Vars)
    ensures VariableFailure(parse, variables, vars).Some? ==> !VariableFailure(parse, variables, vars).value.BadLink?
  {
    if variables != [] {
      FailureIsOfVariable(parse, variables[1..], vars);
    }
  }
}
