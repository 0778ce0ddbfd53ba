/**
 The "Loongegevens" part of a Verzekeringsbericht: label lines and month lines are
 read into blocks, blocks are classified and merged into relations, and the current
 relations say whether the holder has a job.
 */
module StatementText {
  import opened Text
  import opened Wrappers

  predicate IsDigit(c: char)
  {
    '0' <= c <= '9'
  }

  /** Case folding onto ASCII: its capitals, the long s and the Kelvin sign. */
  function Fold(c: char): char
  {
    if 'A' <= c <= 'Z' then c - 'A' + 'a' else if c == '\U{017F}' then 's' else if c == '\U{212A}' then 'k' else c
  }

  /** Equality without case against an ASCII text. */
  predicate EqualFold(s: string, ascii: string)
  {
    |s| == |ascii| && forall i :: 0 <= i < |s| ==> Fold(s[i]) == Fold(ascii[i])
  }

  /** Days in order: one number per calendar day, months of 31 slots. */
  function Day(year: int, month: int, day: int): int
  {
    year * 372 + (month - 1) * 31 + (day - 1)
  }

  /** The zero time, 1 January of year 1. */
  const ZERO: int := Day(1, 1, 1)

  function Number(digits: string): nat
    requires forall i :: 0 <= i < |digits| ==> IsDigit(digits[i])
  {
    if digits == [] then 0
    else
      var last := digits[|digits| - 1];
      assert IsDigit(last);
      Number(digits[..|digits| - 1]) * 10 + (last as int - '0' as int)
  }

  function DaysIn(month: nat, year: nat): nat
  {
    if month in {4, 6, 9, 11} then 30
    else if month == 2 then if year % 4 == 0 && (year % 100 != 0 || year % 400 == 0) then 29 else 28
    else 31
  }

  /** A printed date: two digits, two digits and four, between hyphens. */
  predicate IsDateText(s: string)
  {
    |s| == 10 && s[2] == '-' && s[5] == '-' && forall i :: 0 <= i < 10 && i != 2 && i != 5 ==> IsDigit(s[i])
  }

  /** The day a printed date names, if the calendar has it. */
  function ParseDate(s: string): Option<int>
    requires IsDateText(s)
  {
    var day, month, year := Number(s[..2]), Number(s[3..5]), Number(s[6..]);
    if 1 <= month <= 12 && 1 <= day <= DaysIn(month, year) then Some(Day(year, month, day)) else None
  }

  function SkipBlanks(s: string): string
  {
    if s != [] && IsBlank(s[0]) then SkipBlanks(s[1..]) else s
  }

  function LeadingDigits(s: string): string
  {
    if s != [] && IsDigit(s[0]) then [s[0]] + LeadingDigits(s[1..]) else []
  }

  /** The hours between a period and its wages' euro sign, or "" when there are none. */
  function HoursAfter(s: string): string
  {
    var rest := SkipBlanks(s);
    var hours := LeadingDigits(rest);
    if |rest| < |s| && hours != [] && |hours| < |rest| && IsBlank(rest[|hours|])
       && "\U{20AC}" <= SkipBlanks(rest[|hours|..]) then hours
    else ""
  }

  predicate IsPeriod(l: string)
  {
    |l| >= 25 && IsDateText(l[..10]) && l[10..15] == " t/m " && IsDateText(l[15..25])
  }

  /** One month reported: its first and last day, and whether hours were worked. */
  datatype Month = Month(from: int, to: int, worked: bool)

  datatype MonthLine = NoMonth | BadDate | AMonth(month: Month)

  function MonthOn(l: string): MonthLine
  {
    if !IsPeriod(l) then NoMonth
    else
      var from, to, hours := ParseDate(l[..10]), ParseDate(l[15..25]), HoursAfter(l[25..]);
      if from == None || to == None then BadDate
      else AMonth(Month(from.value, to.value, hours != "" && hours != "0"))
  }
}

module EmploymentStatement {
  import opened StatementText
  import opened Text
  import opened Wrappers

  const LABEL_EMPLOYER := "Werkgever/Instantie"
  const LABEL_PAYROLL_TAX := "Loonheffingennummer"
  const LABEL_CONTRACT_FORM := "Contractvorm"
  const HEADING_PERIODS := "Periode Aantal uur Sv-loon"
  const HEADING_DISCLAIMER := "Disclaimer:"

  const UWV_PAYER := "UWV"
  const SICK_VIA := "Ziektewet- of WAZO-Uitkering van "

  const UWV_BENEFITS: seq<string> := [
    "Ziektewet- of WAZO-Uitkering van UWV",
    "WAO-Uitkering van UWV",
    "WW-Uitkering van UWV",
    "WAZ-Uitkering van UWV",
    "WAO- en Wajong-Uitkering van UWV",
    "WIA (IVA)-Uitkering van UWV",
    "WIA (WGA)-Uitkering van UWV",
    "Toeslag bij Uitkering (TW) van UWV",
    "IOW-Uitkering van UWV",
    "UWV; Loondoorbetaling bij faillissement"]

  const UWV_PAYROLL_TAX_NUMBERS: seq<string> := [
    "810220350L02", "810220350L04", "810220350L20", "810220350L23", "810220350L26", "810220350L53"]

  datatype Kind = Unclassified | Employment | Benefit | OtherIncome | SickViaEmployer

  /** What a relation is of: the payer, its number and contract, and what it is. */
  datatype Key = Key(kind: Kind, employer: string, number: string, contract: string)

  /** A relation: its key over the months from and to, worked up to worked. */
  datatype Relation = Relation(key: Key, from: int, to: int, worked: int)

  datatype Result<T> = Ok(value: T) | NotAStatement

  // ---- classification ----

  predicate IsUwvBenefit(employer: string)
  {
    exists b :: b in UWV_BENEFITS && EqualFold(employer, b)
  }

  /** Sick pay through an employer: the prefix without case, then a name on the same line. */
  predicate IsSickVia(employer: string)
  {
    && |employer| > |SICK_VIA| && EqualFold(employer[..|SICK_VIA|], SICK_VIA)
    && '\n' !in employer[|SICK_VIA|..]
  }

  function Classified(k: Key): Key
  {
    if IsUwvBenefit(k.employer) then
      Key(if k.number in UWV_PAYROLL_TAX_NUMBERS then Benefit else Employment, UWV_PAYER, "", k.contract)
    else if IsSickVia(k.employer) then k.(kind := SickViaEmployer, employer := k.employer[|SICK_VIA|..])
    else k.(kind := Employment)
  }

  /** Rewrites the key in place, as the relation's fields are. */
  method Classify(r: Relation) returns (c: Relation)
    ensures c == r.(key := Classified(r.key))
  {
    var uwvBenefit := false;
    for i := 0 to |UWV_BENEFITS|
      invariant uwvBenefit <==> exists j :: 0 <= j < i && EqualFold(r.key.employer, UWV_BENEFITS[j])
    {
      uwvBenefit := uwvBenefit || EqualFold(r.key.employer, UWV_BENEFITS[i]);
    }
    c := r;
    if uwvBenefit {
      c := c.(key := c.key.(kind := Employment));
      if r.key.number in UWV_PAYROLL_TAX_NUMBERS {
        c := c.(key := c.key.(kind := Benefit));
      }
      c := c.(key := c.key.(employer := UWV_PAYER, number := ""));
    } else if IsSickVia(r.key.employer) {
      c := c.(key := c.key.(kind := SickViaEmployer, employer := r.key.employer[|SICK_VIA|..]));
    } else {
      c := c.(key := c.key.(kind := Employment));
    }
  }

  // ---- blocks of lines ----

  /** One printed block: its labels and its month lines, in order. */
  datatype Block = Block(employer: string, number: string, contract: string, months: seq<Month>)

  datatype Scan =
    | Scanning(blocks: seq<Block>, inContract: bool)
    | Stopped(blocks: seq<Block>)
    | Failed

  function WithLast(blocks: seq<Block>, b: Block): seq<Block>
    requires blocks != []
  {
    blocks[..|blocks| - 1] + [b]
  }

  /** What one line does to the blocks read so far. */
  function ScanLine(s: Scan, l: string): Scan
  {
    if !s.Scanning? then s
    else if HEADING_DISCLAIMER <= l then Stopped(s.blocks)
    else if LABEL_EMPLOYER <= l then
      Scanning(s.blocks + [Block(TrimSpace(l[|LABEL_EMPLOYER|..]), "", "", [])], false)
    else if s.blocks == [] then s
    else
      var last := s.blocks[|s.blocks| - 1];
      if LABEL_PAYROLL_TAX <= l then
        s.(blocks := WithLast(s.blocks, last.(number := TrimSpace(l[|LABEL_PAYROLL_TAX|..]))))
      else if LABEL_CONTRACT_FORM <= l then
        Scanning(WithLast(s.blocks, last.(contract := TrimSpace(l[|LABEL_CONTRACT_FORM|..]))), true)
      else if l == HEADING_PERIODS then s.(inContract := false)
      else if s.inContract && !IsPeriod(l) then
        s.(blocks := WithLast(s.blocks, last.(contract := TrimSpace(last.contract + " " + l))))
      else match MonthOn(l)
           case NoMonth => s
           case BadDate => Failed
           case AMonth(m) => s.(blocks := WithLast(s.blocks, last.(months := last.months + [m])))
  }

  function ScanLines(s: Scan, lines: seq<string>): Scan
    decreases lines
  {
    if lines == [] then s else ScanLines(ScanLine(s, lines[0]), lines[1..])
  }

  /** The blocks of a statement's lines; none when a month line prints an impossible date. */
  function BlocksOf(lines: seq<string>): Result<seq<Block>>
  {
    var s := ScanLines(Scanning([], false), lines);
    if s.Failed? then NotAStatement else Ok(s.blocks)
  }

  // ---- relations of blocks ----

  /** A relation widened to one more month. */
  function AddMonth(r: Relation, m: Month): Relation
  {
    Relation(r.key,
             if r.from == ZERO || m.from < r.from then m.from else r.from,
             if r.to < m.to then m.to else r.to,
             if m.worked && r.worked < m.to then m.to else r.worked)
  }

  function Over(key: Key, months: seq<Month>): Relation
  {
    if months == [] then Relation(key, ZERO, ZERO, ZERO)
    else AddMonth(Over(key, months[..|months| - 1]), months[|months| - 1])
  }

  function PrintedKey(b: Block): Key
  {
    Key(Unclassified, b.employer, b.number, b.contract)
  }

  /** The relation a block is read into, before classification. */
  function Printed(b: Block): Relation
  {
    Over(PrintedKey(b), b.months)
  }

  function PrintedAll(blocks: seq<Block>): seq<Relation>
  {
    seq(|blocks|, i requires 0 <= i < |blocks| => Printed(blocks[i]))
  }

  /** Widens the relation to the month on the line, when it is a month line. */
  method AddPeriod(r: Relation, l: string) returns (res: Result<Relation>)
    ensures res == match MonthOn(l) case NoMonth => Ok(r) case BadDate => NotAStatement case AMonth(m) => Ok(AddMonth(r, m))
  {
    if !IsPeriod(l) {
      return Ok(r);
    }
    var from := ParseDate(l[..10]);
    if from == None {
      return NotAStatement;
    }
    var to := ParseDate(l[15..25]);
    if to == None {
      return NotAStatement;
    }
    var hours, widened := HoursAfter(l[25..]), r;
    if r.from == ZERO || from.value < r.from {
      widened := widened.(from := from.value);
    }
    if r.to < to.value {
      widened := widened.(to := to.value);
    }
    if hours != "" && hours != "0" && r.worked < to.value {
      widened := widened.(worked := to.value);
    }
    return Ok(widened);
  }

  lemma PrintedGrows(b: Block, m: Month)
    ensures Printed(b.(months := b.months + [m])) == AddMonth(Printed(b), m)
  {
    assert (b.months + [m])[..|b.months|] == b.months;
  }

  lemma {:induction false} RelabelledOver(key: Key, key': Key, months: seq<Month>)
    ensures Over(key', months) == Over(key, months).(key := key')
  {
    if months != [] {
      RelabelledOver(key, key', months[..|months| - 1]);
    }
  }

  /** What the reading loop holds of a scan: the relations of its blocks. */
  ghost predicate Reads(s: Scan, relations: seq<Relation>, inContract: bool)
  {
    s.Scanning? && relations == PrintedAll(s.blocks) && inContract == s.inContract
  }

  /** What ParseRelations answers. */
  function Parsed(lines: seq<string>): Result<seq<Relation>>
  {
    match BlocksOf(lines)
    case NotAStatement => NotAStatement
    case Ok(blocks) => Ok(Merged(PrintedAll(blocks)))
  }

  /** Reads the relation blocks, up to the disclaimer, and merges them. */
  method ParseRelations(lines: seq<string>) returns (res: Result<seq<Relation>>)
    ensures res == Parsed(lines)
  {
    var relations: seq<Relation>, inContract := [], false;
    ghost var s := Scanning([], false);
    var stopped := false;
    for i := 0 to |lines|
      invariant !stopped
      invariant ScanLines(Scanning([], false), lines) == ScanLines(s, lines[i..])
      invariant Reads(s, relations, inContract)
    {
      var l := lines[i];
      ghost var s' := ScanLine(s, l);
      assert lines[i..][0] == l && lines[i..][1..] == lines[i + 1..];
      if HEADING_DISCLAIMER <= l {
        StoppedStays(s', lines[i + 1..]);
        stopped := true;
        break;
      }
      var next := ReadLine(s, relations, inContract, l);
      if next.NotAStatement? {
        StoppedStays(s', lines[i + 1..]);
        return NotAStatement;
      }
      relations, inContract := next.value.0, next.value.1;
      s := s';
    }
    assert stopped || lines[|lines|..] == [];
    var merged := MergeRelations(relations);
    return Ok(merged);
  }

  /** One turn of the loop, past the disclaimer check: the last relation is the current one. */
  method ReadLine(ghost s: Scan, relations: seq<Relation>, inContract: bool, l: string)
    returns (next: Result<(seq<Relation>, bool)>)
    requires Reads(s, relations, inContract) && !(HEADING_DISCLAIMER <= l)
    ensures next.NotAStatement? <==> ScanLine(s, l).Failed?
    ensures next.Ok? ==> Reads(ScanLine(s, l), next.value.0, next.value.1)
  {
    if LABEL_EMPLOYER <= l {
      var key := Key(Unclassified, TrimSpace(l[|LABEL_EMPLOYER|..]), "", "");
      return Ok((relations + [Relation(key, ZERO, ZERO, ZERO)], false));
    }
    if relations == [] {
      return Ok((relations, inContract));
    }
    var n := |relations| - 1;
    var current := relations[n];
    ghost var last := s.blocks[n];
    RelabelledOver(PrintedKey(last), PrintedKey(last), last.months);
    if LABEL_PAYROLL_TAX <= l {
      current := current.(key := current.key.(number := TrimSpace(l[|LABEL_PAYROLL_TAX|..])));
      RelabelledOver(PrintedKey(last), current.key, last.months);
      return Ok((relations[n := current], inContract));
    }
    if LABEL_CONTRACT_FORM <= l {
      current := current.(key := current.key.(contract := TrimSpace(l[|LABEL_CONTRACT_FORM|..])));
      RelabelledOver(PrintedKey(last), current.key, last.months);
      return Ok((relations[n := current], true));
    }
    if l == HEADING_PERIODS {
      return Ok((relations, false));
    }
    if inContract && !IsPeriod(l) {
      current := current.(key := current.key.(contract := TrimSpace(current.key.contract + " " + l)));
      RelabelledOver(PrintedKey(last), current.key, last.months);
      return Ok((relations[n := current], inContract));
    }
    var widened := AddPeriod(current, l);
    if widened.NotAStatement? {
      return NotAStatement;
    }
    if MonthOn(l).AMonth? {
      PrintedGrows(last, MonthOn(l).month);
    }
    return Ok((relations[n := widened.value], inContract));
  }

  lemma {:induction false} StoppedStays(s: Scan, lines: seq<string>)
    requires !s.Scanning?
    ensures ScanLines(s, lines) == s
  {
    if lines != [] {
      StoppedStays(s, lines[1..]);
    }
  }

  // ---- merging ----

  /** Where the key is among the relations, or past their end. */
  function IndexOf(relations: seq<Relation>, key: Key): (i: nat)
    ensures i <= |relations|
    ensures i < |relations| ==> relations[i].key == key
    ensures forall j :: 0 <= j < i ==> relations[j].key != key
  {
    if relations == [] then 0
    else if relations[0].key == key then 0
    else 1 + IndexOf(relations[1..], key)
  }

  /** Two parts of one relation. */
  function Joined(r: Relation, b: Relation): Relation
  {
    Relation(r.key,
             if b.from < r.from then b.from else r.from,
             if r.to < b.to then b.to else r.to,
             if r.worked < b.worked then b.worked else r.worked)
  }

  /** A classified block joined to its relation, or the first of a new one; one without months is dropped. */
  function JoinedInto(merged: seq<Relation>, c: Relation): seq<Relation>
  {
    if c.from == ZERO then merged
    else
      var i := IndexOf(merged, c.key);
      if i < |merged| then merged[i := Joined(merged[i], c)] else merged + [c]
  }

  function MergedInto(merged: seq<Relation>, b: Relation): seq<Relation>
  {
    JoinedInto(merged, b.(key := Classified(b.key)))
  }

  function Merged(blocks: seq<Relation>): seq<Relation>
  {
    if blocks == [] then [] else MergedInto(Merged(blocks[..|blocks| - 1]), blocks[|blocks| - 1])
  }

  /** The index map names each relation by its key, and each key once. */
  ghost predicate Indexes(at: map<Key, nat>, merged: seq<Relation>)
  {
    && (forall i :: 0 <= i < |merged| ==> merged[i].key in at && at[merged[i].key] == i)
    && (forall k :: k in at ==> at[k] < |merged| && merged[at[k]].key == k)
  }

  /** Classifies each block, drops one without months, and joins the blocks of one relation. */
  method MergeRelations(blocks: seq<Relation>) returns (merged: seq<Relation>)
    ensures merged == Merged(blocks)
  {
    merged := [];
    var at: map<Key, nat> := map[];
    for n := 0 to |blocks|
      invariant merged == Merged(blocks[..n])
      invariant Indexes(at, merged)
    {
      assert blocks[..n + 1][..n] == blocks[..n];
      var b := blocks[n];
      if b.from == ZERO {
        continue;
      }
      b := Classify(b);
      if b.key !in at {
        at := at[b.key := |merged|];
        merged := merged + [b];
        continue;
      }
      var i := at[b.key];
      var r := merged[i];
      if b.from < r.from {
        r := r.(from := b.from);
      }
      if r.to < b.to {
        r := r.(to := b.to);
      }
      if r.worked < b.worked {
        r := r.(worked := b.worked);
      }
      merged := merged[i := r];
    }
    assert blocks[..|blocks|] == blocks;
  }

  // ---- a relation spans all the months of its key ----

  /** The months one block reports of a relation. */
  datatype Stretch = Stretch(key: Key, months: seq<Month>)

  function KeyOf(b: Block): Key
  {
    Classified(PrintedKey(b))
  }

  function Stretches(blocks: seq<Block>): seq<Stretch>
  {
    seq(|blocks|, i requires 0 <= i < |blocks| => Stretch(KeyOf(blocks[i]), blocks[i].months))
  }

  /** The keys of the stretches that report a month, in the order first seen. */
  function Keys(stretches: seq<Stretch>): seq<Key>
  {
    if stretches == [] then []
    else
      var before, s := Keys(stretches[..|stretches| - 1]), stretches[|stretches| - 1];
      if s.months == [] || s.key in before then before else before + [s.key]
  }

  /** All months of all stretches of one key. */
  function MonthsOf(stretches: seq<Stretch>, key: Key): seq<Month>
  {
    if stretches == [] then []
    else
      var before, s := MonthsOf(stretches[..|stretches| - 1], key), stretches[|stretches| - 1];
      if s.key == key then before + s.months else before
  }

  /** One relation per key, over all the months of that key. */
  function Relations(stretches: seq<Stretch>): seq<Relation>
  {
    var keys := Keys(stretches);
    seq(|keys|, i requires 0 <= i < |keys| => Over(keys[i], MonthsOf(stretches, keys[i])))
  }

  // ---- what one block's months make of its relation ----

  /** No month starts on 1 January of year 1, the zero time that stands for no date. */
  ghost predicate Dated(months: seq<Month>)
  {
    forall m :: m in months ==> m.from != ZERO
  }

  /** A month starts before year 1. */
  ghost predicate Ancient(months: seq<Month>)
  {
    exists m :: m in months && m.from < ZERO
  }

  /** The zero time does not come into it: no month starts on it, or one starts before it. */
  ghost predicate Clear(months: seq<Month>)
  {
    Dated(months) || Ancient(months)
  }

  /** The first day of the months. */
  ghost predicate Starts(from: int, months: seq<Month>)
  {
    (exists m :: m in months && m.from == from) && forall m :: m in months ==> from <= m.from
  }

  /** The relation ends with the months, and was worked until the last of them with hours. */
  ghost predicate Ends(r: Relation, months: seq<Month>)
  {
    && (forall m :: m in months ==> m.to <= r.to && (m.worked ==> m.to <= r.worked))
    && (r.to == ZERO || exists m :: m in months && m.to == r.to)
    && (r.worked == ZERO || exists m :: m in months && m.worked && m.to == r.worked)
    && r.to >= r.worked >= ZERO
  }

  /** The relation runs from the first of the months to the last, and was worked until the last with hours. */
  ghost predicate Spans(r: Relation, months: seq<Month>)
  {
    Starts(r.from, months) && Ends(r, months)
  }

  lemma InLast(months: seq<Month>)
    requires months != []
    ensures var n := |months| - 1; forall k :: k in months <==> k in months[..n] || k == months[n]
  {
    assert months == months[..|months| - 1] + [months[|months| - 1]];
  }

  lemma {:induction false} OverEnds(key: Key, months: seq<Month>)
    ensures Ends(Over(key, months), months) && Over(key, months).key == key
  {
    if months != [] {
      InLast(months);
      OverEnds(key, months[..|months| - 1]);
    }
  }

  /** Where a relation starts: before year 1 with an ancient month, and with clear months on the first of them. */
  lemma {:induction false} OverStart(key: Key, months: seq<Month>)
    requires months != []
    ensures Over(key, months).from < ZERO <==> Ancient(months)
    ensures Clear(months) ==> Over(key, months).from != ZERO && Starts(Over(key, months).from, months)
  {
    var n := |months| - 1;
    InLast(months);
    if n > 0 {
      OverStart(key, months[..n]);
    } else {
      assert Over(key, months[..n]) == Relation(key, ZERO, ZERO, ZERO);
    }
  }

  /**
   A block's relation starts on its first month, on a date that counts as one, exactly
   when it has months and the zero time does not come into them.
   */
  lemma SpansIffClear(key: Key, months: seq<Month>)
    ensures Over(key, months).from != ZERO && Spans(Over(key, months), months) <==> months != [] && Clear(months)
  {
    OverEnds(key, months);
    if months != [] {
      OverStart(key, months);
      if !Clear(months) {
        var m :| m in months && m.from == ZERO;
      }
    }
  }

  /** A block is dropped as one without months exactly when it has none, or its last one starts on the zero time and none before it. */
  lemma DroppedIff(key: Key, months: seq<Month>)
    ensures Over(key, months).from == ZERO <==>
            months == [] || (months[|months| - 1].from == ZERO && !Ancient(months))
  {
    if months != [] {
      var n := |months| - 1;
      InLast(months);
      OverStart(key, months);
      if n > 0 {
        OverStart(key, months[..n]);
      } else {
        assert Over(key, months[..n]) == Relation(key, ZERO, ZERO, ZERO);
      }
    }
  }

  lemma SpanIsUnique(r: Relation, q: Relation, months: seq<Month>)
    requires Spans(r, months) && Spans(q, months) && r.key == q.key
    ensures r == q
  {
  }

  lemma JoinedSpans(key: Key, first: seq<Month>, second: seq<Month>)
    requires first != [] && second != [] && Clear(first) && Clear(second)
    ensures Spans(Joined(Over(key, first), Over(key, second)), first + second)
    ensures first + second != [] && Clear(first + second)
  {
    var whole := first + second;
    assert forall m :: m in whole <==> m in first || m in second;
    SpansIffClear(key, first);
    SpansIffClear(key, second);
    if Ancient(first) {
      var m :| m in first && m.from < ZERO;
      assert m in whole;
    } else if Ancient(second) {
      var m :| m in second && m.from < ZERO;
      assert m in whole;
    }
    JoinedStarts(Over(key, first).from, Over(key, second).from, first, second);
    JoinedEnds(Over(key, first), Over(key, second), first, second);
  }

  lemma JoinedStarts(a: int, b: int, first: seq<Month>, second: seq<Month>)
    requires Starts(a, first) && Starts(b, second)
    ensures Starts(if b < a then b else a, first + second)
  {
    var m :| m in first && m.from == a;
    var k :| k in second && k.from == b;
    assert m in first + second && k in first + second;
  }

  lemma JoinedEnds(a: Relation, b: Relation, first: seq<Month>, second: seq<Month>)
    requires Ends(a, first) && Ends(b, second)
    ensures Ends(Joined(a, b), first + second)
  {
    var whole := first + second;
    assert forall m :: m in first ==> m in whole;
    assert forall m :: m in second ==> m in whole;
  }

  /** Two parts with clear months join into the relation over both. */
  lemma JoinedOver(key: Key, first: seq<Month>, second: seq<Month>)
    requires first != [] && second != [] && Clear(first) && Clear(second)
    ensures Over(key, first + second) == Joined(Over(key, first), Over(key, second))
  {
    JoinedSpans(key, first, second);
    SpansIffClear(key, first + second);
    OverEnds(key, first);
    OverEnds(key, first + second);
    SpanIsUnique(Over(key, first + second), Joined(Over(key, first), Over(key, second)), first + second);
  }

  // ---- one relation per key ----

  /** No block's span depends on the zero time. */
  ghost predicate AllClear(stretches: seq<Stretch>)
  {
    forall s :: s in stretches ==> Clear(s.months)
  }

  lemma {:induction false} KeyHasMonths(stretches: seq<Stretch>, key: Key)
    ensures key in Keys(stretches) <==> MonthsOf(stretches, key) != []
  {
    if stretches != [] {
      KeyHasMonths(stretches[..|stretches| - 1], key);
    }
  }

  lemma {:induction false} ClearMonths(stretches: seq<Stretch>, key: Key)
    requires AllClear(stretches)
    ensures Clear(MonthsOf(stretches, key))
  {
    if stretches != [] {
      var n := |stretches| - 1;
      var before, s := MonthsOf(stretches[..n], key), stretches[n];
      assert s in stretches && forall x :: x in stretches[..n] ==> x in stretches;
      ClearMonths(stretches[..n], key);
      ClearConcat(before, s.months);
    }
  }

  lemma ClearConcat(first: seq<Month>, second: seq<Month>)
    requires Clear(first) && Clear(second)
    ensures Clear(first + second)
  {
    if Ancient(first) {
      var m :| m in first && m.from < ZERO;
      assert m in first + second;
    } else if Ancient(second) {
      var m :| m in second && m.from < ZERO;
      assert m in first + second;
    }
  }

  lemma {:induction false} KeysDistinct(stretches: seq<Stretch>)
    ensures forall i, j :: 0 <= i < j < |Keys(stretches)| ==> Keys(stretches)[i] != Keys(stretches)[j]
  {
    if stretches != [] {
      KeysDistinct(stretches[..|stretches| - 1]);
    }
  }

  lemma OneMoreStretch(stretches: seq<Stretch>, s: Stretch)
    ensures Keys(stretches + [s]) ==
              if s.months == [] || s.key in Keys(stretches) then Keys(stretches) else Keys(stretches) + [s.key]
    ensures forall key :: MonthsOf(stretches + [s], key) ==
                          if s.key == key then MonthsOf(stretches, key) + s.months else MonthsOf(stretches, key)
  {
    assert (stretches + [s])[..|stretches|] == stretches;
  }

  /** A stretch without months joins nothing. */
  lemma EmptyStretchJoined(stretches: seq<Stretch>, s: Stretch)
    requires s.months == []
    ensures JoinedInto(Relations(stretches), Over(s.key, s.months)) == Relations(stretches + [s])
  {
    OneMoreStretch(stretches, s);
    assert MonthsOf(stretches, s.key) + [] == MonthsOf(stretches, s.key);
    assert Relations(stretches + [s]) == Relations(stretches);
  }

  /** A table of relations with one of them joined. */
  lemma JoinedAt(merged: seq<Relation>, joined: seq<Relation>, k: nat, c: Relation)
    requires k < |merged| == |joined| && c.from != ZERO && merged[k].key == c.key
    requires forall i :: 0 <= i < k ==> merged[i].key != c.key
    requires joined[k] == Joined(merged[k], c)
    requires forall i :: 0 <= i < |merged| && i != k ==> joined[i] == merged[i]
    ensures JoinedInto(merged, c) == joined
  {
    assert IndexOf(merged, c.key) == k;
  }

  /** The relation of one key over one more stretch. */
  lemma KnownRelation(stretches: seq<Stretch>, s: Stretch, key: Key)
    requires AllClear(stretches) && Clear(s.months) && s.months != [] && key in Keys(stretches)
    ensures Over(key, MonthsOf(stretches + [s], key)) ==
              if key == s.key then Joined(Over(key, MonthsOf(stretches, key)), Over(key, s.months))
              else Over(key, MonthsOf(stretches, key))
  {
    OneMoreStretch(stretches, s);
    if key == s.key {
      KeyHasMonths(stretches, key);
      ClearMonths(stretches, key);
      JoinedOver(key, MonthsOf(stretches, key), s.months);
    }
  }

  /** A stretch of a key seen before widens that key's relation. */
  lemma KnownStretchJoined(stretches: seq<Stretch>, s: Stretch)
    requires AllClear(stretches) && Clear(s.months) && s.months != [] && s.key in Keys(stretches)
    ensures JoinedInto(Relations(stretches), Over(s.key, s.months)) == Relations(stretches + [s])
  {
    var keys := Keys(stretches);
    assert Keys(stretches + [s]) == keys by {
      OneMoreStretch(stretches, s);
    }
    KeysDistinct(stretches);
    SpansIffClear(s.key, s.months);
    OverEnds(s.key, s.months);
    RelationsKeyed(stretches);
    var k :| 0 <= k < |keys| && keys[k] == s.key;
    forall i | 0 <= i < |keys|
      ensures Relations(stretches + [s])[i] ==
                if i == k then Joined(Relations(stretches)[i], Over(s.key, s.months)) else Relations(stretches)[i]
    {
      KnownRelation(stretches, s, keys[i]);
    }
    JoinedAt(Relations(stretches), Relations(stretches + [s]), k, Over(s.key, s.months));
  }

  /** The first stretch of a key adds its relation at the end. */
  lemma NewStretchJoined(stretches: seq<Stretch>, s: Stretch)
    requires Clear(s.months) && s.months != [] && s.key !in Keys(stretches)
    ensures JoinedInto(Relations(stretches), Over(s.key, s.months)) == Relations(stretches + [s])
  {
    var key := s.key;
    NewRelation(stretches, s);
    SpansIffClear(key, s.months);
    OverEnds(key, s.months);
    RelationsKeyed(stretches);
    var i := IndexOf(Relations(stretches), key);
    assert i == |Relations(stretches)|;
  }

  /** A stretch changes the months of its own key alone. */
  lemma OtherMonths(stretches: seq<Stretch>, s: Stretch, key: Key)
    requires key != s.key
    ensures MonthsOf(stretches + [s], key) == MonthsOf(stretches, key)
  {
    OneMoreStretch(stretches, s);
  }

  lemma FirstMonths(stretches: seq<Stretch>, s: Stretch)
    requires s.key !in Keys(stretches)
    ensures MonthsOf(stretches + [s], s.key) == s.months
  {
    OneMoreStretch(stretches, s);
    KeyHasMonths(stretches, s.key);
  }

  lemma NewRelation(stretches: seq<Stretch>, s: Stretch)
    requires s.months != [] && s.key !in Keys(stretches)
    ensures Relations(stretches + [s]) == Relations(stretches) + [Over(s.key, s.months)]
  {
    var keys, whole := Keys(stretches), stretches + [s];
    assert Keys(whole) == keys + [s.key] by {
      OneMoreStretch(stretches, s);
    }
    FirstMonths(stretches, s);
    forall i | 0 <= i < |keys| ensures MonthsOf(whole, keys[i]) == MonthsOf(stretches, keys[i]) {
      OtherMonths(stretches, s, keys[i]);
    }
  }

  lemma RelationsKeyed(stretches: seq<Stretch>)
    ensures forall i :: 0 <= i < |Keys(stretches)| ==> Relations(stretches)[i].key == Keys(stretches)[i]
  {
    forall i | 0 <= i < |Keys(stretches)| ensures Relations(stretches)[i].key == Keys(stretches)[i] {
      RelabelledOver(Keys(stretches)[i], Keys(stretches)[i], MonthsOf(stretches, Keys(stretches)[i]));
    }
  }

  /** Joining one more stretch gives the relations of one more stretch. */
  lemma StretchJoined(stretches: seq<Stretch>, s: Stretch)
    requires AllClear(stretches) && Clear(s.months)
    ensures JoinedInto(Relations(stretches), Over(s.key, s.months)) == Relations(stretches + [s])
  {
    if s.months == [] {
      EmptyStretchJoined(stretches, s);
    } else if s.key in Keys(stretches) {
      KnownStretchJoined(stretches, s);
    } else {
      NewStretchJoined(stretches, s);
    }
  }

  /** The last block's relation joins those of the blocks before it, under its classified key. */
  lemma MergedLast(blocks: seq<Block>)
    requires blocks != []
    ensures var n := |blocks| - 1;
            && Printed(blocks[n]).from == Over(KeyOf(blocks[n]), blocks[n].months).from
            && Merged(PrintedAll(blocks)) ==
                 JoinedInto(Merged(PrintedAll(blocks[..n])), Over(KeyOf(blocks[n]), blocks[n].months))
  {
    var n := |blocks| - 1;
    var b := blocks[n];
    assert PrintedAll(blocks)[..n] == PrintedAll(blocks[..n]);
    RelabelledOver(PrintedKey(b), PrintedKey(b), b.months);
    RelabelledOver(PrintedKey(b), KeyOf(b), b.months);
  }

  /** The blocks' relations, merged one by one, are one relation per key over all its months. */
  lemma {:induction false} MergedIsRelations(blocks: seq<Block>)
    requires AllClear(Stretches(blocks))
    ensures Merged(PrintedAll(blocks)) == Relations(Stretches(blocks))
  {
    if blocks != [] {
      var n := |blocks| - 1;
      LastStretch(blocks);
      MergedLast(blocks);
      MergedIsRelations(blocks[..n]);
      StretchJoined(Stretches(blocks[..n]), Stretch(KeyOf(blocks[n]), blocks[n].months));
    }
  }

  lemma LastStretch(blocks: seq<Block>)
    requires blocks != [] && AllClear(Stretches(blocks))
    ensures var n := |blocks| - 1;
            && Stretches(blocks) == Stretches(blocks[..n]) + [Stretch(KeyOf(blocks[n]), blocks[n].months)]
            && AllClear(Stretches(blocks[..n])) && Clear(blocks[n].months)
  {
    var n := |blocks| - 1;
    var s := Stretch(KeyOf(blocks[n]), blocks[n].months);
    assert Stretches(blocks) == Stretches(blocks[..n]) + [s];
    assert s in Stretches(blocks);
  }

  /**
   The statement's relations, when no block's span depends on the zero time: one per
   key in the order first seen, from the first of all that key's months to the last,
   whatever blocks they were printed in.
   */
  lemma OneRelationPerKey(lines: seq<string>, blocks: seq<Block>)
    requires BlocksOf(lines) == Ok(blocks) && AllClear(Stretches(blocks))
    ensures var stretches := Stretches(blocks);
            var relations := Relations(stretches);
            && Parsed(lines) == Ok(relations)
            && |relations| == |Keys(stretches)|
            && (forall i :: 0 <= i < |relations| ==>
                  relations[i].key == Keys(stretches)[i] && Spans(relations[i], MonthsOf(stretches, Keys(stretches)[i])))
            && (forall i, j :: 0 <= i < j < |relations| ==> relations[i].key != relations[j].key)
  {
    var stretches := Stretches(blocks);
    MergedIsRelations(blocks);
    KeysDistinct(stretches);
    forall i | 0 <= i < |Keys(stretches)|
      ensures Relations(stretches)[i].key == Keys(stretches)[i]
      ensures Spans(Relations(stretches)[i], MonthsOf(stretches, Keys(stretches)[i]))
    {
      var key := Keys(stretches)[i];
      KeyHasMonths(stretches, key);
      ClearMonths(stretches, key);
      SpansIffClear(key, MonthsOf(stretches, key));
      OverEnds(key, MonthsOf(stretches, key));
    }
  }

  const JANUARY := "01-01-2020 t/m 31-01-2020"
  const NO_DATE := "01-01-0001 t/m 31-01-0001"
  const MARCH := "01-03-2020 t/m 31-03-2020"

  /** A month from the zero time between two others. */
  const ZERO_LINES: seq<string> := ["Werkgever/Instantie Bakker", JANUARY, NO_DATE, MARCH]

  /** Two digits at i that read as this number. */
  predicate IsTwo(l: string, i: nat, n: nat)
  {
    && i + 2 <= |l| && IsDigit(l[i]) && IsDigit(l[i + 1])
    && n == (l[i] as int - '0' as int) * 10 + (l[i + 1] as int - '0' as int)
  }

  /** A date printed at i. */
  predicate IsDateAt(l: string, i: nat, day: nat, month: nat, year: nat)
  {
    && i + 10 <= |l| && l[i + 2] == '-' && l[i + 5] == '-'
    && IsTwo(l, i, day) && IsTwo(l, i + 3, month) && IsTwo(l, i + 6, year / 100) && IsTwo(l, i + 8, year % 100)
    && 1 <= month <= 12 && 1 <= day <= DaysIn(month, year)
  }

  lemma TwoDigits(s: string, n: nat)
    requires |s| == 2 && IsTwo(s, 0, n)
    ensures Number(s) == n
  {
    var one := s[..1];
    assert one[..0] == [] && one[0] == s[0];
    assert Number(one) == s[0] as int - '0' as int;
  }

  lemma FourDigits(s: string, high: nat, low: nat)
    requires |s| == 4 && IsTwo(s, 0, high) && IsTwo(s, 2, low)
    ensures (forall i :: 0 <= i < 4 ==> IsDigit(s[i])) && Number(s) == high * 100 + low
  {
    var three := s[..3];
    assert three[..2] == s[..2] && three[2] == s[2];
    TwoDigits(s[..2], high);
    assert Number(three) == high * 10 + (s[2] as int - '0' as int);
  }

  lemma DateReads(l: string, i: nat, day: nat, month: nat, year: nat)
    requires IsDateAt(l, i, day, month, year)
    ensures IsDateText(l[i..i + 10]) && ParseDate(l[i..i + 10]) == Some(Day(year, month, day))
  {
    var s := l[i..i + 10];
    assert forall k :: 0 <= k < 10 ==> s[k] == l[i + k];
    TwoDigits(s[..2], day);
    TwoDigits(s[3..5], month);
    FourDigits(s[6..], year / 100, year % 100);
  }

  /** A month line without hours. */
  lemma MonthReads(l: string, day: nat, month: nat, year: nat, day': nat, month': nat, year': nat)
    requires |l| == 25 && IsDateAt(l, 0, day, month, year) && IsDateAt(l, 15, day', month', year') && l[10..15] == " t/m "
    ensures MonthOn(l) == AMonth(Month(Day(year, month, day), Day(year', month', day'), false))
  {
    DateReads(l, 0, day, month, year);
    DateReads(l, 15, day', month', year');
    assert l[25..] == [] && l[0..10] == l[..10];
    assert HoursAfter([]) == [];
  }

  lemma JanuaryReads()
    ensures MonthOn(JANUARY) == AMonth(Month(Day(2020, 1, 1), Day(2020, 1, 31), false))
  {
    MonthReads(JANUARY, 1, 1, 2020, 31, 1, 2020);
  }

  lemma NoDateReads()
    ensures MonthOn(NO_DATE) == AMonth(Month(ZERO, Day(1, 1, 31), false))
  {
    MonthReads(NO_DATE, 1, 1, 1, 31, 1, 1);
  }

  lemma MarchReads()
    ensures MonthOn(MARCH) == AMonth(Month(Day(2020, 3, 1), Day(2020, 3, 31), false))
  {
    MonthReads(MARCH, 1, 3, 2020, 31, 3, 2020);
  }

  // ---- page breaks ----

  lemma {:induction false} ScanConcat(s: Scan, first: seq<string>, second: seq<string>)
    ensures ScanLines(s, first + second) == ScanLines(ScanLines(s, first), second)
    decreases first
  {
    if first == [] {
      assert first + second == second;
    } else {
      assert (first + second)[0] == first[0] && (first + second)[1..] == first[1..] + second;
      ScanConcat(ScanLine(s, first[0]), first[1..], second);
    }
  }

  /** The label lines that open one block: an employer line, then lines that start no other block and report no month. */
  ghost predicate IsLabels(labels: seq<string>)
  {
    && labels != [] && LABEL_EMPLOYER <= labels[0]
    && forall i :: 0 < i < |labels| ==>
         !(LABEL_EMPLOYER <= labels[i]) && !(HEADING_DISCLAIMER <= labels[i]) && !IsPeriod(labels[i])
  }

  predicate IsLabel(l: string)
  {
    LABEL_EMPLOYER <= l || LABEL_PAYROLL_TAX <= l || LABEL_CONTRACT_FORM <= l || HEADING_DISCLAIMER <= l
  }

  /** The lines of a block under its labels: month lines, and others unless a contract form still runs. */
  ghost predicate IsBody(lines: seq<string>, inContract: bool)
  {
    forall i :: 0 <= i < |lines| ==> IsPeriod(lines[i]) || (!inContract && !IsLabel(lines[i]))
  }

  /** Months appended to the last block. */
  function WithMonths(blocks: seq<Block>, months: seq<Month>): seq<Block>
    requires blocks != []
  {
    var last := blocks[|blocks| - 1];
    WithLast(blocks, last.(months := last.months + months))
  }

  /** The months on the month lines, unless one prints an impossible date. */
  function MonthsIn(lines: seq<string>): Result<seq<Month>>
  {
    if lines == [] then Ok([])
    else match MonthOn(lines[0])
         case BadDate => NotAStatement
         case NoMonth => MonthsIn(lines[1..])
         case AMonth(m) => (match MonthsIn(lines[1..]) case Ok(rest) => Ok([m] + rest) case NotAStatement => NotAStatement)
  }

  /** A line of a block's body adds its month, if any, to the last block. */
  lemma BodyScan(s: Scan, l: string)
    requires s.Scanning? && s.blocks != [] && IsBody([l], s.inContract)
    ensures ScanLine(s, l) == match MonthOn(l)
                              case AMonth(m) => s.(blocks := WithMonths(s.blocks, [m]))
                              case NoMonth => s
                              case BadDate => Failed
  {
    assert [l][0] == l;
    if IsPeriod(l) {
      PeriodIsNoLabel(l);
    }
  }

  lemma WithMonthsTwice(blocks: seq<Block>, first: seq<Month>, second: seq<Month>)
    requires blocks != []
    ensures WithMonths(WithMonths(blocks, first), second) == WithMonths(blocks, first + second)
  {
    var last := blocks[|blocks| - 1];
    assert (last.months + first) + second == last.months + (first + second);
  }

  lemma {:induction false} ScanMonths(s: Scan, lines: seq<string>)
    requires s.Scanning? && s.blocks != [] && IsBody(lines, s.inContract)
    ensures ScanLines(s, lines) == match MonthsIn(lines)
                                   case Ok(months) => s.(blocks := WithMonths(s.blocks, months))
                                   case NotAStatement => Failed
    decreases lines
  {
    if lines == [] {
      var last := s.blocks[|s.blocks| - 1];
      assert last.months + [] == last.months;
      assert WithMonths(s.blocks, []) == s.blocks;
    } else {
      assert IsBody([lines[0]], s.inContract) && IsBody(lines[1..], s.inContract);
      BodyScan(s, lines[0]);
      var s' := ScanLine(s, lines[0]);
      if MonthOn(lines[0]).BadDate? {
        StoppedStays(s', lines[1..]);
      } else {
        ScanMonths(s', lines[1..]);
        if MonthOn(lines[0]).AMonth? && MonthsIn(lines[1..]).Ok? {
          WithMonthsTwice(s.blocks, [MonthOn(lines[0]).month], MonthsIn(lines[1..]).value);
        }
      }
    }
  }

  /** A month line starts with a digit, so it is none of the labels. */
  lemma PeriodIsNoLabel(l: string)
    requires IsPeriod(l)
    ensures !(HEADING_DISCLAIMER <= l) && !(LABEL_EMPLOYER <= l) && !(LABEL_PAYROLL_TAX <= l)
    ensures !(LABEL_CONTRACT_FORM <= l) && l != HEADING_PERIODS
  {
    assert IsDigit(l[..10][0]);
  }

  /** The scan with earlier blocks in front. */
  function Prefixed(earlier: seq<Block>, s: Scan): Scan
  {
    match s
    case Scanning(blocks, inContract) => Scanning(earlier + blocks, inContract)
    case Stopped(blocks) => Stopped(earlier + blocks)
    case Failed => Failed
  }

  lemma PrefixedLast(earlier: seq<Block>, blocks: seq<Block>, b: Block)
    requires blocks != []
    ensures (earlier + blocks)[|earlier + blocks| - 1] == blocks[|blocks| - 1]
    ensures WithLast(earlier + blocks, b) == earlier + WithLast(blocks, b)
  {
    assert (earlier + blocks)[..|earlier + blocks| - 1] == earlier + blocks[..|blocks| - 1];
  }

  /** A line in a block only looks at that block. */
  lemma PrefixedInBlock(earlier: seq<Block>, s: Scan, l: string)
    requires s.Scanning? && s.blocks != [] && !(HEADING_DISCLAIMER <= l) && !(LABEL_EMPLOYER <= l)
    ensures ScanLine(Prefixed(earlier, s), l) == Prefixed(earlier, ScanLine(s, l))
    ensures ScanLine(s, l).Scanning? ==> ScanLine(s, l).blocks != []
  {
    forall b ensures WithLast(earlier + s.blocks, b) == earlier + WithLast(s.blocks, b) {
      PrefixedLast(earlier, s.blocks, b);
    }
    PrefixedLast(earlier, s.blocks, s.blocks[0]);
  }

  lemma PrefixedStep(earlier: seq<Block>, s: Scan, l: string)
    requires s.Scanning? ==> s.blocks != []
    ensures ScanLine(Prefixed(earlier, s), l) == Prefixed(earlier, ScanLine(s, l))
    ensures ScanLine(s, l).Scanning? ==> ScanLine(s, l).blocks != []
  {
    if s.Scanning? && !(HEADING_DISCLAIMER <= l) && !(LABEL_EMPLOYER <= l) {
      PrefixedInBlock(earlier, s, l);
    } else if s.Scanning? && !(HEADING_DISCLAIMER <= l) {
      var b := Block(TrimSpace(l[|LABEL_EMPLOYER|..]), "", "", []);
      assert (earlier + s.blocks) + [b] == earlier + (s.blocks + [b]);
    }
  }

  lemma {:induction false} PrefixedScan(earlier: seq<Block>, s: Scan, lines: seq<string>)
    requires s.Scanning? ==> s.blocks != []
    ensures ScanLines(Prefixed(earlier, s), lines) == Prefixed(earlier, ScanLines(s, lines))
    decreases lines
  {
    if lines != [] {
      PrefixedStep(earlier, s, lines[0]);
      PrefixedScan(earlier, ScanLine(s, lines[0]), lines[1..]);
    }
  }

  /** The lines begin a new block, end the blocks, or there are none: the block before them is complete. */
  predicate EndsBlock(lines: seq<string>)
  {
    lines == [] || LABEL_EMPLOYER <= lines[0] || HEADING_DISCLAIMER <= lines[0]
  }

  /** Lines that end a block read the same after any blocks. */
  lemma EndedScan(earlier: seq<Block>, inContract: bool, lines: seq<string>)
    requires lines != [] && EndsBlock(lines)
    ensures ScanLines(Scanning(earlier, inContract), lines) == Prefixed(earlier, Labelled(lines))
  {
    var s, own := ScanLine(Scanning(earlier, inContract), lines[0]), ScanLine(Scanning([], false), lines[0]);
    assert s == Prefixed(earlier, own);
    if own.Scanning? {
      PrefixedScan(earlier, own, lines[1..]);
    } else {
      StoppedStays(s, lines[1..]);
      StoppedStays(own, lines[1..]);
    }
  }

  /** The scan of lines on their own. */
  function Labelled(lines: seq<string>): Scan
  {
    ScanLines(Scanning([], false), lines)
  }

  /** A contract form still runs after the labels, so that lines under them belong to it. */
  predicate ContractRuns(labels: seq<string>)
  {
    Labelled(labels).Scanning? && Labelled(labels).inContract
  }

  /** Label lines on their own open one block, without months. */
  lemma {:induction false} LabelsOpenOne(labels: seq<string>, n: nat)
    requires IsLabels(labels) && 1 <= n <= |labels|
    ensures Labelled(labels[..n]).Scanning? && |Labelled(labels[..n]).blocks| == 1
    ensures Labelled(labels[..n]).blocks[0].months == []
  {
    var empty := Scanning([], false);
    if n == 1 {
      assert labels[0][0] == 'W';
      assert labels[..1] == [labels[0]];
      assert ScanLines(ScanLine(empty, labels[0]), []) == ScanLine(empty, labels[0]);
    } else {
      LabelsOpenOne(labels, n - 1);
      assert labels[..n] == labels[..n - 1] + [labels[n - 1]];
      ScanConcat(empty, labels[..n - 1], [labels[n - 1]]);
      var s := Labelled(labels[..n - 1]);
      assert ScanLines(s, [labels[n - 1]]) == ScanLine(s, labels[n - 1]);
    }
  }

  /** A block printed under its labels, after earlier blocks. */
  lemma BlockScan(earlier: seq<Block>, inContract: bool, labels: seq<string>, months: seq<string>)
    requires IsLabels(labels) && IsBody(months, ContractRuns(labels))
    ensures Labelled(labels).Scanning? && |Labelled(labels).blocks| == 1 && Labelled(labels).blocks[0].months == []
    ensures ScanLines(Scanning(earlier, inContract), labels + months) ==
              match MonthsIn(months)
              case Ok(ms) => Scanning(earlier + [Labelled(labels).blocks[0].(months := ms)], Labelled(labels).inContract)
              case NotAStatement => Failed
  {
    LabelsOpenOne(labels, |labels|);
    assert labels[..|labels|] == labels;
    EndedScan(earlier, inContract, labels);
    ScanConcat(Scanning(earlier, inContract), labels, months);
    ScanMonths(Prefixed(earlier, Labelled(labels)), months);
    if MonthsIn(months).Ok? {
      var ms := MonthsIn(months).value;
      var b := Labelled(labels).blocks[0];
      assert b.months + ms == ms;
      assert WithMonths(earlier + [b], ms) == earlier + [b.(months := ms)];
    }
  }

  lemma {:induction false} MonthsInConcat(first: seq<string>, second: seq<string>)
    ensures MonthsIn(first + second).Ok? <==> MonthsIn(first).Ok? && MonthsIn(second).Ok?
    ensures MonthsIn(first + second).Ok? ==>
              MonthsIn(first + second).value == MonthsIn(first).value + MonthsIn(second).value
  {
    if first == [] {
      assert first + second == second;
    } else {
      MonthsInConcat(first[1..], second);
      assert (first + second)[0] == first[0] && (first + second)[1..] == first[1..] + second;
    }
  }

  // ---- which cuts change nothing ----

  /** Every month with its end, and the last with hours, is covered by the other relation. */
  predicate Covers(r: Relation, q: Relation)
  {
    q.to <= r.to && q.worked <= r.worked
  }

  /**
   A cut between these months changes no relation: a half is empty; or the half that is
   dropped ends no later than the other, which an ancient month or no later month keeps
   on its start; or both stay, and the first start is no later than the second's unless
   the zero time does not come into it.
   */
  ghost predicate CutKeeps(first: seq<Month>, second: seq<Month>)
  {
    var key := Key(Unclassified, "", "", "");
    var a, b := Over(key, first), Over(key, second);
    || first == [] || second == []
    || (a.from == ZERO && (b.from == ZERO || Covers(b, a)))
    || (a.from < ZERO && b.from == ZERO && Covers(a, b))
    || (a.from != ZERO && b.from != ZERO && (a.from < ZERO || Clear(second) || b.from <= a.from))
  }

  /** Clear halves can be cut anywhere. */
  lemma ClearHalvesKeep(first: seq<Month>, second: seq<Month>)
    requires Clear(first) && Clear(second)
    ensures CutKeeps(first, second)
  {
    var key := Key(Unclassified, "", "", "");
    SpansIffClear(key, first);
    SpansIffClear(key, second);
  }

  /** Where a start widens to over more months. */
  function StartOver(from: int, months: seq<Month>): int
  {
    if months == [] then from
    else
      var before, m := StartOver(from, months[..|months| - 1]), months[|months| - 1];
      if before == ZERO || m.from < before then m.from else before
  }

  function Earlier(a: int, b: int): int
  {
    if b < a then b else a
  }

  function Later(a: int, b: int): int
  {
    if a < b then b else a
  }

  lemma {:induction false} OverConcat(key: Key, first: seq<Month>, second: seq<Month>)
    ensures var a, b := Over(key, first), Over(key, second);
            Over(key, first + second) == Relation(key, StartOver(a.from, second), Later(a.to, b.to), Later(a.worked, b.worked))
  {
    OverEnds(key, first);
    if second == [] {
      assert first + second == first;
    } else {
      var n := |second| - 1;
      assert (first + second)[..|first| + n] == first + second[..n];
      OverConcat(key, first, second[..n]);
    }
  }

  /** A start before year 1 widens as it should; a later one only over clear months, and is forgotten over others. */
  lemma {:induction false} StartOverIs(key: Key, from: int, months: seq<Month>)
    requires months != []
    ensures StartOver(from, months) ==
              if from < ZERO || (from > ZERO && Clear(months)) then Earlier(from, Over(key, months).from)
              else Over(key, months).from
  {
    var n := |months| - 1;
    InLast(months);
    OverStart(key, months);
    if n > 0 {
      OverStart(key, months[..n]);
      StartOverIs(key, from, months[..n]);
    } else {
      assert Over(key, months[..n]) == Relation(key, ZERO, ZERO, ZERO);
    }
  }

  /** One relation merges as the two it was cut into. */
  predicate Cuts(a: Relation, b: Relation, w: Relation)
  {
    if a.from == ZERO then if b.from == ZERO then w.from == ZERO else w == b
    else if b.from == ZERO then w == a
    else w == Joined(a, b) && w.from != ZERO
  }

  /** The condition on the months is the one on what they make of the relation. */
  lemma CutKeepsIff(key: Key, first: seq<Month>, second: seq<Month>)
    ensures CutKeeps(first, second) <==> Cuts(Over(key, first), Over(key, second), Over(key, first + second))
  {
    var none := Key(Unclassified, "", "", "");
    OverConcat(key, first, second);
    RelabelledOver(none, key, first);
    RelabelledOver(none, key, second);
    OverEnds(key, first);
    OverEnds(key, second);
    if first == [] {
      assert first + second == second;
    } else if second == [] {
      assert first + second == first;
    } else {
      StartOverIs(key, Over(key, first).from, second);
      OverStart(key, second);
    }
  }

  /** Relations that merge alike into any others. */
  lemma CutMerges(merged: seq<Relation>, a: Relation, b: Relation, w: Relation)
    requires a.key == b.key == w.key && Cuts(a, b, w)
    ensures JoinedInto(JoinedInto(merged, a), b) == JoinedInto(merged, w)
  {
    if a.from != ZERO && b.from != ZERO {
      var i := IndexOf(merged, a.key);
      var once := JoinedInto(merged, a);
      assert i < |once| && once[i].key == a.key && forall j :: 0 <= j < i ==> once[j].key != a.key;
      assert IndexOf(once, b.key) == i;
    }
  }

  lemma JoinedAlone(c: Relation)
    ensures JoinedInto([], c) == if c.from == ZERO then [] else [c]
  {
  }

  lemma JoinedPair(a: Relation, b: Relation)
    requires a.key == b.key && a.from != ZERO && b.from != ZERO
    ensures JoinedInto([a], b) == [Joined(a, b)]
  {
    assert IndexOf([a], b.key) == 0;
    assert [a][0 := Joined(a, b)] == [Joined(a, b)];
  }

  lemma MergesCut(a: Relation, b: Relation, w: Relation)
    requires a.key == b.key == w.key && JoinedInto(JoinedInto([], a), b) == JoinedInto([], w)
    ensures Cuts(a, b, w)
  {
    JoinedAlone(a);
    JoinedAlone(b);
    JoinedAlone(w);
    if a.from != ZERO && b.from != ZERO {
      JoinedPair(a, b);
      assert [Joined(a, b)][0] == w;
    } else if a.from != ZERO || b.from != ZERO {
      assert JoinedInto([], w)[0] == w;
    }
  }

  lemma MergedSnoc(x: seq<Relation>, r: Relation)
    ensures Merged(x + [r]) == MergedInto(Merged(x), r)
  {
    assert (x + [r])[..|x|] == x;
  }

  /** More blocks merged into relations merged already. */
  function MergedOnto(merged: seq<Relation>, blocks: seq<Relation>): seq<Relation>
  {
    if blocks == [] then merged
    else MergedInto(MergedOnto(merged, blocks[..|blocks| - 1]), blocks[|blocks| - 1])
  }

  lemma MergedOntoSnoc(merged: seq<Relation>, x: seq<Relation>, r: Relation)
    ensures MergedOnto(merged, x + [r]) == MergedInto(MergedOnto(merged, x), r)
  {
    assert (x + [r])[..|x|] == x;
  }

  lemma MergedConcatSnoc(x: seq<Relation>, y: seq<Relation>, r: Relation)
    requires Merged(x + y) == MergedOnto(Merged(x), y)
    ensures Merged((x + y) + [r]) == MergedOnto(Merged(x), y + [r])
  {
    MergedSnoc(x + y, r);
    MergedOntoSnoc(Merged(x), y, r);
  }

  lemma {:induction false} MergedConcat(x: seq<Relation>, rest: seq<Relation>)
    ensures Merged(x + rest) == MergedOnto(Merged(x), rest)
  {
    if rest == [] {
      assert x + rest == x;
    } else {
      var init, last := rest[..|rest| - 1], rest[|rest| - 1];
      MergedConcat(x, init);
      MergedConcatSnoc(x, init, last);
      assert rest == init + [last];
      assert x + rest == (x + init) + [last];
    }
  }

  lemma SameStart(x: seq<Relation>, y: seq<Relation>, rest: seq<Relation>)
    requires Merged(x) == Merged(y)
    ensures Merged(x + rest) == Merged(y + rest)
  {
    MergedConcat(x, rest);
    MergedConcat(y, rest);
  }

  lemma PrintedConcat(x: seq<Block>, y: seq<Block>)
    ensures PrintedAll(x + y) == PrintedAll(x) + PrintedAll(y)
  {
  }

  /** A block with its months cut over two blocks. */
  lemma CutOnto(earlier: seq<Block>, b: Block, first: seq<Month>, second: seq<Month>)
    ensures var m, key := Merged(PrintedAll(earlier)), KeyOf(b);
            && Merged(PrintedAll(earlier + [b.(months := first + second)])) == JoinedInto(m, Over(key, first + second))
            && Merged(PrintedAll(earlier + [b.(months := first)] + [b.(months := second)])) ==
                 JoinedInto(JoinedInto(m, Over(key, first)), Over(key, second))
  {
    var whole, half := earlier + [b.(months := first + second)], earlier + [b.(months := first)];
    assert whole[..|earlier|] == earlier && half[..|earlier|] == earlier;
    MergedLast(whole);
    MergedLast(half);
    assert (half + [b.(months := second)])[..|half|] == half;
    MergedLast(half + [b.(months := second)]);
  }

  /** Such a cut changes no relation, whatever blocks are printed before and after it. */
  lemma CutRelations(earlier: seq<Block>, b: Block, first: seq<Month>, second: seq<Month>, later: seq<Block>)
    requires CutKeeps(first, second)
    ensures Merged(PrintedAll(earlier + [b.(months := first + second)] + later)) ==
            Merged(PrintedAll(earlier + [b.(months := first)] + [b.(months := second)] + later))
  {
    var whole := earlier + [b.(months := first + second)];
    var split := earlier + [b.(months := first)] + [b.(months := second)];
    var key := KeyOf(b);
    CutOnto(earlier, b, first, second);
    CutKeepsIff(key, first, second);
    OverEnds(key, first);
    OverEnds(key, second);
    OverEnds(key, first + second);
    CutMerges(Merged(PrintedAll(earlier)), Over(key, first), Over(key, second), Over(key, first + second));
    PrintedConcat(whole, later);
    PrintedConcat(split, later);
    SameStart(PrintedAll(whole), PrintedAll(split), PrintedAll(later));
  }

  /** The lines before a block, the block, and the lines after it. */
  lemma AroundBlock(before: seq<string>, block: seq<string>, after: seq<string>)
    ensures Labelled(before + block + after) == ScanLines(ScanLines(Labelled(before), block), after)
  {
    ScanConcat(Scanning([], false), before + block, after);
    ScanConcat(Scanning([], false), before, block);
  }

  function WholeBlock(before: seq<string>, labels: seq<string>, first: seq<string>, second: seq<string>, after: seq<string>): seq<string>
  {
    before + (labels + (first + second)) + after
  }

  /** The same block over a page break, its labels printed again. */
  function CutBlock(before: seq<string>, labels: seq<string>, first: seq<string>, second: seq<string>, after: seq<string>): seq<string>
  {
    before + (labels + first + (labels + second)) + after
  }

  ghost predicate IsCut(labels: seq<string>, first: seq<string>, second: seq<string>)
  {
    IsLabels(labels) && IsBody(first, ContractRuns(labels)) && IsBody(second, ContractRuns(labels))
  }

  lemma BodyConcat(first: seq<string>, second: seq<string>, inContract: bool)
    requires IsBody(first, inContract) && IsBody(second, inContract)
    ensures IsBody(first + second, inContract)
  {
  }

  /** Where the whole block's scan and the cut one's stand after the block. */
  lemma CutScans(s: Scan, labels: seq<string>, first: seq<string>, second: seq<string>)
    requires s.Scanning? && IsCut(labels, first, second)
    ensures Labelled(labels).Scanning? && |Labelled(labels).blocks| == 1
    ensures var whole, cut := ScanLines(s, labels + (first + second)), ScanLines(s, labels + first + (labels + second));
            var b, c := Labelled(labels).blocks[0], ContractRuns(labels);
            if MonthsIn(first).Ok? && MonthsIn(second).Ok? then
              var m1, m2 := MonthsIn(first).value, MonthsIn(second).value;
              && whole == Scanning(s.blocks + [b.(months := m1 + m2)], c)
              && cut == Scanning(s.blocks + [b.(months := m1)] + [b.(months := m2)], c)
            else whole == Failed && cut == Failed
  {
    ScanConcat(s, labels + first, labels + second);
    MonthsInConcat(first, second);
    BodyConcat(first, second, ContractRuns(labels));
    BlockScan(s.blocks, s.inContract, labels, first + second);
    BlockScan(s.blocks, s.inContract, labels, first);
    var b, c := Labelled(labels).blocks[0], ContractRuns(labels);
    if MonthsIn(first).NotAStatement? {
      StoppedStays(Failed, labels + second);
    } else {
      BlockScan(s.blocks + [b.(months := MonthsIn(first).value)], c, labels, second);
    }
  }

  /** Page breaks do not matter where the cut keeps the block's relation, whatever is printed before and after it. */
  lemma PageBreaksDoNotMatter(before: seq<string>, labels: seq<string>, first: seq<string>, second: seq<string>, after: seq<string>)
    requires IsCut(labels, first, second) && EndsBlock(after)
    requires MonthsIn(first).Ok? && MonthsIn(second).Ok? ==> CutKeeps(MonthsIn(first).value, MonthsIn(second).value)
    ensures Parsed(CutBlock(before, labels, first, second, after)) == Parsed(WholeBlock(before, labels, first, second, after))
  {
    var s0 := Labelled(before);
    AroundBlock(before, labels + (first + second), after);
    AroundBlock(before, labels + first + (labels + second), after);
    if !s0.Scanning? {
      StoppedStays(s0, labels + (first + second));
      StoppedStays(s0, labels + first + (labels + second));
    } else {
      CutScans(s0, labels, first, second);
      if MonthsIn(first).Ok? && MonthsIn(second).Ok? {
        CutBlocks(s0.blocks, Labelled(labels).blocks[0], ContractRuns(labels), MonthsIn(first).value, MonthsIn(second).value, after);
      } else {
        StoppedStays(Failed, after);
      }
    }
  }

  /** The lines after the cut block read alike after either printing. */
  lemma CutBlocks(earlier: seq<Block>, b: Block, inContract: bool, first: seq<Month>, second: seq<Month>, after: seq<string>)
    requires EndsBlock(after) && CutKeeps(first, second)
    ensures var whole := ScanLines(Scanning(earlier + [b.(months := first + second)], inContract), after);
            var cut := ScanLines(Scanning(earlier + [b.(months := first)] + [b.(months := second)], inContract), after);
            && (whole.Failed? <==> cut.Failed?)
            && (!whole.Failed? ==> Merged(PrintedAll(whole.blocks)) == Merged(PrintedAll(cut.blocks)))
  {
    var one, two := earlier + [b.(months := first + second)], earlier + [b.(months := first)] + [b.(months := second)];
    if after == [] {
      assert one + [] == one && two + [] == two;
      CutRelations(earlier, b, first, second, []);
    } else {
      EndedScan(one, inContract, after);
      EndedScan(two, inContract, after);
      if !Labelled(after).Failed? {
        CutRelations(earlier, b, first, second, Labelled(after).blocks);
      }
    }
  }

  /** A cut of the block alone that parses alike keeps its relation. */
  lemma CutAlone(labels: seq<string>, first: seq<string>, second: seq<string>)
    requires IsCut(labels, first, second) && MonthsIn(first).Ok? && MonthsIn(second).Ok?
    requires Parsed(CutBlock([], labels, first, second, [])) == Parsed(WholeBlock([], labels, first, second, []))
    ensures CutKeeps(MonthsIn(first).value, MonthsIn(second).value)
  {
    var whole, cut := labels + (first + second), labels + first + (labels + second);
    assert [] + whole + [] == whole && [] + cut + [] == cut;
    var m1, m2 := MonthsIn(first).value, MonthsIn(second).value;
    CutScans(Scanning([], false), labels, first, second);
    var b := Labelled(labels).blocks[0];
    CutOnto([], b, m1, m2);
    var key := KeyOf(b);
    OverEnds(key, m1);
    OverEnds(key, m2);
    OverEnds(key, m1 + m2);
    MergesCut(Over(key, m1), Over(key, m2), Over(key, m1 + m2));
    CutKeepsIff(key, m1, m2);
  }

  // ---- what a printed zero date does ----

  const JANUARY_MONTH := Month(Day(2020, 1, 1), Day(2020, 1, 31), false)
  const NO_DATE_MONTH := Month(ZERO, Day(1, 1, 31), false)
  const MARCH_MONTH := Month(Day(2020, 3, 1), Day(2020, 3, 31), false)

  lemma FirstMonth(l: string, rest: seq<string>, m: Month, months: seq<Month>)
    requires MonthOn(l) == AMonth(m) && MonthsIn(rest) == Ok(months)
    ensures MonthsIn([l] + rest) == Ok([m] + months)
  {
    assert ([l] + rest)[0] == l && ([l] + rest)[1..] == rest;
  }

  /** Three month lines. */
  lemma ThreeMonths(x: string, y: string, z: string, a: Month, b: Month, c: Month)
    requires MonthOn(x) == AMonth(a) && MonthOn(y) == AMonth(b) && MonthOn(z) == AMonth(c)
    ensures MonthsIn([x, y, z]) == Ok([a, b, c])
    ensures forall inContract :: IsBody([x, y, z], inContract)
  {
    assert MonthsIn([]) == Ok([]);
    FirstMonth(z, [], c, []);
    FirstMonth(y, [z] + [], b, [c] + []);
    FirstMonth(x, [y] + ([z] + []), a, [b] + ([c] + []));
    assert [x] + ([y] + ([z] + [])) == [x, y, z] && [a] + ([b] + ([c] + [])) == [a, b, c];
  }

  lemma ZeroMonthsRead(lines: seq<string>)
    requires lines == [JANUARY, NO_DATE, MARCH]
    ensures MonthsIn(lines) == Ok([JANUARY_MONTH, NO_DATE_MONTH, MARCH_MONTH])
    ensures forall inContract :: IsBody(lines, inContract)
  {
    JanuaryReads();
    NoDateReads();
    MarchReads();
    ThreeMonths(JANUARY, NO_DATE, MARCH, JANUARY_MONTH, NO_DATE_MONTH, MARCH_MONTH);
  }

  lemma ZeroStart(key: Key)
    ensures Over(key, [JANUARY_MONTH, NO_DATE_MONTH, MARCH_MONTH]).from == Day(2020, 3, 1)
  {
    var months := [JANUARY_MONTH, NO_DATE_MONTH, MARCH_MONTH];
    assert months[..2][..1] == months[..1] && months[..1][..0] == [];
    assert Over(key, months[..1]).from == Day(2020, 1, 1);
    assert Over(key, months[..2]).from == ZERO;
  }

  /** A statement of one block. */
  lemma OneBlockParsed(labels: seq<string>, body: seq<string>, months: seq<Month>) returns (b: Block)
    requires IsLabels(labels) && IsBody(body, ContractRuns(labels)) && MonthsIn(body) == Ok(months)
    ensures b.months == months && BlocksOf(labels + body) == Ok([b])
    ensures Parsed(labels + body) == Ok(JoinedInto([], Over(KeyOf(b), months)))
  {
    BlockScan([], false, labels, body);
    b := Labelled(labels).blocks[0].(months := months);
    assert [] + [b] == [b] && [b][..0] == [];
    MergedLast([b]);
  }

  /** The printed month that starts on the zero time makes the relation forget the month before it. */
  lemma ZeroDateForgets()
    ensures BlocksOf(ZERO_LINES).Ok? && |BlocksOf(ZERO_LINES).value| == 1
    ensures BlocksOf(ZERO_LINES).value[0].months == [JANUARY_MONTH, NO_DATE_MONTH, MARCH_MONTH]
    ensures Parsed(ZERO_LINES).Ok? && |Parsed(ZERO_LINES).value| == 1 && Parsed(ZERO_LINES).value[0].from == Day(2020, 3, 1)
    ensures !Spans(Parsed(ZERO_LINES).value[0], BlocksOf(ZERO_LINES).value[0].months)
  {
    var labels, body := [ZERO_LINES[0]], [JANUARY, NO_DATE, MARCH];
    var months := [JANUARY_MONTH, NO_DATE_MONTH, MARCH_MONTH];
    assert ZERO_LINES == labels + body;
    ZeroMonthsRead(body);
    var b := OneBlockParsed(labels, body, months);
    ZeroStart(KeyOf(b));
    JoinedAlone(Over(KeyOf(b), months));
    assert months[0] == JANUARY_MONTH;
  }

  // ---- page breaks never matter, or one does ----

  /** The cut changes the parsed relations of no statement. */
  ghost predicate NeverMatters(labels: seq<string>, first: seq<string>, second: seq<string>)
  {
    forall before, after :: EndsBlock(after) ==>
      Parsed(CutBlock(before, labels, first, second, after)) == Parsed(WholeBlock(before, labels, first, second, after))
  }

  /**
   Cutting a block between any two of its lines and repeating its label lines changes
   the parsed relations of no statement, whatever is printed around it, exactly when
   the cut keeps the block's months: always when the zero time does not come into them.
   */
  lemma PageBreaksMatterIff(labels: seq<string>, first: seq<string>, second: seq<string>)
    requires IsCut(labels, first, second) && MonthsIn(first).Ok? && MonthsIn(second).Ok?
    ensures NeverMatters(labels, first, second) <==> CutKeeps(MonthsIn(first).value, MonthsIn(second).value)
    ensures Clear(MonthsIn(first).value) && Clear(MonthsIn(second).value) ==> NeverMatters(labels, first, second)
  {
    var m1, m2 := MonthsIn(first).value, MonthsIn(second).value;
    if Clear(m1) && Clear(m2) {
      ClearHalvesKeep(m1, m2);
    }
    if CutKeeps(m1, m2) {
      forall before, after | EndsBlock(after)
        ensures Parsed(CutBlock(before, labels, first, second, after)) == Parsed(WholeBlock(before, labels, first, second, after))
      {
        PageBreaksDoNotMatter(before, labels, first, second, after);
      }
    } else if NeverMatters(labels, first, second) {
      assert EndsBlock([]);
      CutAlone(labels, first, second);
    }
  }

  // ---- current relations ----

  /** The first day of the month two before the one given. */
  function Cutoff(year: int, month: int): int
    requires 1 <= month <= 12
  {
    if month <= 2 then Day(year - 1, month + 10, 1) else Day(year, month - 2, 1)
  }

  /** The cutoff is the first day of a real month, two months earlier, across year ends. */
  lemma CutoffIsTwoMonthsBack(year: int, month: int)
    requires 1 <= month <= 12
    ensures exists y: int, m: int :: 1 <= m <= 12 && Cutoff(year, month) == Day(y, m, 1) && 12 * y + m == 12 * year + month - 2
  {
    if month <= 2 {
      assert Cutoff(year, month) == Day(year - 1, month + 10, 1) && 12 * (year - 1) + (month + 10) == 12 * year + month - 2;
    } else {
      assert Cutoff(year, month) == Day(year, month - 2, 1) && 12 * year + (month - 2) == 12 * year + month - 2;
    }
  }

  /** What a relation counts as at the cutoff, when it still runs. */
  function CurrentKind(r: Relation, cutoff: int): Kind
  {
    if r.key.kind == SickViaEmployer then Employment
    else if r.key.kind == Employment && r.worked < cutoff then OtherIncome
    else r.key.kind
  }

  function CurrentOf(relations: seq<Relation>, cutoff: int): seq<Relation>
  {
    if relations == [] then []
    else
      var before, r := CurrentOf(relations[..|relations| - 1], cutoff), relations[|relations| - 1];
      if r.to < cutoff then before else before + [r.(key := r.key.(kind := CurrentKind(r, cutoff)))]
  }

  /** The relations still running when the statement was made. */
  method Current(relations: seq<Relation>, year: int, month: int) returns (current: seq<Relation>)
    requires 1 <= month <= 12
    ensures current == CurrentOf(relations, Cutoff(year, month))
  {
    var cutoff := Cutoff(year, month);
    current := [];
    for i := 0 to |relations|
      invariant current == CurrentOf(relations[..i], cutoff)
    {
      assert relations[..i + 1][..i] == relations[..i];
      var r := relations[i];
      if r.to < cutoff {
        continue;
      } else if r.key.kind == SickViaEmployer {
        r := r.(key := r.key.(kind := Employment));
      } else if r.key.kind == Employment && r.worked < cutoff {
        r := r.(key := r.key.(kind := OtherIncome));
      }
      current := current + [r];
    }
    assert relations[..|relations|] == relations;
  }

  predicate Employed(relations: seq<Relation>, cutoff: int)
  {
    exists r :: r in CurrentOf(relations, cutoff) && r.key.kind == Employment
  }

  /** The relation makes its holder employed at the cutoff. */
  predicate IsCurrentJob(r: Relation, cutoff: int)
  {
    r.to >= cutoff && (r.key.kind == SickViaEmployer || (r.key.kind == Employment && r.worked >= cutoff))
  }

  lemma {:induction false} EmployedByJob(relations: seq<Relation>, cutoff: int)
    ensures Employed(relations, cutoff) <==> exists r :: r in relations && IsCurrentJob(r, cutoff)
  {
    if relations != [] {
      var n := |relations| - 1;
      var r := relations[n];
      EmployedByJob(relations[..n], cutoff);
      assert r in relations && forall q :: q in relations <==> q in relations[..n] || q == r;
      var c := r.(key := r.key.(kind := CurrentKind(r, cutoff)));
      var before := CurrentOf(relations[..n], cutoff);
      assert r.to >= cutoff ==> c in before + [c];
      assert forall q :: q in CurrentOf(relations, cutoff) <==> q in before || (r.to >= cutoff && q == c);
    }
  }

  /** The month line makes its holder employed: worked, or sick pay through the employer, at or after the cutoff. */
  predicate Employs(key: Key, m: Month, cutoff: int)
  {
    m.to >= cutoff && (key.kind == SickViaEmployer || (key.kind == Employment && m.worked))
  }

  lemma OverIsJob(key: Key, months: seq<Month>, cutoff: int)
    requires cutoff > ZERO
    ensures IsCurrentJob(Over(key, months), cutoff) <==> exists m :: m in months && Employs(key, m, cutoff)
  {
    OverEnds(key, months);
  }

  ghost predicate SomeJob(relations: seq<Relation>, cutoff: int)
  {
    exists r :: r in relations && IsCurrentJob(r, cutoff)
  }

  /** Relations are worked no longer than they run. */
  ghost predicate WorkedWithin(relations: seq<Relation>)
  {
    forall r :: r in relations ==> r.worked <= r.to
  }

  /** Joining a relation adds its job, if it has one, and loses none. */
  lemma JoinedJob(merged: seq<Relation>, c: Relation, cutoff: int)
    requires WorkedWithin(merged) && c.worked <= c.to
    ensures WorkedWithin(JoinedInto(merged, c))
    ensures SomeJob(JoinedInto(merged, c), cutoff) <==> SomeJob(merged, cutoff) || (c.from != ZERO && IsCurrentJob(c, cutoff))
  {
    var i := IndexOf(merged, c.key);
    if c.from != ZERO {
      if i < |merged| {
        ReplacedJob(merged, i, c, cutoff);
      } else {
        assert forall r :: r in merged + [c] <==> r in merged || r == c;
      }
    }
  }

  lemma ReplacedJob(merged: seq<Relation>, i: nat, c: Relation, cutoff: int)
    requires WorkedWithin(merged) && c.worked <= c.to && i < |merged| && merged[i].key == c.key
    ensures var joined := merged[i := Joined(merged[i], c)];
            && WorkedWithin(joined)
            && (SomeJob(joined, cutoff) <==> SomeJob(merged, cutoff) || IsCurrentJob(c, cutoff))
  {
    var r := Joined(merged[i], c);
    var joined := merged[i := r];
    assert merged[i] in merged && joined[i] == r;
    assert IsCurrentJob(r, cutoff) <==> IsCurrentJob(merged[i], cutoff) || IsCurrentJob(c, cutoff);
    if q :| q in merged && IsCurrentJob(q, cutoff) {
      var j :| 0 <= j < |merged| && merged[j] == q;
      assert joined[j] in joined;
    }
    if q :| q in joined && IsCurrentJob(q, cutoff) {
      var j :| 0 <= j < |joined| && joined[j] == q;
      assert merged[j] in merged;
    }
  }

  /** The block is not dropped, and makes its holder employed. */
  ghost predicate KeptJob(b: Block, cutoff: int)
  {
    Printed(b).from != ZERO && IsCurrentJob(Over(KeyOf(b), b.months), cutoff)
  }

  lemma SomeOfBlocks(blocks: seq<Block>, cutoff: int)
    requires blocks != []
    ensures var n := |blocks| - 1;
            (exists b :: b in blocks && KeptJob(b, cutoff)) <==>
            (exists b :: b in blocks[..n] && KeptJob(b, cutoff)) || KeptJob(blocks[n], cutoff)
  {
    var n := |blocks| - 1;
    assert forall x :: x in blocks <==> x in blocks[..n] || x == blocks[n];
  }

  /** The merged relations hold a job exactly when some block that is not dropped does. */
  lemma {:induction false} MergedJobs(blocks: seq<Block>, cutoff: int)
    ensures WorkedWithin(Merged(PrintedAll(blocks)))
    ensures SomeJob(Merged(PrintedAll(blocks)), cutoff) <==> exists b :: b in blocks && KeptJob(b, cutoff)
  {
    if blocks != [] {
      var n := |blocks| - 1;
      var b := blocks[n];
      MergedLast(blocks);
      MergedJobs(blocks[..n], cutoff);
      OverEnds(KeyOf(b), b.months);
      JoinedJob(Merged(PrintedAll(blocks[..n])), Over(KeyOf(b), b.months), cutoff);
      SomeOfBlocks(blocks, cutoff);
    }
  }

  /** Some block that is not dropped has a month that makes its holder employed. */
  ghost predicate SomeMonthEmploys(blocks: seq<Block>, cutoff: int)
  {
    exists b, m :: b in blocks && Printed(b).from != ZERO && m in b.months && Employs(KeyOf(b), m, cutoff)
  }

  /**
   The whole pipeline in one line: parsed, classified, merged and filtered, the
   statement says employed exactly when some month line ends on or after the first
   day of the month two before the statement's, in a block of sick pay through the
   employer, or of a job with hours in that month. DroppedIff says which blocks are
   not counted: those whose last month starts on the zero time and none before it.
   */
  lemma EmployedIffSomeMonth(lines: seq<string>, blocks: seq<Block>, year: int, month: int)
    requires 1 <= month <= 12 && Cutoff(year, month) > ZERO && BlocksOf(lines) == Ok(blocks)
    ensures Parsed(lines).Ok?
    ensures Employed(Parsed(lines).value, Cutoff(year, month)) <==> SomeMonthEmploys(blocks, Cutoff(year, month))
  {
    var cutoff := Cutoff(year, month);
    EmployedByJob(Merged(PrintedAll(blocks)), cutoff);
    MergedJobs(blocks, cutoff);
    forall b | b in blocks
      ensures KeptJob(b, cutoff) <==> Printed(b).from != ZERO && exists m :: m in b.months && Employs(KeyOf(b), m, cutoff)
    {
      OverIsJob(KeyOf(b), b.months, cutoff);
    }
  }
}
