/**
 Reading the audit log page by page: each page starts after the last event of the one
 before it, by time and then by id, newest first.
 */
module AuditPages {
  import opened Wrappers

  const DEFAULT_LIMIT := 50
  const MAX_LIMIT := 200

  /** The place of an event in the log; the id breaks ties of time. */
  datatype Cursor = Cursor(occurredAt: int, id: nat)

  datatype Event = Event(at: Cursor, detail: string)

  datatype Page = Page(events: seq<Event>, next: Option<Cursor>)

  predicate Before(a: Cursor, b: Cursor)
  {
    a.occurredAt < b.occurredAt || (a.occurredAt == b.occurredAt && a.id < b.id)
  }

  /** Newest first, no two events in one place. */
  ghost predicate NewestFirst(events: seq<Event>)
  {
    forall i, j :: 0 <= i < j < |events| ==> Before(events[j].at, events[i].at)
  }

  predicate IsAfter(e: Event, after: Option<Cursor>)
  {
    after.None? || Before(e.at, after.value)
  }

  /** The log's events past the cursor, in the log's order. */
  function Older(log: seq<Event>, after: Option<Cursor>): seq<Event>
  {
    if log == [] then []
    else (if IsAfter(log[0], after) then [log[0]] else []) + Older(log[1..], after)
  }

  function Limit(asked: int): (n: nat)
    ensures 1 <= n <= MAX_LIMIT
  {
    if asked <= 0 then DEFAULT_LIMIT else if asked > MAX_LIMIT then MAX_LIMIT else asked
  }

  /** The rows the query returns: the first n past the cursor. */
  function Fetched(log: seq<Event>, after: Option<Cursor>, n: nat): seq<Event>
  {
    var rows := Older(log, after);
    if |rows| <= n then rows else rows[..n]
  }

  /** The page past the cursor, and where the next one starts if there is one. */
  function PageOf(log: seq<Event>, after: Option<Cursor>, asked: int): Page
  {
    var rows, n := Older(log, after), Limit(asked);
    if |rows| <= n then Page(rows, None) else Page(rows[..n], Some(rows[n - 1].at))
  }

  /** The rows fetched, one more than the limit, tell the page. */
  lemma OneRowMore(log: seq<Event>, after: Option<Cursor>, asked: int)
    ensures var n := Limit(asked);
            var rows := Fetched(log, after, n + 1);
            PageOf(log, after, asked) == if |rows| > n then Page(rows[..n], Some(rows[n - 1].at)) else Page(rows, None)
  {
    var n, all := Limit(asked), Older(log, after);
    if |all| > n {
      assert all[..n + 1][..n] == all[..n];
    }
  }

  /** Reads one page: one row more than asked for tells whether another page follows. */
  method ReadPage(log: seq<Event>, after: Option<Cursor>, asked: int) returns (page: Page)
    ensures page == PageOf(log, after, asked)
  {
    var limit := asked;
    if asked <= 0 {
      limit := DEFAULT_LIMIT;
    } else if asked > MAX_LIMIT {
      limit := MAX_LIMIT;
    }
    var rows := Fetched(log, after, limit + 1);
    var events: seq<Event> := [];
    for i := 0 to |rows|
      invariant events == rows[..i]
    {
      events := events + [rows[i]];
    }
    assert events == rows;
    OneRowMore(log, after, asked);
    page := Page(events, None);
    if |events| > limit {
      page := Page(events[..limit], Some(events[limit - 1].at));
    }
  }

  // ---- one page after another ----

  lemma BeforeChain(a: Cursor, b: Cursor, c: Cursor)
    requires Before(a, b) && Before(b, c)
    ensures Before(a, c)
  {
  }

  /** Past a cursor lies all of a log, or a part at its end. */
  lemma {:induction false} OlderIsRest(log: seq<Event>, after: Option<Cursor>) returns (k: nat)
    requires NewestFirst(log)
    ensures k <= |log| && Older(log, after) == log[k..]
    ensures forall i :: 0 <= i < |log| ==> (IsAfter(log[i], after) <==> k <= i)
  {
    if log == [] {
      k := 0;
    } else {
      var l := OlderIsRest(log[1..], after);
      if IsAfter(log[0], after) {
        k := 0;
        forall i | 0 <= i < |log| ensures IsAfter(log[i], after) {
          if i > 0 && after.Some? {
            BeforeChain(log[i].at, log[0].at, after.value);
          }
        }
        assert log[1..] != [] ==> log[1..][0] == log[1];
        assert log == [log[0]] + log[1..][0..];
      } else {
        k := l + 1;
        assert forall i :: 1 <= i < |log| ==> log[i] == log[1..][i - 1];
      }
    }
  }

  /** The pages of a log that stands still, one after another. */
  ghost function AllPages(log: seq<Event>, after: Option<Cursor>, asked: int): seq<Event>
    requires NewestFirst(log)
    decreases |Older(log, after)|
  {
    var page := PageOf(log, after, asked);
    if page.next.None? then page.events
    else
      NextPage(log, after, asked);
      page.events + AllPages(log, page.next, asked)
  }

  /** The next page starts right after this one. */
  lemma NextPage(log: seq<Event>, after: Option<Cursor>, asked: int)
    requires NewestFirst(log) && PageOf(log, after, asked).next.Some?
    ensures var page := PageOf(log, after, asked);
            page.events != [] && Older(log, after) == page.events + Older(log, page.next)
  {
    var page, n := PageOf(log, after, asked), Limit(asked);
    var k := OlderIsRest(log, after);
    var l := OlderIsRest(log, page.next);
    assert page.next.value == log[k + n - 1].at;
    assert !IsAfter(log[k + n - 1], page.next);
    assert k + n < |log| ==> IsAfter(log[k + n], page.next);
    assert l == k + n;
    assert log[k..] == log[k..][..n] + log[l..];
  }

  /** Following the cursors lists every event once, in order, and comes to an end. */
  lemma {:induction false} PagesListTheLog(log: seq<Event>, after: Option<Cursor>, asked: int)
    requires NewestFirst(log)
    ensures AllPages(log, after, asked) == Older(log, after)
    decreases |Older(log, after)|
  {
    var page := PageOf(log, after, asked);
    if page.next.Some? {
      NextPage(log, after, asked);
      PagesListTheLog(log, page.next, asked);
    }
  }

  /** From the start: the whole log. */
  lemma PagesListTheWholeLog(log: seq<Event>, asked: int)
    requires NewestFirst(log)
    ensures AllPages(log, None, asked) == log
  {
    PagesListTheLog(log, None, asked);
    var k := OlderIsRest(log, None);
    assert log != [] ==> IsAfter(log[0], None);
  }

  // ---- a log that grows while it is read ----

  /** The pages read one after another, each from the log as it is by then. */
  ghost function Reading(logs: seq<seq<Event>>, after: Option<Cursor>, asked: int): seq<Event>
  {
    if logs == [] then []
    else
      var page := PageOf(logs[0], after, asked);
      page.events + if page.next.None? then [] else Reading(logs[1..], page.next, asked)
  }

  /** The reading comes to a last page. */
  ghost predicate Ends(logs: seq<seq<Event>>, after: Option<Cursor>, asked: int)
  {
    logs != [] && (PageOf(logs[0], after, asked).next.None? || Ends(logs[1..], PageOf(logs[0], after, asked).next, asked))
  }

  /** Events are added, wherever their time places them, and none removed. */
  ghost predicate Grows(logs: seq<seq<Event>>)
  {
    logs == [] || (NewestFirst(logs[0]) && Grows(logs[1..]) && (|logs| > 1 ==> Within(logs[0], logs[1])))
  }

  ghost predicate Within(log: seq<Event>, later: seq<Event>)
  {
    forall e :: e in log ==> e in later
  }

  /** A page is the start of what lies past the cursor, the next page's part follows. */
  lemma PageThenRest(log: seq<Event>, after: Option<Cursor>, asked: int)
    requires NewestFirst(log)
    ensures var page := PageOf(log, after, asked);
            && Older(log, after) == page.events + (if page.next.None? then [] else Older(log, page.next))
            && (page.next.Some? ==> page.events != [] && page.next == Some(page.events[|page.events| - 1].at))
  {
    if PageOf(log, after, asked).next.Some? {
      NextPage(log, after, asked);
    }
  }

  lemma OlderMembers(log: seq<Event>, after: Option<Cursor>)
    requires NewestFirst(log)
    ensures NewestFirst(Older(log, after))
    ensures forall e :: e in Older(log, after) <==> e in log && IsAfter(e, after)
  {
    var k := OlderIsRest(log, after);
    forall e | e in log && IsAfter(e, after) ensures e in Older(log, after) {
      var i :| 0 <= i < |log| && log[i] == e;
      assert log[k..][i - k] == e;
    }
  }

  lemma PageIsOlder(log: seq<Event>, after: Option<Cursor>, asked: int)
    requires NewestFirst(log)
    ensures var page := PageOf(log, after, asked);
            && NewestFirst(page.events)
            && (forall e :: e in page.events ==> e in log && IsAfter(e, after))
            && (forall e :: e in log && IsAfter(e, after) ==> e in page.events || (page.next.Some? && IsAfter(e, page.next)))
            && (page.next.Some? ==> page.events != [] && page.next == Some(page.events[|page.events| - 1].at))
  {
    var page := PageOf(log, after, asked);
    PageThenRest(log, after, asked);
    OlderMembers(log, after);
    FirstPartNewest(page.events, if page.next.None? then [] else Older(log, page.next));
    if page.next.Some? {
      OlderMembers(log, page.next);
    }
  }

  lemma FirstPartNewest(first: seq<Event>, rest: seq<Event>)
    requires NewestFirst(first + rest)
    ensures NewestFirst(first)
  {
    assert forall i :: 0 <= i < |first| ==> first[i] == (first + rest)[i];
  }

  lemma JoinPages(first: seq<Event>, rest: seq<Event>)
    requires first != [] && NewestFirst(first) && NewestFirst(rest)
    requires forall e :: e in rest ==> IsAfter(e, Some(first[|first| - 1].at))
    ensures NewestFirst(first + rest)
  {
    var s, n := first + rest, |first|;
    forall i, j | 0 <= i < j < |s| ensures Before(s[j].at, s[i].at) {
      if i < n <= j {
        assert rest[j - n] in rest;
        if i < n - 1 {
          BeforeChain(s[j].at, first[n - 1].at, s[i].at);
        }
      }
    }
  }

  /**
   While events are being added, reading to the last page still lists newest first and
   nothing twice, and misses no event that was in the log when the reading started.
   */
  lemma {:induction false} GrowingLogIsRead(logs: seq<seq<Event>>, after: Option<Cursor>, asked: int)
    requires Grows(logs) && Ends(logs, after, asked)
    ensures NewestFirst(Reading(logs, after, asked))
    ensures forall e :: e in logs[0] && IsAfter(e, after) ==> e in Reading(logs, after, asked)
    ensures forall e :: e in Reading(logs, after, asked) ==> IsAfter(e, after) && e in logs[|logs| - 1]
    decreases |logs|
  {
    var page := PageOf(logs[0], after, asked);
    PageIsOlder(logs[0], after, asked);
    StaysInLog(logs);
    if page.next.Some? {
      GrowingLogIsRead(logs[1..], page.next, asked);
      var rest := Reading(logs[1..], page.next, asked);
      JoinPages(page.events, rest);
      forall e | e in rest ensures IsAfter(e, after) {
        var last := page.events[|page.events| - 1];
        assert last in page.events;
        if after.Some? {
          BeforeChain(e.at, last.at, after.value);
        }
      }
    } else {
      assert page.events + [] == page.events;
    }
  }

  lemma {:induction false} StaysInLog(logs: seq<seq<Event>>)
    requires Grows(logs) && logs != []
    ensures Within(logs[0], logs[|logs| - 1])
    decreases |logs|
  {
    if |logs| > 1 {
      StaysInLog(logs[1..]);
    }
  }
}
