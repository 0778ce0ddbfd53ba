/**
 The issuance ledger: every row moves offered -> claimed -> revoked, or offered ->
 cancelled, or offered -> failed, each transition but failing audited with it.
 */
module IssuanceLedger {
  import opened AuditLog

  datatype Status = Offered | Claimed | Revoked | Cancelled | Failed

  /** The issuer's offer: its correlation id, the wallet's offer URI and code. */
  datatype Link = Link(issuanceId: string, offerUri: string, txCode: string)

  /** A ledger row; its id is its position. "" is an unset issuance or credential id. */
  datatype Row = Row(org: nat, status: Status, link: Link, credentialUuid: string)

  const NO_LINK := Link("", "", "")

  datatype Event = IssuedEvent | ClaimedEvent | RevokedEvent | CancelledEvent

  datatype Error = IssuedNotFound | NotOfferable | IssuerFailed

  datatype Result<T> = Ok(value: T) | Err(error: Error)

  datatype Ledger = Ledger(rows: seq<Row>, log: seq<Entry<Event>>)

  /** The row exists and is the organization's. */
  predicate Owned(l: Ledger, org: nat, id: nat)
  {
    id < |l.rows| && l.rows[id].org == org
  }

  predicate InStatus(l: Ledger, org: nat, id: nat, status: Status)
  {
    Owned(l, org, id) && l.rows[id].status == status
  }

  /** A guarded transition and its audit event, committed together or not at all. */
  function Moved(l: Ledger, org: nat, id: nat, from: Status, row: Row, event: Event): Ledger
  {
    if InStatus(l, org, id, from) then Ledger(l.rows[id := row], l.log + [Entry(id, event)]) else l
  }

  function Created(l: Ledger, org: nat): Ledger
  {
    Ledger(l.rows + [Row(org, Offered, NO_LINK, "")], l.log + [Entry(|l.rows|, IssuedEvent)])
  }

  function OfferSet(l: Ledger, org: nat, id: nat, link: Link): Ledger
  {
    if Owned(l, org, id) then l.(rows := l.rows[id := l.rows[id].(link := link)]) else l
  }

  function FailedIn(l: Ledger, org: nat, id: nat): Ledger
  {
    if InStatus(l, org, id, Offered) then l.(rows := l.rows[id := l.rows[id].(status := Failed)]) else l
  }

  function ClaimedIn(l: Ledger, org: nat, id: nat, uuid: string): Ledger
  {
    if InStatus(l, org, id, Offered) then
      Moved(l, org, id, Offered, l.rows[id].(status := Claimed, credentialUuid := uuid), ClaimedEvent)
    else l
  }

  function RevokedIn(l: Ledger, org: nat, id: nat): Ledger
  {
    if InStatus(l, org, id, Claimed) then Moved(l, org, id, Claimed, l.rows[id].(status := Revoked), RevokedEvent) else l
  }

  function CancelledIn(l: Ledger, org: nat, id: nat): Ledger
  {
    if InStatus(l, org, id, Offered) then Moved(l, org, id, Offered, l.rows[id].(status := Cancelled), CancelledEvent) else l
  }

  /** The error of a guarded update that found no row to move. */
  function Refusal(l: Ledger, org: nat, id: nat): Error
  {
    if Owned(l, org, id) then NotOfferable else IssuedNotFound
  }

  class Store {
    var rows: seq<Row>
    var log: seq<Entry<Event>>

    function State(): Ledger
      reads this
    {
      Ledger(rows, log)
    }

    constructor ()
      ensures State() == Ledger([], [])
    {
      rows, log := [], [];
    }

    method CreateOffered(org: nat) returns (id: nat)
      modifies this
      ensures id == |old(rows)| && State() == Created(old(State()), org)
    {
      id := |rows|;
      rows := rows + [Row(org, Offered, NO_LINK, "")];
      log := log + [Entry(id, IssuedEvent)];
    }

    /** Has no status guard: it writes the issuer's offer whatever became of the row. */
    method SetOffer(org: nat, id: nat, link: Link)
      modifies this`rows
      ensures State() == OfferSet(old(State()), org, id, link)
    {
      if id < |rows| && rows[id].org == org {
        rows := rows[id := rows[id].(link := link)];
      }
    }

    method MarkFailed(org: nat, id: nat)
      modifies this`rows
      ensures State() == FailedIn(old(State()), org, id)
    {
      if id < |rows| && rows[id].org == org && rows[id].status == Offered {
        rows := rows[id := rows[id].(status := Failed)];
      }
    }

    method MarkClaimed(org: nat, id: nat, uuid: string) returns (r: Result<Row>)
      modifies this
      ensures State() == ClaimedIn(old(State()), org, id, uuid)
      ensures r == if InStatus(old(State()), org, id, Offered) then Ok(rows[id]) else Err(IssuedNotFound)
    {
      if !(id < |rows| && rows[id].org == org && rows[id].status == Offered) {
        return Err(IssuedNotFound);
      }
      rows := rows[id := rows[id].(status := Claimed, credentialUuid := uuid)];
      log := log + [Entry(id, ClaimedEvent)];
      return Ok(rows[id]);
    }

    method Revoke(org: nat, id: nat) returns (r: Result<Row>)
      modifies this
      ensures State() == RevokedIn(old(State()), org, id)
      ensures r == if InStatus(old(State()), org, id, Claimed) then Ok(rows[id]) else Err(Refusal(old(State()), org, id))
    {
      if |rows| <= id || rows[id].org != org {
        return Err(IssuedNotFound);
      }
      if rows[id].status != Claimed {
        return Err(NotOfferable);
      }
      rows := rows[id := rows[id].(status := Revoked)];
      log := log + [Entry(id, RevokedEvent)];
      return Ok(rows[id]);
    }

    method Cancel(org: nat, id: nat) returns (r: Result<Row>)
      modifies this
      ensures State() == CancelledIn(old(State()), org, id)
      ensures r == if InStatus(old(State()), org, id, Offered) then Ok(rows[id]) else Err(Refusal(old(State()), org, id))
    {
      if |rows| <= id || rows[id].org != org {
        return Err(IssuedNotFound);
      }
      if rows[id].status != Offered {
        return Err(NotOfferable);
      }
      rows := rows[id := rows[id].(status := Cancelled)];
      log := log + [Entry(id, CancelledEvent)];
      return Ok(rows[id]);
    }
  }

  /** What the issuer answers to a revocation: the bit flipped, no bit reserved, or an error. */
  datatype Answer = Flipped | NoBit | Refused

  /** The row the revocation read has a published bit to flip. */
  predicate Flippable(row: Row)
  {
    row.credentialUuid != "" && row.status == Claimed
  }

  /**
   One whole revocation with nobody interfering: the issuer's bit first, then the
   row. An issuer error leaves the ledger untouched.
   */
  method Revoke(store: Store, org: nat, id: nat, answer: Answer) returns (r: Result<Row>, asked: bool)
    modifies store
    ensures asked <==> Owned(old(store.State()), org, id) && Flippable(old(store.rows)[id])
    ensures r.Ok? <==> InStatus(old(store.State()), org, id, Claimed) && (asked ==> !answer.Refused?)
    ensures store.State() == if r.Ok? then RevokedIn(old(store.State()), org, id) else old(store.State())
    ensures r.Err? ==> r.error == if asked then IssuerFailed else Refusal(old(store.State()), org, id)
  {
    if |store.rows| <= id || store.rows[id].org != org {
      return Err(IssuedNotFound), false;
    }
    var issued := store.rows[id];
    asked := issued.credentialUuid != "" && issued.status == Claimed;
    if asked && answer.Refused? {
      return Err(IssuerFailed), asked;
    }
    r := store.Revoke(org, id);
  }

  /** One status poll: an offered row with an issuance id is reconciled with the issuer. */
  method PollStatus(store: Store, org: nat, id: nat, issued: bool, uuid: string) returns (r: Result<Row>)
    modifies store
    ensures Owned(old(store.State()), org, id) <==> r.Ok?
    ensures store.State() ==
              if InStatus(old(store.State()), org, id, Offered) && old(store.rows)[id].link.issuanceId != "" && issued
              then ClaimedIn(old(store.State()), org, id, uuid) else old(store.State())
    ensures r.Ok? ==> r.value == store.rows[id]
  {
    if |store.rows| <= id || store.rows[id].org != org {
      return Err(IssuedNotFound);
    }
    if store.rows[id].status != Offered || store.rows[id].link.issuanceId == "" || !issued {
      return Ok(store.rows[id]);
    }
    r := store.MarkClaimed(org, id, uuid);
  }
}

/** Polls, revocations, cancellations and failed offers interleaved over the ledger. */
module IssuanceProtocol {
  import opened AuditLog
  import opened IssuanceLedger

  /** Where one poll or revocation stands. Asked carries the answer's uuid, Cleared the row
      read; a poll that claimed its row is told so unless its commit was not answered. */
  datatype Phase =
    | Polling(org: nat, id: nat)
    | Asked(org: nat, id: nat, uuid: string)
    | Revoking(org: nat, id: nat, read: Row)
    | Cleared(org: nat, id: nat, read: Row)
    | Polled(id: nat, claimed: bool, told: bool)
    | Finished(id: nat, revoked: bool)

  /**
   published holds the credential uuids whose status-list bit the issuer flipped or
   reported not to have; claimedBy holds, per claimed row, the poll that claimed it and
   readBefore, per revoked row, the row its revocation read.
   */
  datatype World = World(
    ledger: Ledger, callers: map<nat, Phase>, published: set<string>,
    claimedBy: map<nat, nat>, readBefore: map<nat, Row>)

  datatype Action =
    | Create(org: nat)
    | SetOffer(org: nat, id: nat, link: Link)
    | MarkFailed(org: nat, id: nat)
    | Cancel(org: nat, id: nat)
    | BeginPoll(caller: nat, org: nat, id: nat)
    | AskIssuer(caller: nat, uuid: string)
    | MarkClaimed(caller: nat, write: Write)
    | BeginRevoke(caller: nat, org: nat, id: nat)
    | FlipBit(caller: nat, answer: Answer)
    | WriteRevoked(caller: nat, write: Write)

  function Init(): World
  {
    World(Ledger([], []), map[], {}, map[], map[])
  }

  function Step(w: World, a: Action): World
  {
    match a
    case Create(org) => w.(ledger := Created(w.ledger, org))
    case SetOffer(org, id, link) => w.(ledger := OfferSet(w.ledger, org, id, link))
    case MarkFailed(org, id) => w.(ledger := FailedIn(w.ledger, org, id))
    case Cancel(org, id) => w.(ledger := CancelledIn(w.ledger, org, id))
    case BeginPoll(c, org, id) =>
      if c !in w.callers && InStatus(w.ledger, org, id, Offered) && w.ledger.rows[id].link.issuanceId != ""
      then w.(callers := w.callers[c := Polling(org, id)]) else w
    case AskIssuer(c, uuid) =>
      if c in w.callers && w.callers[c].Polling?
      then w.(callers := w.callers[c := Asked(w.callers[c].org, w.callers[c].id, uuid)]) else w
    case MarkClaimed(c, write) =>
      if c in w.callers && w.callers[c].Asked? then ClaimStep(w, c, write) else w
    case BeginRevoke(c, org, id) =>
      if c !in w.callers && Owned(w.ledger, org, id)
      then w.(callers := w.callers[c := Revoking(org, id, w.ledger.rows[id])]) else w
    case FlipBit(c, answer) =>
      if c in w.callers && w.callers[c].Revoking? then FlipStep(w, c, answer) else w
    case WriteRevoked(c, write) =>
      if c in w.callers && w.callers[c].Cleared? then RevokeStep(w, c, write) else w
  }

  function ClaimStep(w: World, c: nat, write: Write): World
    requires c in w.callers && w.callers[c].Asked?
  {
    var p := w.callers[c];
    if !write.Lost? && InStatus(w.ledger, p.org, p.id, Offered) then
      w.(ledger := ClaimedIn(w.ledger, p.org, p.id, p.uuid),
         callers := w.callers[c := Polled(p.id, true, write.Done?)], claimedBy := w.claimedBy[p.id := c])
    else w.(callers := w.callers[c := Polled(p.id, false, false)])
  }

  function FlipStep(w: World, c: nat, answer: Answer): World
    requires c in w.callers && w.callers[c].Revoking?
  {
    var p := w.callers[c];
    if !Flippable(p.read) then w.(callers := w.callers[c := Cleared(p.org, p.id, p.read)])
    else if answer.Refused? then w.(callers := w.callers[c := Finished(p.id, false)])
    else w.(callers := w.callers[c := Cleared(p.org, p.id, p.read)], published := w.published + {p.read.credentialUuid})
  }

  function RevokeStep(w: World, c: nat, write: Write): World
    requires c in w.callers && w.callers[c].Cleared?
  {
    var p := w.callers[c];
    if !write.Lost? && InStatus(w.ledger, p.org, p.id, Claimed) then
      w.(ledger := RevokedIn(w.ledger, p.org, p.id), callers := w.callers[c := Finished(p.id, write.Done?)],
         readBefore := w.readBefore[p.id := p.read])
    else w.(callers := w.callers[c := Finished(p.id, false)])
  }

  function Run(w: World, actions: seq<Action>): World
  {
    if actions == [] then w
    else Step(Run(w, actions[..|actions| - 1]), actions[|actions| - 1])
  }

  // ---- the audit log replays to the ledger ----

  /** The events of a row in each status; failing writes none. */
  function Word(status: Status): seq<Event>
  {
    match status
    case Offered => [IssuedEvent]
    case Failed => [IssuedEvent]
    case Claimed => [IssuedEvent, ClaimedEvent]
    case Revoked => [IssuedEvent, ClaimedEvent, RevokedEvent]
    case Cancelled => [IssuedEvent, CancelledEvent]
  }

  ghost predicate LogReplays(l: Ledger)
  {
    && (forall e :: e in l.log ==> e.target < |l.rows|)
    && (forall id: nat :: id < |l.rows| ==> Trail(l.log, id) == Word(l.rows[id].status))
  }

  lemma MoveReplays(l: Ledger, org: nat, id: nat, from: Status, row: Row, event: Event)
    requires LogReplays(l) && Word(row.status) == Word(from) + [event]
    ensures LogReplays(Moved(l, org, id, from, row, event))
  {
    forall j: nat | j < |l.rows| {
      TrailAppend(l.log, Entry(id, event), j);
    }
  }

  lemma CreateReplays(l: Ledger, org: nat)
    requires LogReplays(l)
    ensures LogReplays(Created(l, org))
  {
    forall j: nat | j <= |l.rows| {
      TrailAppend(l.log, Entry(|l.rows|, IssuedEvent), j);
    }
    TrailOfUnmentioned(l.log, |l.rows|);
  }

  // ---- a revoked credential is published as revoked ----

  /** A row the protocol can read later as this one: its uuid and terminal statuses stay. */
  ghost predicate Follows(read: Row, row: Row)
  {
    && (read.status == Claimed ==> row.credentialUuid == read.credentialUuid && (row.status == Claimed || row.status == Revoked))
    && (read.status == Revoked || read.status == Cancelled || read.status == Failed ==> row.status == read.status)
  }

  ghost predicate CallersHold(w: World)
  {
    && (forall c :: c in w.callers && (w.callers[c].Revoking? || w.callers[c].Cleared?) ==>
          && w.callers[c].id < |w.ledger.rows|
          && Follows(w.callers[c].read, w.ledger.rows[w.callers[c].id])
          && (w.callers[c].Cleared? && Flippable(w.callers[c].read) ==> w.callers[c].read.credentialUuid in w.published))
  }

  ghost predicate RowsHold(w: World)
  {
    && (forall id: nat :: id < |w.ledger.rows| && w.ledger.rows[id].status == Revoked ==> id in w.readBefore)
    && (forall id :: id in w.readBefore ==>
          && id < |w.ledger.rows|
          && w.ledger.rows[id].status == Revoked
          && Follows(w.readBefore[id], w.ledger.rows[id])
          && (w.readBefore[id].status == Offered || w.readBefore[id].status == Claimed)
          && (Flippable(w.readBefore[id]) ==> w.readBefore[id].credentialUuid in w.published))
  }

  /** A credential uuid is only ever on a row that was claimed. */
  ghost predicate UuidsClaimed(l: Ledger)
  {
    forall id :: 0 <= id < |l.rows| && l.rows[id].credentialUuid != "" ==>
      l.rows[id].status == Claimed || l.rows[id].status == Revoked
  }

  predicate Won(w: World, c: nat, id: nat)
  {
    c in w.callers && w.callers[c].Polled? && w.callers[c].id == id && w.callers[c].claimed
  }

  /** The poll was told that it claimed the row. */
  predicate ToldClaimed(w: World, c: nat, id: nat)
  {
    c in w.callers && w.callers[c].Polled? && w.callers[c].id == id && w.callers[c].told
  }

  ghost predicate ClaimsWon(w: World)
  {
    && (forall c: nat, id: nat :: ToldClaimed(w, c, id) ==> Won(w, c, id))
    && (forall c: nat, id: nat :: Won(w, c, id) ==> id in w.claimedBy && w.claimedBy[id] == c)
    && (forall id :: id in w.claimedBy ==> Won(w, w.claimedBy[id], id))
    && (forall id: nat :: id in w.claimedBy <==> IsClaimed(w.ledger, id))
  }

  ghost predicate Inv(w: World)
  {
    UuidsClaimed(w.ledger) && ClaimsWon(w) && LogReplays(w.ledger) && CallersHold(w) && RowsHold(w)
  }

  lemma CancelReplays(l: Ledger, org: nat, id: nat)
    requires LogReplays(l)
    ensures LogReplays(CancelledIn(l, org, id))
  {
    if InStatus(l, org, id, Offered) {
      MoveReplays(l, org, id, Offered, l.rows[id].(status := Cancelled), CancelledEvent);
    }
  }

  lemma ClaimReplays(l: Ledger, org: nat, id: nat, uuid: string)
    requires LogReplays(l)
    ensures LogReplays(ClaimedIn(l, org, id, uuid))
  {
    if InStatus(l, org, id, Offered) {
      MoveReplays(l, org, id, Offered, l.rows[id].(status := Claimed, credentialUuid := uuid), ClaimedEvent);
    }
  }

  lemma RevokeReplays(l: Ledger, org: nat, id: nat)
    requires LogReplays(l)
    ensures LogReplays(RevokedIn(l, org, id))
  {
    if InStatus(l, org, id, Claimed) {
      MoveReplays(l, org, id, Claimed, l.rows[id].(status := Revoked), RevokedEvent);
    }
  }

  /** Failing a row and writing its offer change nothing the log tells. */
  lemma SilentReplays(l: Ledger, org: nat, id: nat, link: Link)
    requires LogReplays(l)
    ensures LogReplays(FailedIn(l, org, id)) && LogReplays(OfferSet(l, org, id, link))
  {
  }

  lemma StepKeepsLog(w: World, a: Action)
    requires LogReplays(w.ledger)
    ensures LogReplays(Step(w, a).ledger)
  {
    match a
    case Create(org) => CreateReplays(w.ledger, org);
    case SetOffer(org, id, link) => SilentReplays(w.ledger, org, id, link);
    case MarkFailed(org, id) => SilentReplays(w.ledger, org, id, NO_LINK);
    case Cancel(org, id) => CancelReplays(w.ledger, org, id);
    case MarkClaimed(c, write) =>
      if c in w.callers && w.callers[c].Asked? {
        ClaimReplays(w.ledger, w.callers[c].org, w.callers[c].id, w.callers[c].uuid);
      }
    case WriteRevoked(c, write) =>
      if c in w.callers && w.callers[c].Cleared? {
        RevokeReplays(w.ledger, w.callers[c].org, w.callers[c].id);
      }
    case _ => assert Step(w, a).ledger == w.ledger;
  }

  lemma StepFollows(w: World, a: Action)
    ensures |w.ledger.rows| <= |Step(w, a).ledger.rows|
    ensures forall id, read :: 0 <= id < |w.ledger.rows| && Follows(read, w.ledger.rows[id]) ==>
              Follows(read, Step(w, a).ledger.rows[id])
  {
  }

  lemma ClaimKeepsWins(w: World, c: nat, write: Write)
    requires UuidsClaimed(w.ledger) && ClaimsWon(w) && c in w.callers && w.callers[c].Asked?
    ensures UuidsClaimed(ClaimStep(w, c, write).ledger) && ClaimsWon(ClaimStep(w, c, write))
  {
    var w' := ClaimStep(w, c, write);
    var p := w.callers[c];
    assert forall d: nat, j: nat :: d != c ==> (Won(w', d, j) <==> Won(w, d, j));
    assert Won(w', c, p.id) <==> !write.Lost? && InStatus(w.ledger, p.org, p.id, Offered);
  }

  predicate IsClaimed(l: Ledger, id: nat)
  {
    id < |l.rows| && (l.rows[id].status == Claimed || l.rows[id].status == Revoked)
  }

  /** No poll wins and no row becomes claimed: the wins stay as they are. */
  lemma WinsKept(w: World, w': World)
    requires ClaimsWon(w) && w'.claimedBy == w.claimedBy
    requires forall c: nat, id: nat :: Won(w', c, id) <==> Won(w, c, id)
    requires forall c: nat, id: nat :: ToldClaimed(w', c, id) ==> ToldClaimed(w, c, id)
    requires forall id: nat :: IsClaimed(w'.ledger, id) <==> IsClaimed(w.ledger, id)
    ensures ClaimsWon(w')
  {
    forall id: nat ensures id in w'.claimedBy <==> IsClaimed(w'.ledger, id) {
      assert id in w.claimedBy <==> IsClaimed(w.ledger, id);
    }
  }

  /** A step on the ledger alone that claims no row. */
  lemma LedgerKeepsWins(w: World, a: Action)
    requires UuidsClaimed(w.ledger) && ClaimsWon(w) && (a.Create? || a.SetOffer? || a.MarkFailed? || a.Cancel?)
    ensures UuidsClaimed(Step(w, a).ledger) && ClaimsWon(Step(w, a))
  {
    WinsKept(w, Step(w, a));
  }

  /** A step of one caller that is no claim. */
  lemma CallerKeepsWins(w: World, a: Action)
    requires UuidsClaimed(w.ledger) && ClaimsWon(w) && (a.BeginPoll? || a.AskIssuer? || a.BeginRevoke? || a.FlipBit?)
    ensures UuidsClaimed(Step(w, a).ledger) && ClaimsWon(Step(w, a))
  {
    WinsKept(w, Step(w, a));
  }

  lemma RevokeKeepsWins(w: World, c: nat, write: Write)
    requires UuidsClaimed(w.ledger) && ClaimsWon(w) && c in w.callers && w.callers[c].Cleared?
    ensures UuidsClaimed(RevokeStep(w, c, write).ledger) && ClaimsWon(RevokeStep(w, c, write))
  {
    WinsKept(w, RevokeStep(w, c, write));
  }

  lemma StepKeepsWins(w: World, a: Action)
    requires UuidsClaimed(w.ledger) && ClaimsWon(w)
    ensures UuidsClaimed(Step(w, a).ledger) && ClaimsWon(Step(w, a))
  {
    match a
    case MarkClaimed(c, write) => if c in w.callers && w.callers[c].Asked? { ClaimKeepsWins(w, c, write); }
    case WriteRevoked(c, write) => if c in w.callers && w.callers[c].Cleared? { RevokeKeepsWins(w, c, write); }
    case BeginPoll(_, _, _) => CallerKeepsWins(w, a);
    case AskIssuer(_, _) => CallerKeepsWins(w, a);
    case BeginRevoke(_, _, _) => CallerKeepsWins(w, a);
    case FlipBit(_, _) => CallerKeepsWins(w, a);
    case _ => LedgerKeepsWins(w, a);
  }

  /** A row reader's hold survives as long as rows only move on and published only grows. */
  lemma CallersKept(w: World, w': World)
    requires CallersHold(w) && RowsHold(w) && w.published <= w'.published
    requires w'.callers == w.callers && w'.readBefore == w.readBefore
    requires |w.ledger.rows| <= |w'.ledger.rows|
    requires forall id, read :: 0 <= id < |w.ledger.rows| && Follows(read, w.ledger.rows[id]) ==>
               Follows(read, w'.ledger.rows[id])
    requires forall id :: 0 <= id < |w'.ledger.rows| ==>
               (w'.ledger.rows[id].status == Revoked <==> id < |w.ledger.rows| && w.ledger.rows[id].status == Revoked)
    ensures CallersHold(w') && RowsHold(w')
  {
  }

  lemma FlipKeepsCallers(w: World, c: nat, answer: Answer)
    requires CallersHold(w) && RowsHold(w) && c in w.callers && w.callers[c].Revoking?
    ensures CallersHold(FlipStep(w, c, answer)) && RowsHold(FlipStep(w, c, answer))
  {
  }

  lemma RevokeKeepsCallers(w: World, c: nat, write: Write)
    requires CallersHold(w) && RowsHold(w) && c in w.callers && w.callers[c].Cleared?
    ensures CallersHold(RevokeStep(w, c, write)) && RowsHold(RevokeStep(w, c, write))
  {
  }

  lemma BeginKeepsCallers(w: World, a: Action)
    requires CallersHold(w) && RowsHold(w) && (a.BeginRevoke? || a.FlipBit? || a.WriteRevoked?)
    requires a.FlipBit? ==> !(a.caller in w.callers && w.callers[a.caller].Revoking?)
    requires a.WriteRevoked? ==> !(a.caller in w.callers && w.callers[a.caller].Cleared?)
    ensures CallersHold(Step(w, a)) && RowsHold(Step(w, a))
  {
  }

  lemma PollKeepsCallers(w: World, a: Action)
    requires CallersHold(w) && RowsHold(w) && (a.BeginPoll? || a.AskIssuer?)
    ensures CallersHold(Step(w, a)) && RowsHold(Step(w, a))
  {
  }

  lemma ClaimKeepsCallers(w: World, c: nat, write: Write)
    requires CallersHold(w) && RowsHold(w) && c in w.callers && w.callers[c].Asked?
    ensures CallersHold(ClaimStep(w, c, write)) && RowsHold(ClaimStep(w, c, write))
  {
  }

  lemma StepKeepsCallers(w: World, a: Action)
    requires CallersHold(w) && RowsHold(w)
    ensures CallersHold(Step(w, a)) && RowsHold(Step(w, a))
  {
    if a.FlipBit? && a.caller in w.callers && w.callers[a.caller].Revoking? {
      FlipKeepsCallers(w, a.caller, a.answer);
    } else if a.WriteRevoked? && a.caller in w.callers && w.callers[a.caller].Cleared? {
      RevokeKeepsCallers(w, a.caller, a.write);
    } else if a.BeginRevoke? || a.FlipBit? || a.WriteRevoked? {
      BeginKeepsCallers(w, a);
    } else if a.BeginPoll? || a.AskIssuer? {
      PollKeepsCallers(w, a);
    } else if a.MarkClaimed? {
      if a.caller in w.callers && w.callers[a.caller].Asked? {
        ClaimKeepsCallers(w, a.caller, a.write);
      }
    } else {
      StepFollows(w, a);
      CallersKept(w, Step(w, a));
    }
  }

  lemma StepKeepsInv(w: World, a: Action)
    requires Inv(w)
    ensures Inv(Step(w, a))
  {
    StepKeepsLog(w, a);
    StepKeepsWins(w, a);
    StepKeepsCallers(w, a);
  }

  lemma {:induction false} RunKeepsInv(actions: seq<Action>)
    ensures Inv(Run(Init(), actions))
  {
    if actions != [] {
      RunKeepsInv(actions[..|actions| - 1]);
      StepKeepsInv(Run(Init(), actions[..|actions| - 1]), actions[|actions| - 1]);
    }
  }

  // ---- what the ledger promises ----

  /**
   The audit log replays to the ledger: each row's events are one path through the
   lifecycle, ending where the row is. A claim, a revocation or a cancellation is
   audited exactly when it happened, once, however many polls raced.
   */
  lemma {:induction false} AuditReplaysToLedger(actions: seq<Action>, id: nat)
    requires id < |Run(Init(), actions).ledger.rows|
    ensures var l := Run(Init(), actions).ledger;
            Trail(l.log, id) == Word(l.rows[id].status)
  {
    RunKeepsInv(actions);
  }

  /**
   Of any number of racing polls exactly one claims a row that is, or was, claimed, and
   no other is told that it did: that one is, unless its commit was not answered.
   */
  lemma OnePollClaims(actions: seq<Action>, id: nat)
    requires id < |Run(Init(), actions).ledger.rows|
    ensures var w := Run(Init(), actions);
            && ((ClaimedEvent in Trail(w.ledger.log, id)) <==> exists c: nat :: Won(w, c, id))
            && (forall c: nat, d: nat :: Won(w, c, id) && Won(w, d, id) ==> c == d)
            && (forall c: nat :: ToldClaimed(w, c, id) ==> Won(w, c, id))
  {
    RunKeepsInv(actions);
    var w := Run(Init(), actions);
    var word := Word(w.ledger.rows[id].status);
    if IsClaimed(w.ledger, id) {
      assert word[1] == ClaimedEvent;
      assert Won(w, w.claimedBy[id], id);
    }
  }

  /** A credential uuid is written on the step from offered to claimed and on no other. */
  lemma UuidWrittenOnce(actions: seq<Action>, a: Action, id: nat)
    requires id < |Run(Init(), actions).ledger.rows|
    ensures var l, l' := Run(Init(), actions).ledger, Run(Init(), actions + [a]).ledger;
            && id < |l'.rows|
            && (l.rows[id].credentialUuid != l'.rows[id].credentialUuid ==>
                  && l.rows[id].credentialUuid == ""
                  && l.rows[id].status == Offered && l'.rows[id].status == Claimed)
  {
    assert (actions + [a])[..|actions|] == actions;
    RunKeepsInv(actions);
    UuidStep(Run(Init(), actions), a, id);
  }

  lemma UuidStep(w: World, a: Action, id: nat)
    requires UuidsClaimed(w.ledger) && id < |w.ledger.rows|
    ensures var l, l' := w.ledger, Step(w, a).ledger;
            && id < |l'.rows|
            && (l.rows[id].credentialUuid != l'.rows[id].credentialUuid ==>
                  && l.rows[id].credentialUuid == ""
                  && l.rows[id].status == Offered && l'.rows[id].status == Claimed)
  {
  }

  /** The ledger says revoked while the issuer never flipped nor disclaimed the credential's bit. */
  predicate Drifted(w: World, id: nat)
  {
    && id < |w.ledger.rows| && w.ledger.rows[id].status == Revoked
    && w.ledger.rows[id].credentialUuid != ""
    && w.ledger.rows[id].credentialUuid !in w.published
  }

  /**
   A row is only revoked by a revocation that read it offered or claimed. One that
   read it claimed with a uuid saw the very uuid the row has, and the issuer's
   answer to it came before the row was revoked.
   */
  lemma RevokedThroughIssuer(actions: seq<Action>, id: nat)
    requires id < |Run(Init(), actions).ledger.rows| && Run(Init(), actions).ledger.rows[id].status == Revoked
    ensures var w := Run(Init(), actions);
            && id in w.readBefore
            && (w.readBefore[id].status == Offered || w.readBefore[id].status == Claimed)
            && (w.readBefore[id].status == Claimed ==>
                  w.ledger.rows[id].credentialUuid == w.readBefore[id].credentialUuid)
            && (Drifted(w, id) ==> w.readBefore[id].status == Offered)
  {
    RunKeepsInv(actions);
  }

  /** The poll claims the row after the revocation read it offered and before it writes. */
  const RACE: seq<Action> := [
    Create(0), SetOffer(0, 0, LINK), BeginPoll(0, 0, 0), AskIssuer(0, "uuid"),
    BeginRevoke(1, 0, 0), MarkClaimed(0, Done), FlipBit(1, Flipped), WriteRevoked(1, Done)]

  const LINK := Link("issuance", "openid-credential-offer://", "")

  function RaceAt(n: nat): World
  {
    var offered := Row(0, Offered, if n < 2 then NO_LINK else LINK, "");
    var claimed := Row(0, Claimed, LINK, "uuid");
    var poll := if n < 3 then map[]
                else map[0 := if n == 3 then Polling(0, 0) else if n < 6 then Asked(0, 0, "uuid") else Polled(0, true, true)];
    var revocation := if n < 5 then map[]
                      else map[1 := if n < 7 then Revoking(0, 0, offered) else if n == 7 then Cleared(0, 0, offered)
                                    else Finished(0, true)];
    var events := [Entry(0, IssuedEvent), Entry(0, ClaimedEvent), Entry(0, RevokedEvent)];
    World(
      Ledger(if n == 0 then [] else [if n < 6 then offered else if n < 8 then claimed else claimed.(status := Revoked)],
             events[..if n == 0 then 0 else if n < 6 then 1 else if n < 8 then 2 else 3]),
      poll + revocation, {},
      if n < 6 then map[] else map[0 := 0], if n < 8 then map[] else map[0 := offered])
  }

  lemma RaceBegins(n: nat)
    requires n < 5
    ensures Step(RaceAt(n), RACE[n]) == RaceAt(n + 1)
  {
  }

  lemma RaceEnds(n: nat)
    requires 5 <= n < 8
    ensures Step(RaceAt(n), RACE[n]) == RaceAt(n + 1)
  {
  }

  lemma {:induction false} RaceRun(n: nat)
    requires n <= 8
    ensures Run(Init(), RACE[..n]) == RaceAt(n)
  {
    if n > 0 {
      RaceRun(n - 1);
      if n <= 5 {
        RaceBegins(n - 1);
      } else {
        RaceEnds(n - 1);
      }
      assert RACE[..n][..n - 1] == RACE[..n - 1];
    }
  }

  /** Row id was revoked by a revocation that read it in this status. */
  predicate RevokedFrom(w: World, id: nat, read: Status)
  {
    id in w.readBefore && w.readBefore[id].status == read
  }

  /** A revocation never drifts, in any interleaving, exactly when it does not read the row as offered. */
  lemma NoDriftIffNotReadOffered(read: Status)
    ensures (forall actions, id: nat :: RevokedFrom(Run(Init(), actions), id, read) ==> !Drifted(Run(Init(), actions), id))
            <==> read != Offered
  {
    if read == Offered {
      RaceRun(8);
      assert RACE[..8] == RACE;
      var w := Run(Init(), RACE);
      assert RevokedFrom(w, 0, read) && Drifted(w, 0);
    } else {
      forall actions, id: nat | RevokedFrom(Run(Init(), actions), id, read) ensures !Drifted(Run(Init(), actions), id) {
        RunKeepsInv(actions);
      }
    }
  }
}
