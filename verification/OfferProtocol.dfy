/**
 Any number of admins, deliveries and failures over the offer store, interleaved
 between the claim, the redemption and the settling write of each acceptance.
 */
module OfferProtocol {
  import opened AuditLog
  import opened OfferStore
  import HeldStore

  /** Where one acceptance stands. Stranded and Unsettled ended while owning the claim. */
  datatype Phase =
    | Started(org: nat, id: nat)
    | Claimed(id: nat, offer: Offer)
    | RedeemFailed(id: nat, offer: Offer)
    | Holding(id: nat, offer: Offer, redemption: nat)
    | Stranded(id: nat)
    | Unsettled(id: nat, redemption: nat)
    | Finished

  datatype Caller = Caller(phase: Phase, alive: bool)

  /** How a redemption ends for the caller: stored; failed with nothing stored; failed
      after the session stored a batch, as one that stores several can; or abandoned by
      the caller's context while the issuer session still runs. */
  datatype Outcome = Stored(credential: Credential) | Refused | PartlyStored | Abandoned

  /** Where a redeemed credential went: still its caller's, or an index row. */
  datatype Fate = InFlight(caller: nat) | Indexed(row: nat)

  /** A redemption reported as successful. */
  datatype Redemption = Redemption(offer: nat, credential: Credential, fate: Fate)

  /**
   The database and everything around it. claims records the last winner of each
   offer, via the redemption behind each held row and rows the held row of each
   accepted offer; abandoned holds the offers of sessions still running after their
   caller left, late the offers for which a session stored a credential that no caller
   was told of.
   */
  datatype World = World(
    db: Db, callers: map<nat, Caller>, claims: map<nat, nat>,
    redemptions: seq<Redemption>, via: seq<nat>, rows: map<nat, nat>,
    abandoned: seq<nat>, late: seq<nat>)

  datatype Action =
    | Deliver(org: nat, input: OfferInput)
    | Decline(org: nat, id: nat)
    | DeleteHeld(org: nat, row: nat)
    | Begin(caller: nat, org: nat, id: nat)
    | Claim(caller: nat, write: Write)
    | Redeem(caller: nat, outcome: Outcome)
    | Release(caller: nat, write: Write)
    | Settle(caller: nat, write: Write)
    | Die(caller: nat)
    | SessionStores(session: nat)

  function Init(): World
  {
    World(Db([], [], [], []), map[], map[], [], [], map[], [], [])
  }

  /** The caller can act: it exists, is alive, and no phase of it is over. */
  predicate Acting(w: World, c: nat)
  {
    c in w.callers && w.callers[c].alive
  }

  function At(w: World, c: nat, phase: Phase): World
    requires c in w.callers
  {
    w.(callers := w.callers[c := w.callers[c].(phase := phase)])
  }

  function ClaimStep(w: World, c: nat, write: Write): World
    requires Acting(w, c) && w.callers[c].phase.Started?
  {
    var p := w.callers[c].phase;
    if write.Lost? || !InStatus(w.db, p.org, p.id, Pending) then At(w, c, Finished)
    else
      var db := ClaimedIn(w.db, p.org, p.id);
      var won := w.(db := db, claims := w.claims[p.id := c]);
      At(won, c, if write.Done? then Claimed(p.id, db.offers[p.id]) else Stranded(p.id))
  }

  function RedeemStep(w: World, c: nat, outcome: Outcome): World
    requires Acting(w, c) && w.callers[c].phase.Claimed?
  {
    var p := w.callers[c].phase;
    match outcome
    case Stored(credential) =>
      At(w.(redemptions := w.redemptions + [Redemption(p.id, credential, InFlight(c))]), c,
         Holding(p.id, p.offer, |w.redemptions|))
    case Refused => At(w, c, RedeemFailed(p.id, p.offer))
    case PartlyStored => At(w.(late := w.late + [p.id]), c, RedeemFailed(p.id, p.offer))
    case Abandoned => At(w.(abandoned := w.abandoned + [p.id]), c, RedeemFailed(p.id, p.offer))
  }

  function ReleaseStep(w: World, c: nat, write: Write): World
    requires Acting(w, c) && w.callers[c].phase.RedeemFailed?
  {
    var p := w.callers[c].phase;
    if write.Lost? then At(w, c, Stranded(p.id))
    else At(w.(db := ReleasedIn(w.db, p.offer.org, p.id)), c, Finished)
  }

  function SettleStep(w: World, c: nat, write: Write): World
    requires Acting(w, c) && w.callers[c].phase.Holding? && w.callers[c].phase.redemption < |w.redemptions|
  {
    var p := w.callers[c].phase;
    var k := p.redemption;
    if write.Lost? || !InStatus(w.db, p.offer.org, p.id, Accepting) then At(w, c, Unsettled(p.id, k))
    else
      var db := AcceptedIn(w.db, p.offer.org, p.id, w.redemptions[k].credential, p.offer.input.sourceMessage);
      At(w.(db := db, via := w.via + [k], rows := w.rows[p.id := |w.db.held|],
            redemptions := w.redemptions[k := w.redemptions[k].(fate := Indexed(|w.db.held|))]), c, Finished)
  }

  /** One step of one party; a step that is not enabled changes nothing. */
  function Step(w: World, a: Action): World
  {
    match a
    case Deliver(org, input) => w.(db := Recorded(w.db, org, input))
    case Decline(org, id) => w.(db := DeclinedIn(w.db, org, id))
    case DeleteHeld(org, row) => w.(db := DeletedIn(w.db, org, row))
    case Begin(c, org, id) =>
      if c in w.callers then w else w.(callers := w.callers[c := Caller(Started(org, id), true)])
    case Claim(c, write) =>
      if Acting(w, c) && w.callers[c].phase.Started? then ClaimStep(w, c, write) else w
    case Redeem(c, outcome) =>
      if Acting(w, c) && w.callers[c].phase.Claimed? then RedeemStep(w, c, outcome) else w
    case Release(c, write) =>
      if Acting(w, c) && w.callers[c].phase.RedeemFailed? then ReleaseStep(w, c, write) else w
    case Settle(c, write) =>
      if Acting(w, c) && w.callers[c].phase.Holding? && w.callers[c].phase.redemption < |w.redemptions|
      then SettleStep(w, c, write) else w
    case Die(c) =>
      if c in w.callers then w.(callers := w.callers[c := w.callers[c].(alive := false)]) else w
    case SessionStores(s) =>
      if s < |w.abandoned| then
        w.(late := w.late + [w.abandoned[s]], abandoned := w.abandoned[..s] + w.abandoned[s + 1..])
      else w
  }

  function Run(w: World, actions: seq<Action>): World
  {
    if actions == [] then w
    else Step(Run(w, actions[..|actions| - 1]), actions[|actions| - 1])
  }

  /** The caller holds the claim on offer id, or ended while holding it. */
  predicate Owns(w: World, c: nat, id: nat)
  {
    c in w.callers && OwnsIn(w.callers[c].phase, id)
  }

  predicate OwnsIn(p: Phase, id: nat)
  {
    match p
    case Started(_, _) => false
    case Finished => false
    case _ => p.id == id
  }

  /** The caller redeemed a credential no held row indexes. */
  predicate Carries(w: World, c: nat)
  {
    c in w.callers && (w.callers[c].phase.Holding? || w.callers[c].phase.Unsettled?)
  }

  function Carriers(w: World): set<nat>
  {
    set c | c in w.callers && Carries(w, c)
  }

  // ---- the invariant ----

  ghost predicate MessagesUnique(db: Db)
  {
    forall i, j :: 0 <= i < j < |db.offers| ==>
      !(db.offers[i].org == db.offers[j].org && db.offers[i].input.sourceMessage == db.offers[j].input.sourceMessage)
  }

  /** Accepting holds exactly while the last winner owns the offer. */
  ghost predicate ClaimsOwned(w: World)
  {
    && (forall c: nat, id: nat :: Owns(w, c, id) ==>
          id < |w.db.offers| && w.db.offers[id].status == Accepting && id in w.claims && w.claims[id] == c)
    && (forall id: nat :: id < |w.db.offers| && w.db.offers[id].status == Accepting ==>
          id in w.claims && Owns(w, w.claims[id], id))
  }

  /** A caller's copy of the row it claimed still tells its organization and message. */
  ghost predicate CopiesFaithful(w: World)
  {
    forall c :: c in w.callers ==>
      var p := w.callers[c].phase;
      p.Claimed? || p.RedeemFailed? || p.Holding? ==>
        && p.id < |w.db.offers|
        && p.offer.org == w.db.offers[p.id].org
        && p.offer.input == w.db.offers[p.id].input
  }

  ghost predicate FateHolds(w: World, k: nat)
    requires k < |w.redemptions|
  {
    var r := w.redemptions[k];
    && r.offer < |w.db.offers|
    && match r.fate
       case InFlight(c) => Carries(w, c) && w.callers[c].phase.id == r.offer && w.callers[c].phase.redemption == k
       case Indexed(h) => h < |w.via| && w.via[h] == k
  }

  /** The held row is the accepted offer's, with the credential its redemption stored. */
  ghost predicate RowHolds(w: World, h: nat)
    requires h < |w.via| == |w.db.held|
  {
    var k := w.via[h];
    && k < |w.redemptions|
    && w.redemptions[k].fate == Indexed(h)
    && var id := w.redemptions[k].offer;
       && id < |w.db.offers|
       && w.db.offers[id].status == Accepted
       && w.db.held[h].org == w.db.offers[id].org
       && w.db.held[h].sourceMessage == w.db.offers[id].input.sourceMessage
       && w.db.held[h].credential == w.redemptions[k].credential
  }

  ghost predicate RedemptionsAccounted(w: World)
  {
    && (forall k :: 0 <= k < |w.redemptions| ==> FateHolds(w, k))
    && |w.via| == |w.db.held|
    && (forall h :: 0 <= h < |w.via| ==> RowHolds(w, h))
    && (forall c :: Carries(w, c) ==>
          && w.callers[c].phase.redemption < |w.redemptions|
          && w.redemptions[w.callers[c].phase.redemption].fate == InFlight(c))
    && (forall j, k :: 0 <= j < k < |w.redemptions| ==> w.redemptions[j].offer != w.redemptions[k].offer)
    && |w.redemptions| == |w.db.held| + |Carriers(w)|
  }

  /** Every accepted offer has its held row. */
  ghost predicate AcceptedIndexed(w: World)
  {
    forall id: nat :: id < |w.db.offers| && w.db.offers[id].status == Accepted ==>
      && id in w.rows
      && w.rows[id] < |w.via|
      && w.via[w.rows[id]] < |w.redemptions|
      && w.redemptions[w.via[w.rows[id]]].offer == id
  }

  function Decision(status: OfferStatus): seq<OfferEvent>
  {
    match status
    case Accepted => [OfferAccepted]
    case Declined => [OfferDeclined]
    case _ => []
  }

  /** The audit log tells each offer's decision, once. */
  ghost predicate DecisionsAudited(db: Db)
  {
    && (forall e :: e in db.log ==> e.target < |db.offers|)
    && (forall id: nat :: id < |db.offers| ==> Trail(db.log, id) == Decision(db.offers[id].status))
  }

  /** A held credential's own trail starts with its receipt and ends with its deletion. */
  ghost predicate HeldAudited(db: Db)
  {
    && (forall e :: e in db.heldLog ==> e.target < |db.held|)
    && (forall h: nat :: h < |db.held| ==> Trail(db.heldLog, h) == HeldTrail(db.held[h]))
  }

  function HeldTrail(row: Held): seq<HeldStore.HeldEvent>
  {
    [HeldStore.Received] + if row.deleted then [HeldStore.Deleted] else []
  }

  ghost predicate Inv(w: World)
  {
    && MessagesUnique(w.db) && ClaimsOwned(w) && CopiesFaithful(w)
    && RedemptionsAccounted(w) && AcceptedIndexed(w) && DecisionsAudited(w.db)
  }

  // ---- every step keeps it ----

  /** A step on the database alone that leaves claims and settled offers as they were. */
  lemma DbFrame(w: World, db': Db)
    requires ClaimsOwned(w) && CopiesFaithful(w) && RedemptionsAccounted(w) && AcceptedIndexed(w)
    requires SameSettled(w.db, db')
    requires forall i :: 0 <= i < |w.db.offers| ==>
               (db'.offers[i].status == Accepting <==> w.db.offers[i].status == Accepting)
    ensures var w' := w.(db := db');
            ClaimsOwned(w') && CopiesFaithful(w') && RedemptionsAccounted(w') && AcceptedIndexed(w')
  {
    var w' := w.(db := db');
    assert forall c: nat, id: nat :: Owns(w', c, id) <==> Owns(w, c, id);
    RedemptionFrame(w, w');
  }

  lemma DeliverKeepsInv(w: World, org: nat, input: OfferInput)
    requires Inv(w)
    ensures Inv(Step(w, Deliver(org, input)))
  {
    DbFrame(w, Recorded(w.db, org, input));
    DeliverKeepsDb(w.db, org, input);
  }

  lemma DeliverKeepsDb(db: Db, org: nat, input: OfferInput)
    requires MessagesUnique(db) && DecisionsAudited(db)
    ensures MessagesUnique(Recorded(db, org, input)) && DecisionsAudited(Recorded(db, org, input))
  {
    var db' := Recorded(db, org, input);
    forall id: nat | |db.offers| <= id < |db'.offers| ensures Trail(db'.log, id) == [] {
      TrailOfUnmentioned(db.log, id);
    }
  }

  lemma DeclineKeepsInv(w: World, org: nat, id: nat)
    requires Inv(w)
    ensures Inv(Step(w, Decline(org, id)))
  {
    DbFrame(w, DeclinedIn(w.db, org, id));
    if InStatus(w.db, org, id, Pending) {
      DecisionAudited(w.db, WithStatus(w.db, id, Declined), id, OfferDeclined);
    }
  }

  lemma DeleteKeepsInv(w: World, org: nat, row: nat)
    requires Inv(w)
    ensures Inv(Step(w, DeleteHeld(org, row)))
  {
    DbFrame(w, DeletedIn(w.db, org, row));
  }

  /** A decision audited as it is made keeps the log telling every decision once. */
  lemma DecisionAudited(db: Db, db': Db, id: nat, event: OfferEvent)
    requires DecisionsAudited(db) && id < |db.offers| == |db'.offers|
    requires Decision(db.offers[id].status) == [] && Decision(db'.offers[id].status) == [event]
    requires forall j :: 0 <= j < |db.offers| && j != id ==> db'.offers[j] == db.offers[j]
    ensures DecisionsAudited(db'.(log := db.log + [Entry(id, event)]))
  {
    forall j: nat | j < |db'.offers| {
      TrailAppend(db.log, Entry(id, event), j);
    }
  }

  lemma BeginKeepsInv(w: World, c: nat, org: nat, id: nat)
    requires Inv(w)
    ensures Inv(Step(w, Begin(c, org, id)))
  {
    var w' := Step(w, Begin(c, org, id));
    CallerFrame(w, w', c);
  }

  lemma DieKeepsInv(w: World, c: nat)
    requires Inv(w)
    ensures Inv(Step(w, Die(c)))
  {
    CallerFrame(w, Step(w, Die(c)), c);
  }

  lemma SessionKeepsInv(w: World, s: nat)
    requires Inv(w)
    ensures Inv(Step(w, SessionStores(s)))
  {
    CallerFrame(w, Step(w, SessionStores(s)), 0);
  }

  /** Only caller c moves, and it neither gains nor loses a claim or a credential. */
  ghost predicate OnlyMoves(w: World, w': World, c: nat)
  {
    && w'.db == w.db && w'.claims == w.claims && w'.redemptions == w.redemptions && w'.via == w.via && w'.rows == w.rows
    && (forall d :: d != c ==> (d in w'.callers <==> d in w.callers) && (d in w.callers ==> w'.callers[d] == w.callers[d]))
    && (c in w.callers ==> c in w'.callers && SameHold(w.callers[c].phase, w'.callers[c].phase))
    && (c !in w.callers && c in w'.callers ==> w'.callers[c].phase.Started?)
  }

  lemma CallerFrame(w: World, w': World, c: nat)
    requires ClaimsOwned(w) && CopiesFaithful(w) && RedemptionsAccounted(w) && AcceptedIndexed(w)
    requires OnlyMoves(w, w', c)
    ensures ClaimsOwned(w') && CopiesFaithful(w') && RedemptionsAccounted(w') && AcceptedIndexed(w')
  {
    assert forall d: nat, id: nat :: Owns(w', d, id) <==> Owns(w, d, id);
    RedemptionFrame(w, w');
  }

  /** The same database, redemptions and carriers: everything redeemed stays accounted for. */
  lemma RedemptionFrame(w: World, w': World)
    requires RedemptionsAccounted(w) && AcceptedIndexed(w)
    requires w'.redemptions == w.redemptions && w'.via == w.via && w'.rows == w.rows
    requires SameSettled(w.db, w'.db)
    requires forall d: nat :: Carries(w', d) ==> Carries(w, d)
    requires forall d: nat :: Carries(w, d) ==>
               && Carries(w', d)
               && w'.callers[d].phase.id == w.callers[d].phase.id
               && w'.callers[d].phase.redemption == w.callers[d].phase.redemption
    ensures RedemptionsAccounted(w') && AcceptedIndexed(w')
  {
    assert Carriers(w') == Carriers(w);
    forall k | 0 <= k < |w.redemptions| ensures FateHolds(w', k) {
      assert FateHolds(w, k);
    }
    forall h | 0 <= h < |w.via| ensures RowHolds(w', h) {
      assert RowHolds(w, h);
    }
  }

  /** The accepted offers and the held rows, deletion aside, are the same in both databases. */
  ghost predicate SameSettled(db: Db, db': Db)
  {
    && |db.offers| <= |db'.offers|
    && (forall i :: 0 <= i < |db.offers| ==>
          && db'.offers[i].org == db.offers[i].org
          && db'.offers[i].input == db.offers[i].input
          && (db'.offers[i].status == Accepted <==> db.offers[i].status == Accepted))
    && (forall i :: |db.offers| <= i < |db'.offers| ==> db'.offers[i].status == Pending)
    && |db'.held| == |db.held|
    && (forall h :: 0 <= h < |db.held| ==>
          && db'.held[h].org == db.held[h].org
          && db'.held[h].sourceMessage == db.held[h].sourceMessage
          && db'.held[h].credential == db.held[h].credential)
  }

  /** The two phases own the same offer with the same copy and carry the same credential. */
  predicate SameHold(p: Phase, q: Phase)
  {
    p == q
    || (p.Started? && q.Finished?)
    || (p.Claimed? && q == RedeemFailed(p.id, p.offer))
    || (p.RedeemFailed? && q == Stranded(p.id))
    || (p.Holding? && q == Unsettled(p.id, p.redemption))
  }

  lemma ClaimKeepsInv(w: World, c: nat, write: Write)
    requires Inv(w) && Acting(w, c) && w.callers[c].phase.Started?
    ensures Inv(ClaimStep(w, c, write))
  {
    var p := w.callers[c].phase;
    if write.Lost? || !InStatus(w.db, p.org, p.id, Pending) {
      CallerFrame(w, ClaimStep(w, c, write), c);
    } else {
      ClaimWon(w, c, write);
    }
  }

  lemma ClaimWonClaims(w: World, c: nat, write: Write)
    requires MessagesUnique(w.db) && ClaimsOwned(w) && CopiesFaithful(w)
    requires Acting(w, c) && w.callers[c].phase.Started? && !write.Lost?
    requires InStatus(w.db, w.callers[c].phase.org, w.callers[c].phase.id, Pending)
    ensures var w' := ClaimStep(w, c, write);
            MessagesUnique(w'.db) && ClaimsOwned(w') && CopiesFaithful(w')
  {
    var w' := ClaimStep(w, c, write);
    assert forall d: nat, id: nat :: d != c ==> (Owns(w', d, id) <==> Owns(w, d, id));
    assert Owns(w', c, w.callers[c].phase.id);
  }

  lemma ClaimWon(w: World, c: nat, write: Write)
    requires Inv(w) && Acting(w, c) && w.callers[c].phase.Started? && !write.Lost?
    requires InStatus(w.db, w.callers[c].phase.org, w.callers[c].phase.id, Pending)
    ensures Inv(ClaimStep(w, c, write))
  {
    ClaimWonClaims(w, c, write);
    RedemptionFrame(w, ClaimStep(w, c, write));
  }

  lemma ReleasedKeepsClaims(w: World, c: nat, write: Write)
    requires MessagesUnique(w.db) && ClaimsOwned(w) && CopiesFaithful(w)
    requires Acting(w, c) && w.callers[c].phase.RedeemFailed? && !write.Lost?
    ensures var w' := ReleaseStep(w, c, write);
            MessagesUnique(w'.db) && ClaimsOwned(w') && CopiesFaithful(w')
  {
    var w' := ReleaseStep(w, c, write);
    assert Owns(w, c, w.callers[c].phase.id);
    assert forall d: nat, id: nat :: d != c ==> (Owns(w', d, id) <==> Owns(w, d, id));
  }

  lemma ReleaseKeepsInv(w: World, c: nat, write: Write)
    requires Inv(w) && Acting(w, c) && w.callers[c].phase.RedeemFailed?
    ensures Inv(ReleaseStep(w, c, write))
  {
    if write.Lost? {
      CallerFrame(w, ReleaseStep(w, c, write), c);
    } else {
      ReleasedKeepsClaims(w, c, write);
      RedemptionFrame(w, ReleaseStep(w, c, write));
    }
  }

  lemma RedeemKeepsInv(w: World, c: nat, outcome: Outcome)
    requires Inv(w) && Acting(w, c) && w.callers[c].phase.Claimed?
    ensures Inv(RedeemStep(w, c, outcome))
  {
    if outcome.Stored? {
      StoredKeepsInv(w, c, outcome.credential);
    } else {
      CallerFrame(w, RedeemStep(w, c, outcome), c);
    }
  }

  /** No earlier redemption was of the offer this caller claimed. */
  lemma ClaimedUnredeemed(w: World, c: nat)
    requires ClaimsOwned(w) && RedemptionsAccounted(w)
    requires c in w.callers && w.callers[c].phase.Claimed?
    ensures forall j :: 0 <= j < |w.redemptions| ==> w.redemptions[j].offer != w.callers[c].phase.id
  {
    var id := w.callers[c].phase.id;
    assert Owns(w, c, id);
    forall j | 0 <= j < |w.redemptions| ensures w.redemptions[j].offer != id {
      assert FateHolds(w, j);
      match w.redemptions[j].fate {
        case InFlight(d) => assert Owns(w, d, w.redemptions[j].offer);
        case Indexed(h) => assert RowHolds(w, h);
      }
    }
  }

  lemma StoredKeepsFates(w: World, c: nat, credential: Credential)
    requires ClaimsOwned(w) && RedemptionsAccounted(w)
    requires Acting(w, c) && w.callers[c].phase.Claimed?
    ensures var w' := RedeemStep(w, c, Stored(credential));
            && (forall k :: 0 <= k < |w'.redemptions| ==> FateHolds(w', k))
            && (forall h :: 0 <= h < |w'.via| ==> RowHolds(w', h))
  {
    var w' := RedeemStep(w, c, Stored(credential));
    assert Owns(w, c, w.callers[c].phase.id);
    forall k | 0 <= k < |w'.redemptions| ensures FateHolds(w', k) {
      if k < |w.redemptions| {
        assert FateHolds(w, k);
      }
    }
    forall h | 0 <= h < |w.via| ensures RowHolds(w', h) {
      assert RowHolds(w, h);
    }
  }

  lemma StoredKeepsRedemptions(w: World, c: nat, credential: Credential)
    requires ClaimsOwned(w) && RedemptionsAccounted(w) && AcceptedIndexed(w)
    requires Acting(w, c) && w.callers[c].phase.Claimed?
    ensures RedemptionsAccounted(RedeemStep(w, c, Stored(credential)))
    ensures AcceptedIndexed(RedeemStep(w, c, Stored(credential)))
  {
    ClaimedUnredeemed(w, c);
    StoredKeepsFates(w, c, credential);
    assert Carriers(RedeemStep(w, c, Stored(credential))) == Carriers(w) + {c};
  }

  lemma StoredKeepsInv(w: World, c: nat, credential: Credential)
    requires Inv(w) && Acting(w, c) && w.callers[c].phase.Claimed?
    ensures Inv(RedeemStep(w, c, Stored(credential)))
  {
    StoredKeepsRedemptions(w, c, credential);
    var w' := RedeemStep(w, c, Stored(credential));
    assert forall d: nat, id: nat :: Owns(w', d, id) <==> Owns(w, d, id);
  }

  lemma SettleKeepsInv(w: World, c: nat, write: Write)
    requires Inv(w) && Acting(w, c) && w.callers[c].phase.Holding? && w.callers[c].phase.redemption < |w.redemptions|
    ensures Inv(SettleStep(w, c, write))
  {
    var p := w.callers[c].phase;
    if write.Lost? || !InStatus(w.db, p.offer.org, p.id, Accepting) {
      CallerFrame(w, SettleStep(w, c, write), c);
    } else {
      SettledKeepsInv(w, c, write);
    }
  }

  ghost predicate Settling(w: World, c: nat)
  {
    && Acting(w, c) && w.callers[c].phase.Holding? && w.callers[c].phase.redemption < |w.redemptions|
    && InStatus(w.db, w.callers[c].phase.offer.org, w.callers[c].phase.id, Accepting)
  }

  lemma SettledKeepsClaims(w: World, c: nat, write: Write)
    requires MessagesUnique(w.db) && ClaimsOwned(w) && CopiesFaithful(w)
    requires Settling(w, c) && !write.Lost?
    ensures var w' := SettleStep(w, c, write);
            MessagesUnique(w'.db) && ClaimsOwned(w') && CopiesFaithful(w')
  {
    var p := w.callers[c].phase;
    var w' := SettleStep(w, c, write);
    assert Owns(w, c, p.id);
    assert forall d: nat, id: nat :: d != c ==> (Owns(w', d, id) <==> Owns(w, d, id));
  }

  lemma SettledKeepsFates(w: World, c: nat, write: Write)
    requires ClaimsOwned(w) && CopiesFaithful(w) && RedemptionsAccounted(w)
    requires Settling(w, c) && !write.Lost?
    ensures var w' := SettleStep(w, c, write);
            && |w'.via| == |w'.db.held|
            && (forall k :: 0 <= k < |w'.redemptions| ==> FateHolds(w', k))
            && (forall h :: 0 <= h < |w'.via| ==> RowHolds(w', h))
  {
    var p := w.callers[c].phase;
    var w' := SettleStep(w, c, write);
    assert Carries(w, c) && FateHolds(w, p.redemption);
    forall k | 0 <= k < |w.redemptions| ensures FateHolds(w', k) {
      assert FateHolds(w, k);
    }
    forall h | 0 <= h < |w'.via| ensures RowHolds(w', h) {
      if h < |w.via| {
        assert RowHolds(w, h);
      }
    }
  }

  lemma SettledKeepsRedemptions(w: World, c: nat, write: Write)
    requires ClaimsOwned(w) && CopiesFaithful(w) && RedemptionsAccounted(w) && AcceptedIndexed(w)
    requires Settling(w, c) && !write.Lost?
    ensures RedemptionsAccounted(SettleStep(w, c, write)) && AcceptedIndexed(SettleStep(w, c, write))
  {
    var p := w.callers[c].phase;
    var w' := SettleStep(w, c, write);
    SettledKeepsFates(w, c, write);
    assert Carries(w, c) && FateHolds(w, p.redemption);
    assert c in Carriers(w) && Carriers(w') == Carriers(w) - {c};
  }

  lemma SettledKeepsInv(w: World, c: nat, write: Write)
    requires Inv(w) && Settling(w, c) && !write.Lost?
    ensures Inv(SettleStep(w, c, write))
  {
    var p := w.callers[c].phase;
    SettledKeepsClaims(w, c, write);
    SettledKeepsRedemptions(w, c, write);
    DecisionAudited(w.db, WithStatus(w.db, p.id, Accepted), p.id, OfferAccepted);
  }

  lemma StepKeepsInv(w: World, a: Action)
    requires Inv(w)
    ensures Inv(Step(w, a))
  {
    match a
    case Deliver(org, input) => DeliverKeepsInv(w, org, input);
    case Decline(org, id) => DeclineKeepsInv(w, org, id);
    case DeleteHeld(org, row) => DeleteKeepsInv(w, org, row);
    case Begin(c, org, id) => BeginKeepsInv(w, c, org, id);
    case Die(c) => DieKeepsInv(w, c);
    case SessionStores(s) => SessionKeepsInv(w, s);
    case Claim(c, write) =>
      if Acting(w, c) && w.callers[c].phase.Started? { ClaimKeepsInv(w, c, write); }
    case Redeem(c, outcome) =>
      if Acting(w, c) && w.callers[c].phase.Claimed? { RedeemKeepsInv(w, c, outcome); }
    case Release(c, write) =>
      if Acting(w, c) && w.callers[c].phase.RedeemFailed? { ReleaseKeepsInv(w, c, write); }
    case Settle(c, write) =>
      if Acting(w, c) && w.callers[c].phase.Holding? && w.callers[c].phase.redemption < |w.redemptions| {
        SettleKeepsInv(w, c, write);
      }
  }

  lemma EmptyInv(w: World)
    requires w.db.offers == [] && w.db.held == [] && w.db.log == [] && w.callers == map[]
    requires w.redemptions == [] && w.via == []
    ensures Inv(w)
  {
    assert Carriers(w) == {};
  }

  lemma SameInv(w: World, w': World)
    requires Inv(w) && w' == w
    ensures Inv(w')
  {
  }

  lemma {:induction false} RunKeepsInv(actions: seq<Action>)
    ensures Inv(Run(Init(), actions))
  {
    if actions == [] {
      EmptyInv(Init());
    } else {
      var before, last := Run(Init(), actions[..|actions| - 1]), actions[|actions| - 1];
      RunKeepsInv(actions[..|actions| - 1]);
      StepKeepsInv(before, last);
      SameInv(Step(before, last), Run(Init(), actions));
    }
  }

  // ---- what the protocol promises ----

  /** The offers redeemed for good: reported redemptions, then credentials sessions stored late. */
  function RedeemedOffers(w: World): seq<nat>
  {
    seq(|w.redemptions|, k requires 0 <= k < |w.redemptions| => w.redemptions[k].offer) + w.late
  }

  ghost predicate NoneTwice(offers: seq<nat>)
  {
    forall j, k :: 0 <= j < k < |offers| ==> offers[j] != offers[k]
  }

  /** Whatever fails and however calls interleave, no offer has two successful redemptions. */
  lemma RedeemedAtMostOnce(actions: seq<Action>)
    ensures var w := Run(Init(), actions);
            forall j, k :: 0 <= j < k < |w.redemptions| ==> w.redemptions[j].offer != w.redemptions[k].offer
  {
    RunKeepsInv(actions);
  }

  /** Accepting holds exactly while one caller owns the claim or ended while owning it. */
  lemma AcceptingIffOwned(actions: seq<Action>, id: nat)
    requires id < |Run(Init(), actions).db.offers|
    ensures var w := Run(Init(), actions);
            && (w.db.offers[id].status == Accepting <==> exists c: nat :: Owns(w, c, id))
            && (forall c: nat, d: nat :: Owns(w, c, id) && Owns(w, d, id) ==> c == d)
  {
    RunKeepsInv(actions);
  }

  /**
   The release and the settling write, which name no owner, always find their own
   caller's claim: neither ever meets another caller's claim or a settled decision.
   */
  lemma GuardFindsOwnClaim(actions: seq<Action>, c: nat)
    requires var w := Run(Init(), actions);
             Acting(w, c) && (w.callers[c].phase.RedeemFailed? || w.callers[c].phase.Holding?)
    ensures var w := Run(Init(), actions);
            var p := w.callers[c].phase;
            && InStatus(w.db, p.offer.org, p.id, Accepting)
            && (forall d: nat :: Owns(w, d, p.id) ==> d == c)
  {
    RunKeepsInv(actions);
    var w := Run(Init(), actions);
    assert Owns(w, c, w.callers[c].phase.id);
  }

  /** Successful redemptions are exactly the held rows plus those still with a caller, in flight or ended unsettled. */
  lemma RedemptionsAreConserved(actions: seq<Action>)
    ensures var w := Run(Init(), actions);
            |w.redemptions| == |w.db.held| + |Carriers(w)|
  {
    RunKeepsInv(actions);
  }

  /** Each redeemed credential is in its accepted offer's held row, or its caller still owns the accepting offer. */
  lemma NothingRedeemedIsLost(actions: seq<Action>, k: nat)
    requires k < |Run(Init(), actions).redemptions|
    ensures var w := Run(Init(), actions);
            var r := w.redemptions[k];
            && r.offer < |w.db.offers|
            && match r.fate
               case InFlight(c) => c in Carriers(w) && Owns(w, c, r.offer) && w.db.offers[r.offer].status == Accepting
               case Indexed(h) => && HeldFor(w.db, h, r.offer)
                                  && w.db.held[h].credential == r.credential
                                  && w.db.offers[r.offer].status == Accepted
  {
    RunKeepsInv(actions);
    var w := Run(Init(), actions);
    assert FateHolds(w, k);
    match w.redemptions[k].fate {
      case InFlight(c) => assert Owns(w, c, w.redemptions[k].offer);
      case Indexed(h) => assert RowHolds(w, h);
    }
  }

  /** Accepted offers and held rows, deleted ones included, pair off by organization and source message. */
  lemma AcceptedIffHeld(actions: seq<Action>, id: nat)
    requires id < |Run(Init(), actions).db.offers|
    ensures var db := Run(Init(), actions).db;
            && (db.offers[id].status == Accepted <==> exists h :: HeldFor(db, h, id))
            && (forall g, h :: HeldFor(db, g, id) && HeldFor(db, h, id) ==> g == h)
  {
    RunKeepsInv(actions);
    var w := Run(Init(), actions);
    if w.db.offers[id].status == Accepted {
      assert RowHolds(w, w.rows[id]);
      assert HeldFor(w.db, w.rows[id], id);
    }
    forall h | HeldFor(w.db, h, id) ensures w.db.offers[id].status == Accepted {
      HeldThrough(w, h, id);
    }
    forall g, h | HeldFor(w.db, g, id) && HeldFor(w.db, h, id) ensures g == h {
      HeldThrough(w, g, id);
      HeldThrough(w, h, id);
    }
  }

  lemma HeldThrough(w: World, h: nat, id: nat)
    requires MessagesUnique(w.db) && RedemptionsAccounted(w) && HeldFor(w.db, h, id)
    ensures w.via[h] < |w.redemptions| && w.redemptions[w.via[h]].offer == id
    ensures w.redemptions[w.via[h]].fate == Indexed(h) && w.db.offers[id].status == Accepted
    ensures forall k :: 0 <= k < |w.redemptions| && w.redemptions[k].offer == id ==> k == w.via[h]
  {
    assert RowHolds(w, h);
  }

  ghost predicate HeldFor(db: Db, h: int, id: nat)
  {
    && 0 <= h < |db.held| && id < |db.offers|
    && db.held[h].org == db.offers[id].org && db.held[h].sourceMessage == db.offers[id].input.sourceMessage
  }

  /** Every held row is some accepted offer's. */
  lemma HeldOnlyFromAccepted(actions: seq<Action>, h: nat)
    requires h < |Run(Init(), actions).db.held|
    ensures var db := Run(Init(), actions).db;
            exists id: nat :: HeldFor(db, h, id) && db.offers[id].status == Accepted
  {
    RunKeepsInv(actions);
    var w := Run(Init(), actions);
    assert RowHolds(w, h);
    assert HeldFor(w.db, h, w.redemptions[w.via[h]].offer);
  }

  predicate Decided(status: OfferStatus)
  {
    status == Accepted || status == Declined
  }

  lemma SettleKeepsDecision(w: World, c: nat, write: Write, id: nat)
    requires id < |w.db.offers| && Decided(w.db.offers[id].status)
    requires Acting(w, c) && w.callers[c].phase.Holding? && w.callers[c].phase.redemption < |w.redemptions|
    ensures var db := SettleStep(w, c, write).db;
            id < |db.offers| && db.offers[id] == w.db.offers[id] && Trail(db.log, id) == Trail(w.db.log, id)
  {
    TrailAppend(w.db.log, Entry(w.callers[c].phase.id, OfferAccepted), id);
  }

  lemma DeclineKeepsDecision(db: Db, org: nat, declined: nat, id: nat)
    requires id < |db.offers| && Decided(db.offers[id].status)
    ensures var db' := DeclinedIn(db, org, declined);
            id < |db'.offers| && db'.offers[id] == db.offers[id] && Trail(db'.log, id) == Trail(db.log, id)
  {
    TrailAppend(db.log, Entry(declined, OfferDeclined), id);
  }

  lemma StepKeepsDecision(w: World, a: Action, id: nat)
    requires id < |w.db.offers| && Decided(w.db.offers[id].status)
    ensures id < |Step(w, a).db.offers| && Step(w, a).db.offers[id] == w.db.offers[id]
    ensures Trail(Step(w, a).db.log, id) == Trail(w.db.log, id)
  {
    match a
    case Decline(org, declined) => DeclineKeepsDecision(w.db, org, declined, id);
    case Settle(c, write) =>
      if Acting(w, c) && w.callers[c].phase.Holding? && w.callers[c].phase.redemption < |w.redemptions| {
        SettleKeepsDecision(w, c, write, id);
      }
    case _ =>
  }

  /** A decision is final and audited once: no later delivery, accept, decline or release changes it. */
  lemma {:induction false} DecisionIsFinal(w: World, actions: seq<Action>, id: nat)
    requires id < |w.db.offers| && Decided(w.db.offers[id].status)
    ensures id < |Run(w, actions).db.offers| && Run(w, actions).db.offers[id] == w.db.offers[id]
    ensures Trail(Run(w, actions).db.log, id) == Trail(w.db.log, id)
  {
    if actions != [] {
      DecisionIsFinal(w, actions[..|actions| - 1], id);
      StepKeepsDecision(Run(w, actions[..|actions| - 1]), actions[|actions| - 1], id);
    }
  }

  /** The audit log of every run tells each offer's decision: one event once decided, none before. */
  lemma {:induction false} AuditTellsDecisions(actions: seq<Action>, id: nat)
    requires id < |Run(Init(), actions).db.offers|
    ensures var db := Run(Init(), actions).db;
            Trail(db.log, id) == Decision(db.offers[id].status)
  {
    RunKeepsInv(actions);
  }

  /** The owner ended: its request died, or its last write was lost. */
  predicate EndedOwning(w: World, c: nat, id: nat)
  {
    Owns(w, c, id) && (!w.callers[c].alive || w.callers[c].phase.Stranded? || w.callers[c].phase.Unsettled?)
  }

  lemma StepKeepsStranded(w: World, a: Action, c: nat, id: nat)
    requires ClaimsOwned(w) && EndedOwning(w, c, id)
    ensures EndedOwning(Step(w, a), c, id)
  {
  }

  /** A claim whose owner ended is never reopened or settled: the offer stays accepting for good. */
  lemma {:induction false} StrandedForGood(w: World, actions: seq<Action>, c: nat, id: nat)
    requires Inv(w) && EndedOwning(w, c, id)
    ensures Inv(Run(w, actions)) && EndedOwning(Run(w, actions), c, id)
    ensures id < |Run(w, actions).db.offers| && Run(w, actions).db.offers[id].status == Accepting
  {
    if actions != [] {
      var before := Run(w, actions[..|actions| - 1]);
      StrandedForGood(w, actions[..|actions| - 1], c, id);
      StepKeepsInv(before, actions[|actions| - 1]);
      StepKeepsStranded(before, actions[|actions| - 1], c, id);
    }
    EndedMeansAccepting(Run(w, actions), c, id);
  }

  lemma EndedMeansAccepting(w: World, c: nat, id: nat)
    requires ClaimsOwned(w)
    ensures Owns(w, c, id) ==> id < |w.db.offers| && w.db.offers[id].status == Accepting
  {
  }

  /** An event on one held row, or none, keeps the others' trails. */
  lemma HeldAppended(db: Db, db': Db, h: nat, event: HeldStore.HeldEvent)
    requires HeldAudited(db) && h < |db'.held| && |db.held| <= |db'.held| && |db'.held| <= |db.held| + 1
    requires db'.heldLog == db.heldLog + [Entry(h, event)]
    requires forall i :: 0 <= i < |db.held| && i != h ==> db'.held[i] == db.held[i]
    requires |db.held| < |db'.held| ==> h == |db.held|
    requires HeldTrail(db'.held[h]) == (if h < |db.held| then HeldTrail(db.held[h]) else []) + [event]
    ensures HeldAudited(db')
  {
    forall i: nat | i < |db'.held| ensures Trail(db'.heldLog, i) == HeldTrail(db'.held[i]) {
      TrailAppend(db.heldLog, Entry(h, event), i);
      if i == |db.held| {
        TrailOfUnmentioned(db.heldLog, i);
      }
    }
  }

  lemma StepKeepsHeldAudited(w: World, a: Action)
    requires HeldAudited(w.db)
    ensures HeldAudited(Step(w, a).db)
  {
    var db, db' := w.db, Step(w, a).db;
    if db'.heldLog != db.heldLog {
      if a.DeleteHeld? {
        HeldAppended(db, db', a.row, HeldStore.Deleted);
      } else {
        HeldAppended(db, db', |db.held|, HeldStore.Received);
      }
    }
  }

  lemma {:induction false} RunKeepsHeldAudited(actions: seq<Action>)
    ensures HeldAudited(Run(Init(), actions).db)
  {
    if actions != [] {
      RunKeepsHeldAudited(actions[..|actions| - 1]);
      StepKeepsHeldAudited(Run(Init(), actions[..|actions| - 1]), actions[|actions| - 1]);
    }
  }

  /** In every run a held credential's trail is its receipt, then its deletion once deleted. */
  lemma {:induction false} HeldTrailsStart(actions: seq<Action>, h: nat)
    requires h < |Run(Init(), actions).db.held|
    ensures var db := Run(Init(), actions).db; Trail(db.heldLog, h) == HeldTrail(db.held[h])
  {
    RunKeepsHeldAudited(actions);
  }

  // ---- credentials stored that no caller was told of ----

  /** An offer that is stored twice was stored by a session whose caller was not told. */
  lemma StoredTwiceOnlyLate(actions: seq<Action>, j: nat, k: nat)
    requires j < k < |RedeemedOffers(Run(Init(), actions))|
    requires RedeemedOffers(Run(Init(), actions))[j] == RedeemedOffers(Run(Init(), actions))[k]
    ensures RedeemedOffers(Run(Init(), actions))[j] in Run(Init(), actions).late
  {
    RedeemedAtMostOnce(actions);
    TwiceInLate(Run(Init(), actions), j, k);
  }

  lemma TwiceInLate(w: World, j: nat, k: nat)
    requires forall i, l :: 0 <= i < l < |w.redemptions| ==> w.redemptions[i].offer != w.redemptions[l].offer
    requires j < k < |RedeemedOffers(w)| && RedeemedOffers(w)[j] == RedeemedOffers(w)[k]
    ensures RedeemedOffers(w)[j] in w.late
  {
    var n := |w.redemptions|;
    if k >= n {
      assert RedeemedOffers(w)[k] == w.late[k - n];
    }
  }

  /** The session may have stored, or may yet store, a credential the caller is not told of. */
  predicate Unreported(o: Outcome)
  {
    o.PartlyStored? || o.Abandoned?
  }

  /** No redemption ends in another way than these, credentials aside. */
  ghost predicate EndsAs(actions: seq<Action>, o: Outcome)
  {
    forall a :: a in actions && a.Redeem? ==> a.outcome.Stored? || a.outcome.Refused? || a.outcome == o
  }

  lemma StepReported(w: World, a: Action)
    requires w.abandoned == [] && w.late == [] && (a.Redeem? ==> !Unreported(a.outcome))
    ensures Step(w, a).abandoned == [] && Step(w, a).late == []
  {
  }

  lemma {:induction false} AllReported(actions: seq<Action>, o: Outcome)
    requires EndsAs(actions, o) && !Unreported(o)
    ensures Run(Init(), actions).abandoned == [] && Run(Init(), actions).late == []
  {
    if actions != [] {
      var last := actions[|actions| - 1];
      assert last in actions && forall a :: a in actions[..|actions| - 1] ==> a in actions;
      AllReported(actions[..|actions| - 1], o);
      StepReported(Run(Init(), actions[..|actions| - 1]), last);
    }
  }

  const INPUT := OfferInput(7, "DUO", "diploma", "openid-credential-offer://")
  const CREDENTIAL := Credential("ref", "vct", "issuer")

  /** Two admins; the first one's redemption ends unreported, and its session's credential is stored by the end. */
  function UnreportedRun(o: Outcome): seq<Action>
  {
    [Deliver(0, INPUT),
     Begin(0, 0, 0), Claim(0, Done), Redeem(0, o), Release(0, Done),
     Begin(1, 0, 0), Claim(1, Done), Redeem(1, Stored(CREDENTIAL)),
     SessionStores(0)]
  }

  /** The worlds the run goes through. */
  function UnreportedAt(o: Outcome, n: nat): World
  {
    var pending, accepting := Offer(0, INPUT, Pending), Offer(0, INPUT, Accepting);
    var first := if n < 2 then map[] else map[0 := Caller(
                   if n == 2 then Started(0, 0) else if n == 3 then Claimed(0, accepting)
                   else if n == 4 then RedeemFailed(0, accepting) else Finished, true)];
    var second := if n < 6 then map[] else map[1 := Caller(
                    if n == 6 then Started(0, 0) else if n == 7 then Claimed(0, accepting)
                    else Holding(0, accepting, 0), true)];
    World(
      Db(if n == 0 then [] else [if n == 3 || n == 4 || 7 <= n then accepting else pending], [], [], []),
      first + second,
      if n < 3 then map[] else map[0 := if n < 7 then 0 else 1],
      if n < 8 then [] else [Redemption(0, CREDENTIAL, InFlight(1))], [], map[],
      if o.Abandoned? && 4 <= n < 9 then [0] else [],
      if n >= (if o.Abandoned? then 9 else 4) then [0] else [])
  }

  lemma FirstAdminClaims(o: Outcome, n: nat)
    requires Unreported(o) && n < 3
    ensures Step(UnreportedAt(o, n), UnreportedRun(o)[n]) == UnreportedAt(o, n + 1)
  {
  }

  lemma FirstAdminRedeems(o: Outcome, n: nat)
    requires Unreported(o) && n == 3
    ensures Step(UnreportedAt(o, n), UnreportedRun(o)[n]) == UnreportedAt(o, n + 1)
  {
  }

  lemma FirstAdminReleases(o: Outcome, n: nat)
    requires Unreported(o) && n == 4
    ensures Step(UnreportedAt(o, n), UnreportedRun(o)[n]) == UnreportedAt(o, n + 1)
  {
  }

  lemma SecondAdminBegins(o: Outcome, n: nat)
    requires Unreported(o) && n == 5
    ensures Step(UnreportedAt(o, n), UnreportedRun(o)[n]) == UnreportedAt(o, n + 1)
  {
  }

  lemma SecondAdminClaims(o: Outcome, n: nat)
    requires Unreported(o) && n == 6
    ensures Step(UnreportedAt(o, n), UnreportedRun(o)[n]) == UnreportedAt(o, n + 1)
  {
  }

  lemma SecondAdminRedeems(o: Outcome, n: nat)
    requires Unreported(o) && n == 7
    ensures Step(UnreportedAt(o, n), UnreportedRun(o)[n]) == UnreportedAt(o, n + 1)
  {
  }

  lemma FirstSessionStores(o: Outcome, n: nat)
    requires Unreported(o) && n == 8
    ensures Step(UnreportedAt(o, n), UnreportedRun(o)[n]) == UnreportedAt(o, n + 1)
  {
  }

  lemma UnreportedStep(o: Outcome, n: nat)
    requires Unreported(o) && n < 9
    ensures Step(UnreportedAt(o, n), UnreportedRun(o)[n]) == UnreportedAt(o, n + 1)
  {
    if n < 3 {
      FirstAdminClaims(o, n);
    } else if n == 3 {
      FirstAdminRedeems(o, n);
    } else if n == 4 {
      FirstAdminReleases(o, n);
    } else if n == 5 {
      SecondAdminBegins(o, n);
    } else if n == 6 {
      SecondAdminClaims(o, n);
    } else if n == 7 {
      SecondAdminRedeems(o, n);
    } else {
      FirstSessionStores(o, n);
    }
  }

  lemma {:induction false} UnreportedRunAt(o: Outcome, n: nat)
    requires Unreported(o) && n <= 9
    ensures Run(Init(), UnreportedRun(o)[..n]) == UnreportedAt(o, n)
  {
    if n > 0 {
      UnreportedRunAt(o, n - 1);
      UnreportedStep(o, n - 1);
      assert UnreportedRun(o)[..n][..n - 1] == UnreportedRun(o)[..n - 1];
    }
  }

  /** A redemption that ends unreported lets a second one store another credential for the same offer. */
  lemma UnreportedRunStoresTwice(o: Outcome)
    requires Unreported(o)
    ensures RedeemedOffers(Run(Init(), UnreportedRun(o))) == [0, 0] && EndsAs(UnreportedRun(o), o)
  {
    UnreportedRunAt(o, 9);
    assert UnreportedRun(o)[..9] == UnreportedRun(o);
  }

  /** No offer is ever stored twice in the runs whose redemptions store, store nothing, or end as o. */
  ghost predicate NeverTwice(o: Outcome)
  {
    forall actions :: EndsAs(actions, o) ==> NoneTwice(RedeemedOffers(Run(Init(), actions)))
  }

  /**
   No offer has two credentials in the engine, in any run, exactly as long as no
   redemption ends otherwise than with its credential stored and reported, or with
   nothing stored: neither abandoned by its caller nor failed after storing a batch.
   */
  lemma NoneTwiceIffAllReported(o: Outcome)
    ensures NeverTwice(o) <==> !Unreported(o)
  {
    if Unreported(o) {
      UnreportedRunStoresTwice(o);
      var offers := RedeemedOffers(Run(Init(), UnreportedRun(o)));
      assert offers[0] == offers[1];
      assert !NoneTwice(offers);
    } else {
      forall actions | EndsAs(actions, o) ensures NoneTwice(RedeemedOffers(Run(Init(), actions))) {
        RedeemedAtMostOnce(actions);
        AllReported(actions, o);
      }
    }
  }
}
