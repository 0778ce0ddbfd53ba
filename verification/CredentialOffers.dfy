/**
 Inbound credential offers: an offer waits as pending until an admin accepts it
 (claim, redeem, settle) or declines it. The store's methods are guarded updates
 of one row; the protocol below interleaves any number of callers over them.
 */
module OfferStore {
  import opened AuditLog
  import HeldStore

  datatype OfferStatus = Pending | Accepting | Accepted | Declined

  datatype OfferInput = OfferInput(sourceMessage: nat, sender: string, credentialName: string, deeplink: string)

  /** A queued offer; its id is its position in the table, which only grows. */
  datatype Offer = Offer(org: nat, input: OfferInput, status: OfferStatus)

  /** What the holder engine reports about a credential it stored. */
  datatype Credential = Credential(ref: string, vct: string, issuer: string)

  /** The held-credential index row AcceptOffer writes. */
  datatype Held = Held(org: nat, credential: Credential, sourceMessage: nat, deleted: bool)

  datatype OfferEvent = OfferAccepted | OfferDeclined

  datatype Error = OfferNotFound | HeldNotFound | RedemptionFailed | DatabaseError

  datatype Result<T> = Ok(value: T) | Err(error: Error)

  /** log holds the events of offers, heldLog those of held credentials. */
  datatype Db = Db(offers: seq<Offer>, held: seq<Held>, log: seq<Entry<OfferEvent>>, heldLog: seq<Entry<HeldStore.HeldEvent>>)

  /** The guard of every status update: the row exists, is the organization's, and is in this status. */
  predicate InStatus(db: Db, org: nat, id: nat, status: OfferStatus)
  {
    id < |db.offers| && db.offers[id].org == org && db.offers[id].status == status
  }

  predicate Queued(db: Db, org: nat, message: nat)
  {
    exists i :: 0 <= i < |db.offers| && db.offers[i].org == org && db.offers[i].input.sourceMessage == message
  }

  function WithStatus(db: Db, id: nat, status: OfferStatus): Db
    requires id < |db.offers|
  {
    db.(offers := db.offers[id := db.offers[id].(status := status)])
  }

  function Recorded(db: Db, org: nat, input: OfferInput): Db
  {
    if Queued(db, org, input.sourceMessage) then db
    else db.(offers := db.offers + [Offer(org, input, Pending)])
  }

  function ClaimedIn(db: Db, org: nat, id: nat): Db
  {
    if InStatus(db, org, id, Pending) then WithStatus(db, id, Accepting) else db
  }

  function ReleasedIn(db: Db, org: nat, id: nat): Db
  {
    if InStatus(db, org, id, Accepting) then WithStatus(db, id, Pending) else db
  }

  function DeclinedIn(db: Db, org: nat, id: nat): Db
  {
    if InStatus(db, org, id, Pending) then
      WithStatus(db, id, Declined).(log := db.log + [Entry(id, OfferDeclined)])
    else db
  }

  function AcceptedIn(db: Db, org: nat, id: nat, credential: Credential, message: nat): Db
  {
    if InStatus(db, org, id, Accepting) then
      WithStatus(db, id, Accepted).(held := db.held + [Held(org, credential, message, false)],
                                    log := db.log + [Entry(id, OfferAccepted)],
                                    heldLog := db.heldLog + [Entry(|db.held|, HeldStore.Received)])
    else db
  }

  function DeletedIn(db: Db, org: nat, h: nat): Db
  {
    if h < |db.held| && db.held[h].org == org && !db.held[h].deleted then
      db.(held := db.held[h := db.held[h].(deleted := true)], heldLog := db.heldLog + [Entry(h, HeldStore.Deleted)])
    else db
  }

  class Store {
    var offers: seq<Offer>
    var held: seq<Held>
    var log: seq<Entry<OfferEvent>>
    var heldLog: seq<Entry<HeldStore.HeldEvent>>

    function State(): Db
      reads this
    {
      Db(offers, held, log, heldLog)
    }

    constructor ()
      ensures State() == Db([], [], [], [])
    {
      offers, held, log, heldLog := [], [], [], [];
    }

    /** Queues an offer once per source message; a re-delivery reads back the row
        already queued, whatever its status. */
    method RecordOffer(org: nat, input: OfferInput) returns (id: nat, recorded: bool)
      modifies this
      ensures State() == Recorded(old(State()), org, input)
      ensures recorded <==> !Queued(old(State()), org, input.sourceMessage)
      ensures id < |offers| && offers[id].org == org && offers[id].input.sourceMessage == input.sourceMessage
    {
      id, recorded := 0, true;
      while id < |offers|
        invariant id <= |offers| && recorded
        invariant State() == old(State())
        invariant forall i :: 0 <= i < id ==> !(offers[i].org == org && offers[i].input.sourceMessage == input.sourceMessage)
      {
        if offers[id].org == org && offers[id].input.sourceMessage == input.sourceMessage {
          recorded := false;
          return;
        }
        id := id + 1;
      }
      offers := offers + [Offer(org, input, Pending)];
    }

    /** One guarded update: of any number of concurrent accepts, one gets the row. */
    method ClaimOffer(org: nat, id: nat) returns (r: Result<Offer>)
      modifies this`offers
      ensures State() == ClaimedIn(old(State()), org, id)
      ensures r == if InStatus(old(State()), org, id, Pending) then Ok(offers[id]) else Err(OfferNotFound)
    {
      if id < |offers| && offers[id].org == org && offers[id].status == Pending {
        offers := offers[id := offers[id].(status := Accepting)];
        return Ok(offers[id]);
      }
      return Err(OfferNotFound);
    }

    /** Puts a claimed offer back in the queue. The guard names no owner. */
    method ReleaseOffer(org: nat, id: nat) returns (r: Result<()>)
      modifies this`offers
      ensures State() == ReleasedIn(old(State()), org, id)
      ensures r == if InStatus(old(State()), org, id, Accepting) then Ok(()) else Err(OfferNotFound)
    {
      if id < |offers| && offers[id].org == org && offers[id].status == Accepting {
        offers := offers[id := offers[id].(status := Pending)];
        return Ok(());
      }
      return Err(OfferNotFound);
    }

    /** Settles a claimed offer, indexes its credential and audits both, in one transaction. */
    method AcceptOffer(org: nat, id: nat, credential: Credential, message: nat) returns (r: Result<nat>)
      modifies this
      ensures State() == AcceptedIn(old(State()), org, id, credential, message)
      ensures r == if InStatus(old(State()), org, id, Accepting) then Ok(|old(held)|) else Err(OfferNotFound)
    {
      if !(id < |offers| && offers[id].org == org && offers[id].status == Accepting) {
        return Err(OfferNotFound);
      }
      offers := offers[id := offers[id].(status := Accepted)];
      held := held + [Held(org, credential, message, false)];
      log := log + [Entry(id, OfferAccepted)];
      heldLog := heldLog + [Entry(|held| - 1, HeldStore.Received)];
      return Ok(|held| - 1);
    }

    method DeclineOffer(org: nat, id: nat) returns (r: Result<()>)
      modifies this
      ensures State() == DeclinedIn(old(State()), org, id)
      ensures r == if InStatus(old(State()), org, id, Pending) then Ok(()) else Err(OfferNotFound)
    {
      if !(id < |offers| && offers[id].org == org && offers[id].status == Pending) {
        return Err(OfferNotFound);
      }
      offers := offers[id := offers[id].(status := Declined)];
      log := log + [Entry(id, OfferDeclined)];
      return Ok(());
    }
  }

  /**
   One whole acceptance with nobody interfering: claim, redeem, then settle, or
   release when the redemption failed. The offer ends accepted with its held row,
   pending again, or, when the settling or releasing write is lost, accepting.
   */
  method AcceptOffer(store: Store, org: nat, id: nat, redemption: Result<Credential>, write: Write) returns (r: Result<nat>)
    modifies store
    ensures r.Ok? <==> InStatus(old(store.State()), org, id, Pending) && redemption.Ok? && write.Done?
    ensures !InStatus(old(store.State()), org, id, Pending) ==>
              store.State() == old(store.State()) && r == Err(OfferNotFound)
    ensures InStatus(old(store.State()), org, id, Pending) ==>
              && |store.offers| == |old(store.offers)|
              && store.offers == old(store.offers)[id := old(store.offers)[id].(status :=
                   if write.Lost? then Accepting else if redemption.Ok? then Accepted else Pending)]
              && store.held == old(store.held) + (if write.Lost? || redemption.Err? then []
                                else [Held(org, redemption.value, old(store.offers)[id].input.sourceMessage, false)])
    ensures r.Ok? ==> r.value == |old(store.held)|
  {
    var claim := store.ClaimOffer(org, id);
    if claim.Err? {
      return Err(claim.error);
    }
    if redemption.Err? {
      if !write.Lost? {
        var _ := store.ReleaseOffer(org, id);
      }
      return Err(RedemptionFailed);
    }
    if write.Lost? {
      return Err(DatabaseError);
    }
    r := store.AcceptOffer(org, id, redemption.value, claim.value.input.sourceMessage);
    if write.Unheard? {
      r := Err(DatabaseError);
    }
  }
}
