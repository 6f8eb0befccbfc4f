/**
 The activation journal and the lease handles that write to it: each attempt to lease an
 activation is a claim, and the records of one claim spell its history.
 */
module ActivationClaims {
  import opened Options
  import opened WakeJournal
  import opened Activations

  type ClaimId = nat

  datatype AbandonReason = NotExecuted | Idle | WakeFailed | RenewFailed

  datatype ClaimEvent = Leased | Blocked | Acked | Requeued | Abandoned(reason: AbandonReason)

  datatype ClaimRecord = ClaimRecord(claimId: ClaimId, activation: Activation, event: ClaimEvent)

  /** The events of one claim, in journal order. */
  function Word(records: seq<ClaimRecord>, c: ClaimId): seq<ClaimEvent> {
    if records == [] then []
    else
      var last := records[|records| - 1];
      Word(records[..|records| - 1], c) + if last.claimId == c then [last.event] else []
  }

  /** The histories a claim may have; the empty one is a claim not yet journaled. */
  predicate LegalWord(w: seq<ClaimEvent>) {
    || w == [] || w == [Blocked] || w == [Leased] || w == [Leased, Acked] || w == [Leased, Acked, Requeued]
    || (|w| == 2 && w[0] == Leased && w[1].Abandoned?)
  }

  lemma WordAppend(records: seq<ClaimRecord>, r: ClaimRecord, c: ClaimId)
    ensures Word(records + [r], c) == Word(records, c) + if r.claimId == c then [r.event] else []
  {
    assert (records + [r])[..|records|] == records;
  }

  /** Every claim is legal, open claims are just leased, and unused ids are unjournaled. */
  ghost predicate LegalJournal(records: seq<ClaimRecord>, open: set<ClaimId>, next: nat) {
    && (forall c :: LegalWord(Word(records, c)))
    && (forall c :: c in open ==> c < next && Word(records, c) == [Leased])
    && (forall c :: c >= next ==> Word(records, c) == [])
  }

  class ActivationJournal {
    var records: seq<ClaimRecord>
    var nextClaim: ClaimId
    ghost var open: set<ClaimId>  // leased claims whose handle has not been closed

    ghost predicate Valid()
      reads this
    {
      LegalJournal(records, open, nextClaim)
    }

    constructor ()
      ensures Valid() && records == [] && open == {}
    {
      records, nextClaim, open := [], 0, {};
    }

    method RecordBlocked(activation: Activation) returns (claimId: ClaimId)
      requires Valid()
      modifies this
      ensures Valid() && open == old(open)
      ensures records == old(records) + [ClaimRecord(claimId, activation, Blocked)]
      ensures claimId == old(nextClaim) && nextClaim == claimId + 1
      ensures forall c :: Word(records, c) == if c == claimId then [Blocked] else old(Word(records, c))
    {
      claimId := nextClaim;
      Journal(ClaimRecord(claimId, activation, Blocked), claimId + 1, open);
    }

    method RecordLeased(activation: Activation) returns (claimId: ClaimId)
      requires Valid()
      modifies this
      ensures Valid() && open == old(open) + {claimId} && claimId !in old(open)
      ensures records == old(records) + [ClaimRecord(claimId, activation, Leased)]
      ensures claimId == old(nextClaim) && nextClaim == claimId + 1
      ensures forall c :: Word(records, c) == if c == claimId then [Leased] else old(Word(records, c))
    {
      claimId := nextClaim;
      Journal(ClaimRecord(claimId, activation, Leased), claimId + 1, open + {claimId});
    }

    /** Appends one record that keeps its claim legal. */
    method Journal(r: ClaimRecord, next: ClaimId, ghost stillOpen: set<ClaimId>)
      requires Valid() && nextClaim <= next && r.claimId < next
      requires LegalWord(Word(records, r.claimId) + [r.event])
      requires forall c :: c in stillOpen ==>
                 ((c in open && c != r.claimId) || (c == r.claimId && Word(records, c) == [] && r.event == Leased))
      modifies this
      ensures Valid() && records == old(records) + [r] && nextClaim == next && open == stillOpen
      ensures forall c :: Word(records, c) == old(Word(records, c)) + if c == r.claimId then [r.event] else []
    {
      forall c ensures Word(records + [r], c) == Word(records, c) + if r.claimId == c then [r.event] else [] {
        WordAppend(records, r, c);
      }
      records := records + [r];
      nextClaim := next;
      open := stillOpen;
    }
  }

  /** How a handle is closed; `requeue` says the requeue details are meaningful. */
  datatype Closing = Ack(requeue: bool) | Abandon(reason: AbandonReason)

  /**
   A lease on a session. A handle from the activation queue journals its claim; one that a
   wake acquires for itself has no journal. `releases` counts calls to the store's release.
   */
  class WakeLease {
    const journal: ActivationJournal?
    const claimId: ClaimId
    const activation: Option<Activation>
    var closed: bool
    var releases: nat

    ghost predicate Valid()
      reads this, journal
    {
      && releases == (if closed then 1 else 0)
      && (journal != null ==> journal.Valid() && activation.Some? && (!closed ==> claimId in journal.open))
    }

    constructor Owned()
      ensures Valid() && !closed && journal == null
    {
      journal, claimId, activation, closed, releases := null, 0, None, false, 0;
    }

    constructor Claimed(journal: ActivationJournal, claimId: ClaimId, activation: Activation)
      requires journal.Valid() && claimId in journal.open
      ensures Valid() && !closed && this.journal == journal && this.claimId == claimId
      ensures this.activation == Some(activation)
    {
      this.journal, this.claimId, this.activation := journal, claimId, Some(activation);
      closed, releases := false, 0;
    }

    /**
     Closes the handle once; later calls do nothing. `failAt` is the journal append that
     throws, if any; the store's lease is released whichever way the appends go.
     */
    method Close(closing: Closing, failAt: Option<nat>) returns (threw: bool)
      requires Valid()
      modifies this, journal
      ensures Valid() && closed && releases == 1
      ensures old(closed) ==> !threw && (journal != null ==> journal.records == old(journal.records) && journal.open == old(journal.open))
      ensures journal != null ==> journal.nextClaim == old(journal.nextClaim)
      ensures journal != null && !old(closed) ==> journal.open == old(journal.open) - {claimId}
      ensures journal != null && !old(closed) && !threw ==>
                Word(journal.records, claimId) == [Leased] + ClosingWord(closing)
      ensures journal != null ==> forall c :: c != claimId ==> Word(journal.records, c) == old(Word(journal.records, c))
      ensures threw <==> !old(closed) && journal != null && ClosingThrows(closing, failAt)
    {
      if closed {
        return false;
      }
      closed := true;
      threw := false;
      if journal != null {
        threw := JournalClosing(journal, closing, failAt);
      }
      releases := releases + 1;
    }

    method JournalClosing(j: ActivationJournal, closing: Closing, failAt: Option<nat>) returns (threw: bool)
      requires j == journal && j.Valid() && claimId in j.open && activation.Some?
      modifies j
      ensures j.Valid() && j.open == old(j.open) - {claimId} && j.nextClaim == old(j.nextClaim)
      ensures !threw ==> Word(j.records, claimId) == [Leased] + ClosingWord(closing)
      ensures forall c :: c != claimId ==> Word(j.records, c) == old(Word(j.records, c))
      ensures threw <==> ClosingThrows(closing, failAt)
    {
      ghost var others := j.open - {claimId};
      if failAt == Some(0) {
        j.open := others;
        return true;
      }
      var first := if closing.Ack? then Acked else Abandoned(closing.reason);
      AppendForClaim(j, first, others);
      if closing.Ack? && closing.requeue {
        if failAt == Some(1) {
          return true;
        }
        AppendForClaim(j, Requeued, others);
      }
      return false;
    }

    method AppendForClaim(j: ActivationJournal, event: ClaimEvent, ghost stillOpen: set<ClaimId>)
      requires j == journal && j.Valid() && claimId < j.nextClaim && activation.Some?
      requires LegalWord(Word(j.records, claimId) + [event]) && stillOpen == j.open - {claimId}
      modifies j
      ensures j.Valid() && j.open == stillOpen && j.nextClaim == old(j.nextClaim)
      ensures Word(j.records, claimId) == old(Word(j.records, claimId)) + [event]
      ensures forall c :: c != claimId ==> Word(j.records, c) == old(Word(j.records, c))
    {
      j.Journal(ClaimRecord(claimId, activation.value, event), j.nextClaim, stillOpen);
    }
  }

  /** The append that throws is one closing comes to make: an acknowledgement with a requeue makes a second one. */
  predicate ClosingThrows(closing: Closing, failAt: Option<nat>) {
    failAt == Some(0) || (failAt == Some(1) && closing.Ack? && closing.requeue)
  }

  function ClosingWord(closing: Closing): seq<ClaimEvent> {
    match closing
    case Ack(requeue) => if requeue then [Acked, Requeued] else [Acked]
    case Abandon(reason) => [Abandoned(reason)]
  }
}
