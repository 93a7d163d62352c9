/** Concrete runs, from the empty system, that reach each case in which the code falls short. */
module AuthorityExamples {
  import opened Foundation
  import opened Clock
  import opened AuthorityTypes
  import opened AuthoritySteps
  import opened AuthorityInvariant
  import opened AuthorityCalls
  import opened AuthorityRuns
  import opened AuthorityOutcomes

  const HEAD_1 := Head(1, 1, 1, 0, 1, 1, Genesis)
  const HEAD_2 := Head(2, 2, 2, 0, 2, 2, Link(1, HEAD_1, HEAD_1))
  const INPUT_1 := HeadInput(1, 1, HEAD_1, HEAD_1, HEAD_1, 1, 1, 1, 1, 0)
  const INPUT_2 := HeadInput(2, 2, HEAD_2, HEAD_2, HEAD_2, 2, 2, 2, 2, 0)
  const WORM_1 := HeadWorm(HEAD_1, HeadKey(1, HEAD_1), 1, RETENTION_MS)
  const WORM_2 := HeadWorm(HEAD_2, HeadKey(2, HEAD_2), 2, RETENTION_MS)
  const ROW_1 := HeadRow(1, 1, HEAD_1, HEAD_1, HEAD_1, 1, 1, 1, 1, 0, MirrorConfirmed, Some(WORM_1))
  const PENDING_2 := HeadRow(2, 2, HEAD_2, HEAD_2, HEAD_2, 2, 2, 2, 2, 0, MirrorPrepared, None)

  /** A request of intent 7 under the first head, good for one second. */
  function Ask(at: int, intent: Name, requestId: Name): ReserveRequest {
    ReserveRequest(at, at + 1000, intent, Replay(1, 100, requestId), requestId, 1, 1, 1, 1)
  }

  function Asked(at: int, intent: Name, requestId: Name): Reservation {
    Reservation(at, at + 1000, HeadRef(1, HEAD_1, HEAD_1), intent, Replay(1, 100, requestId), requestId)
  }

  const ID: ReservationId := ReservationId(HeadRef(1, HEAD_1, HEAD_1), 7)

  function RowOf(r: Reservation, status: EffectStatus, result: Option<Name>): EffectRow {
    EffectRow(r, r.head, r.intent, r.requestId, r.createdAt, r.expiresAt, status, result)
  }

  function OneHead(effects: map<ReservationId, EffectRow>): System {
    System(World([ROW_1], effects, map[], {}), map[])
  }

  /** The first head is appended, mirrored and confirmed. */
  const FIRST_HEAD: seq<Event> := [ReserveHead(INPUT_1, 0), MarkHead(1), ConfirmHead(1, WORM_1)]

  lemma FirstHead()
    ensures Run(NEW_SYSTEM, FIRST_HEAD) == OneHead(map[])
  {
    var s1 := Perform(NEW_SYSTEM, FIRST_HEAD[0]).system;
    var s2 := Perform(s1, FIRST_HEAD[1]).system;
    RunOne(NEW_SYSTEM, FIRST_HEAD[0]);
    RunMore(NEW_SYSTEM, [FIRST_HEAD[0]], FIRST_HEAD[1]);
    RunMore(NEW_SYSTEM, [FIRST_HEAD[0], FIRST_HEAD[1]], FIRST_HEAD[2]);
    assert FIRST_HEAD == [FIRST_HEAD[0], FIRST_HEAD[1]] + [FIRST_HEAD[2]];
    assert s1.world.heads == [ROW_1.(mirror := MirrorPrepared, worm := None)];
    assert s2.world.heads == [ROW_1.(mirror := MirrorDispatched, worm := None)];
    assert Perform(s2, FIRST_HEAD[2]).system.world.heads == [ROW_1];
  }

  lemma OneHeadIsCurrent(effects: map<ReservationId, EffectRow>)
    ensures var w := OneHead(effects).world; !HasPending(w.heads) && CurrentHead(w.heads) == Some(ROW_1)
  {
    assert CurrentHead([]) == None;
    assert [ROW_1][..0] == [];
  }

  /** An intent is reserved. */
  const RESERVED: seq<Event> := FIRST_HEAD + [ReserveAtOnce(Ask(0, 7, 9), 0, true, 0)]

  lemma Reserved()
    ensures Run(NEW_SYSTEM, RESERVED) == OneHead(map[ID := RowOf(Asked(0, 7, 9), EffectReserved, None)])
  {
    FirstHead();
    OneHeadIsCurrent(map[]);
    RunMore(NEW_SYSTEM, FIRST_HEAD, ReserveAtOnce(Ask(0, 7, 9), 0, true, 0));
    assert ExpireUndispatched(map[], 0) == map[];
  }

  // ---- exclusion ------------------------------------------------------------------------------

  /** The reservation has run out and the next head is on its way. */
  const HALF_PUBLISHED: seq<Event> := RESERVED + [ReserveHead(INPUT_2, 5000)]

  lemma HalfPublished()
    ensures Run(NEW_SYSTEM, HALF_PUBLISHED).world ==
              World([ROW_1, PENDING_2], map[ID := RowOf(Asked(0, 7, 9), EffectExpired, None)], map[], {})
  {
    Reserved();
    var s := Run(NEW_SYSTEM, RESERVED);
    RunMore(NEW_SYSTEM, RESERVED, ReserveHead(INPUT_2, 5000));
    OneHeadIsCurrent(s.world.effects);
    assert ExpireForHead(s.world.effects, 5000) == map[ID := RowOf(Asked(0, 7, 9), EffectExpired, None)];
    assert FindRequest([ROW_1], 2).None?;
  }

  /** There the bare store call re-arms the old effect under the pending head. */
  lemma StoreReserveBreaksExclusion()
    ensures var w := Run(NEW_SYSTEM, HALF_PUBLISHED).world;
            var step := EffectReserveStep(w, Asked(2000, 7, 10), 5000);
            Exclusive(w) && step.Done? && !Exclusive(step.world)
  {
    HalfPublished();
    var w := Run(NEW_SYSTEM, HALF_PUBLISHED).world;
    NewSystemOk();
    assert AtomicReserves(HALF_PUBLISHED);
    AtomicRunKeeps(NEW_SYSTEM, HALF_PUBLISHED);
    InvExclusive(w);
    assert w.heads[1].mirror != MirrorConfirmed;
    RearmedIsStray(w, Asked(2000, 7, 10), 5000);
  }

  /** And so does the coordinator, when the head is appended while a reserve waits for its proof. */
  const WAITING: seq<Event> := RESERVED + [StartReserve(Ask(2000, 7, 10), 2000, true)]
  const OVERTAKEN: seq<Event> := WAITING + [ReserveHead(INPUT_2, 5000)]
  const BROKEN: seq<Event> := OVERTAKEN + [Resume(ID, 5000, false)]

  lemma Waiting()
    ensures Run(NEW_SYSTEM, WAITING) ==
              OneHead(map[ID := RowOf(Asked(0, 7, 9), EffectReserved, None)])
              .(flights := map[ID := Reserving(Asked(2000, 7, 10))])
  {
    Reserved();
    OneHeadIsCurrent(map[ID := RowOf(Asked(0, 7, 9), EffectReserved, None)]);
    RunMore(NEW_SYSTEM, RESERVED, StartReserve(Ask(2000, 7, 10), 2000, true));
  }

  lemma Overtaken()
    ensures Run(NEW_SYSTEM, OVERTAKEN) ==
              System(World([ROW_1, PENDING_2], map[ID := RowOf(Asked(0, 7, 9), EffectExpired, None)], map[], {}),
                     map[ID := Reserving(Asked(2000, 7, 10))])
  {
    Waiting();
    var effects := map[ID := RowOf(Asked(0, 7, 9), EffectReserved, None)];
    OneHeadIsCurrent(effects);
    RunMore(NEW_SYSTEM, WAITING, ReserveHead(INPUT_2, 5000));
    assert ExpireForHead(effects, 5000) == map[ID := RowOf(Asked(0, 7, 9), EffectExpired, None)];
    assert FindRequest([ROW_1], 2).None?;
  }

  lemma WaitingReserveBreaksExclusion()
    ensures var w := Run(NEW_SYSTEM, BROKEN).world;
            && HasPending(w.heads) && ID in w.effects && w.effects[ID].status == EffectReserved && !Exclusive(w)
  {
    Overtaken();
    RunMore(NEW_SYSTEM, OVERTAKEN, Resume(ID, 5000, false));
    var w := Run(NEW_SYSTEM, BROKEN).world;
    assert w.heads[1].mirror != MirrorConfirmed;
    assert w.effects[ID].status == EffectReserved;
    assert HasNonterminalEffect(w.effects);
  }

  // ---- reserves that are not answered ---------------------------------------------------------

  const SEALED: seq<Event> := RESERVED + [Seal(ID, 9, 0, 5, 0)]

  lemma Sealed()
    ensures Run(NEW_SYSTEM, SEALED) == OneHead(map[ID := RowOf(Asked(0, 7, 9), EffectSealed, Some(5))])
  {
    Reserved();
    RunMore(NEW_SYSTEM, RESERVED, Seal(ID, 9, 0, 5, 0));
  }

  /** A sealed effect cannot be reserved again. */
  lemma SealedReserveFails()
    ensures Admissible(Run(NEW_SYSTEM, SEALED).world, Ask(500, 7, 10), 500, true)
    ensures ReserveWhole(Run(NEW_SYSTEM, SEALED), Ask(500, 7, 10), 500, true, 500, 500).answer.None?
  {
    Sealed();
    ReachedOk(SEALED);
    OneHeadIsCurrent(Run(NEW_SYSTEM, SEALED).world.effects);
    ReserveAnswered(Run(NEW_SYSTEM, SEALED), Ask(500, 7, 10), 500, true, 500, 500);
  }

  const WITHDRAWN: seq<Event> := RESERVED + [Cancel(ID, 9, 0, 0)]

  lemma Withdrawn()
    ensures Run(NEW_SYSTEM, WITHDRAWN) == OneHead(map[ID := RowOf(Asked(0, 7, 9), EffectCancelled, None)])
  {
    Reserved();
    RunMore(NEW_SYSTEM, RESERVED, Cancel(ID, 9, 0, 0));
  }

  /** A new intent cannot use the request id of an old one, not even of a cancelled one. */
  lemma TakenRequestFails()
    ensures Admissible(Run(NEW_SYSTEM, WITHDRAWN).world, Ask(500, 8, 9), 500, true)
    ensures ReserveWhole(Run(NEW_SYSTEM, WITHDRAWN), Ask(500, 8, 9), 500, true, 500, 500).answer.None?
  {
    Withdrawn();
    ReachedOk(WITHDRAWN);
    var w := Run(NEW_SYSTEM, WITHDRAWN).world;
    OneHeadIsCurrent(w.effects);
    assert w.effects[ID].requestId == 9;
    assert RequestTaken(w.effects, 9, ReservationId(HeadRef(1, HEAD_1, HEAD_1), 8));
    ReserveAnswered(Run(NEW_SYSTEM, WITHDRAWN), Ask(500, 8, 9), 500, true, 500, 500);
  }

  const MIRRORED: seq<Event> := HALF_PUBLISHED + [MarkHead(2)]
  const ADVANCED: seq<Event> := MIRRORED + [ConfirmHead(2, WORM_2)]
  const ROW_2 := PENDING_2.(mirror := MirrorConfirmed, worm := Some(WORM_2))

  lemma Mirrored()
    ensures var s := Run(NEW_SYSTEM, MIRRORED);
            && s.world.heads == [ROW_1, PENDING_2.(mirror := MirrorDispatched)] && s.flights == map[]
            && s.world.effects == map[ID := RowOf(Asked(0, 7, 9), EffectExpired, None)]
  {
    HalfPublished();
    RunMore(NEW_SYSTEM, RESERVED, ReserveHead(INPUT_2, 5000));
    Reserved();
    RunMore(NEW_SYSTEM, HALF_PUBLISHED, MarkHead(2));
  }

  lemma Advanced()
    ensures var w := Run(NEW_SYSTEM, ADVANCED).world;
            && w.heads == [ROW_1, ROW_2] && !HasPending(w.heads) && CurrentHead(w.heads) == Some(ROW_2)
            && w.effects == map[ID := RowOf(Asked(0, 7, 9), EffectExpired, None)]
    ensures Run(NEW_SYSTEM, ADVANCED).flights == map[]
  {
    Mirrored();
    RunMore(NEW_SYSTEM, MIRRORED, ConfirmHead(2, WORM_2));
    assert Run(NEW_SYSTEM, ADVANCED).world.heads == [ROW_1, ROW_2];
    assert [ROW_1, ROW_2][..1] == [ROW_1];
    OneHeadIsCurrent(map[]);
  }

  /** An intent that expired under the first head cannot be reserved under the second. */
  lemma OldIntentFails()
    ensures var q := Ask(6000, 7, 10).(activatedId := 2, activatedSha := 2, authorities := 2, ingress := 2);
            var s := Run(NEW_SYSTEM, ADVANCED);
            Admissible(s.world, q, 6000, true) && ReserveWhole(s, q, 6000, true, 6000, 6000) == Outcome(s, None)
  {
    Advanced();
    ReachedOk(ADVANCED);
    var q := Ask(6000, 7, 10).(activatedId := 2, activatedSha := 2, authorities := 2, ingress := 2);
    OldIntentRefused(Run(NEW_SYSTEM, ADVANCED), q, 6000, true, 6000, 6000, ID);
  }

  // ---- a late dispatch ------------------------------------------------------------------------

  const STARTED: seq<Event> := SEALED + [StartDispatch(ID, 9, 0, 0)]
  const PREPARED: seq<Event> := STARTED + [Resume(ID, 0, false)]
  const TOMBSTONE := Binding(1, 100, 9, 9, ID)

  lemma Prepared()
    ensures var s := Run(NEW_SYSTEM, PREPARED);
            && s.flights == map[ID := Dispatching(RowOf(Asked(0, 7, 9), EffectSealed, Some(5)))]
            && s.world.effects == map[ID := RowOf(Asked(0, 7, 9), EffectSealed, Some(5))]
            && Says(s.world, TOMBSTONE, LedgerPrepared)
  {
    Sealed();
    RunMore(NEW_SYSTEM, SEALED, StartDispatch(ID, 9, 0, 0));
    RunMore(NEW_SYSTEM, STARTED, Resume(ID, 0, false));
    assert Prune(map[], 0) == map[];
  }

  /** Dispatched a second too late, the effect expires and its tombstone stays while nobody calls on it again. */
  lemma LateDispatchFails(events: seq<Event>)
    ensures var t := Perform(Run(NEW_SYSTEM, PREPARED), Resume(ID, 2000, false)).system;
            && ID in t.world.effects && t.world.effects[ID].status == EffectExpired
            && (Elsewhere(t, events, ID) ==> Says(Run(t, events).world, TOMBSTONE, LedgerPrepared))
  {
    Prepared();
    ReachedOk(PREPARED);
    DispatchDecided(Run(NEW_SYSTEM, PREPARED), ID, 2000, events);
  }
}
