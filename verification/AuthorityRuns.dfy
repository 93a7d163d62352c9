/** Safety of head, effect and ledger steps over every interleaving, with waits and crashes inside every call. */
module AuthorityRuns {
  import opened Foundation
  import opened AuthorityTypes
  import opened AuthoritySteps
  import opened AuthorityInvariant
  import opened AuthorityCalls
  import opened AuthorityFlights

  // ---- every event ----------------------------------------------------------------------------

  /** The reservation that an event is a call on. */
  function Subject(s: System, e: Event): Option<ReservationId> {
    match e
    case ReserveHead(_, _) => None
    case MarkHead(_) => None
    case ConfirmHead(_, _) => None
    case StartReserve(q, now, proof) =>
      (match Request(s, q, now, proof) case None => None case Some(r) => Some(IdOf(r)))
    case ReserveAtOnce(q, now, proof, _) =>
      (match Request(s, q, now, proof) case None => None case Some(r) => Some(IdOf(r)))
    case StartDispatch(id, _, _, _) => Some(id)
    case StartConfirm(id, _, _, _, _) => Some(id)
    case Seal(id, _, _, _, _) => Some(id)
    case Cancel(id, _, _, _) => Some(id)
    case Resume(id, _, _) => Some(id)
    case Crash(id) => Some(id)
  }

  /** The one step that reaches the store after a wait for the head proof. */
  predicate LateReserve(s: System, e: Event) {
    e.Resume? && e.id in s.flights && s.flights[e.id].Reserving?
  }

  /** An event keeps the system coherent, leaves other reservations to themselves, and their calls too. */
  ghost predicate Kept(s: System, t: System, subject: Option<ReservationId>) {
    && SystemOk(t)
    && (forall x {:trigger Frame(s.world, t.world, x)} :: Some(x) != subject ==> Frame(s.world, t.world, x))
    && (forall x :: Some(x) != subject ==> (x in t.flights <==> x in s.flights))
    && (forall x :: Some(x) != subject && x in s.flights ==> t.flights[x] == s.flights[x])
  }

  lemma MovedIsKept(s: System, t: System, id: ReservationId)
    requires SystemOk(s) && Moved(s, t, id)
    ensures Kept(s, t, Some(id))
  {
    MovedKeeps(s, t, id);
    forall x | x != id
      ensures x in t.flights <==> x in s.flights
      ensures x in s.flights ==> t.flights[x] == s.flights[x]
    {
      assert x in t.flights - {id} <==> x in s.flights - {id};
    }
  }

  /** A step that only expires rows or moves heads frames every reservation. */
  lemma HeadStepKeeps(s: System, w: World)
    requires SystemOk(s) && Core(w) && Lapsed(s.world.effects, w.effects)
    requires w.ledger == s.world.ledger && w.consumed == s.world.consumed
    ensures Kept(s, s.(world := w), None)
  {
    forall x ensures Frame(s.world, w, x) {
      LapseFrames(s.world, w.effects, x);
    }
    forall x | x in s.flights ensures FlightOk(w, x, s.flights[x]) {
      assert FlightOk(s.world, x, s.flights[x]);
      FlightFollows(s.world, w, x, s.flights[x]);
    }
  }

  lemma HeadEventKeeps(s: System, e: Event)
    requires SystemOk(s) && (e.ReserveHead? || e.MarkHead? || e.ConfirmHead?)
    ensures Kept(s, Perform(s, e).system, None)
    ensures PinsOk(s.world) ==> PinsOk(Perform(s, e).system.world)
  {
    hide HeadsOk, EffectsOk, LedgerOk;
    var step := match e
      case ReserveHead(input, now) => ReserveHeadStep(s.world, input, now)
      case MarkHead(g) => MarkHeadStep(s.world, g)
      case ConfirmHead(g, worm) => ConfirmHeadStep(s.world, g, worm);
    if step.Done? {
      match e {
        case ReserveHead(input, now) => ReserveHeadKeeps(s.world, input, now);
        case MarkHead(g) => MarkHeadKeeps(s.world, g);
        case ConfirmHead(g, worm) => ConfirmHeadKeeps(s.world, g, worm);
      }
    }
    HeadStepKeeps(s, Commit(s.world, step));
  }

  lemma WriteKeeps(s: System, id: ReservationId, w: World)
    requires SystemOk(s) && id !in s.flights && id in s.world.effects && id in w.effects && Core(w)
    requires w == s.world.(effects := s.world.effects[id := w.effects[id]])
    ensures Kept(s, s.(world := w), Some(id))
  {
    forall x | x != id ensures Frame(s.world, w, x) {
      PutFrames(s.world, id, w.effects[id], x);
    }
    MovedIsKept(s, s.(world := w), id);
  }

  lemma SealEventKeeps(s: System, id: ReservationId, result: Name)
    requires SystemOk(s) && id !in s.flights && id in s.world.effects
    ensures Kept(s, s.(world := Commit(s.world, SealStep(s.world, id, result))), Some(id))
    ensures PinsOk(s.world) ==> PinsOk(Commit(s.world, SealStep(s.world, id, result)))
  {
    if SealStep(s.world, id, result).Done? {
      SealKeeps(s.world, id, result);
    }
    var w := Commit(s.world, SealStep(s.world, id, result));
    assert w.effects == s.world.effects[id := w.effects[id]];
    WriteKeeps(s, id, w);
  }

  lemma CancelEventKeeps(s: System, id: ReservationId)
    requires SystemOk(s) && id !in s.flights && id in s.world.effects
    ensures Kept(s, s.(world := Commit(s.world, CancelStep(s.world, id))), Some(id))
    ensures PinsOk(s.world) ==> PinsOk(Commit(s.world, CancelStep(s.world, id)))
  {
    if CancelStep(s.world, id).Done? {
      CancelKeeps(s.world, id);
    }
    var w := Commit(s.world, CancelStep(s.world, id));
    assert w.effects == s.world.effects[id := w.effects[id]];
    WriteKeeps(s, id, w);
  }

  /** A call that starts reads its row and goes into flight, changing no table. */
  lemma StartKeeps(s: System, id: ReservationId, f: Flight)
    requires SystemOk(s) && id !in s.flights && FlightOk(s.world, id, f)
    ensures Kept(s, Next(s, s.world, id, f).system, Some(id))
  {
    forall x ensures Frame(s.world, s.world, x) {
      SameWorldFrames(s.world, x);
    }
    MovedIsKept(s, Next(s, s.world, id, f).system, id);
  }

  lemma IdleKeeps(s: System, subject: Option<ReservationId>)
    requires SystemOk(s)
    ensures Kept(s, s, subject)
  {
    forall x ensures Frame(s.world, s.world, x) {
      SameWorldFrames(s.world, x);
    }
  }

  lemma ReadsItsRow(s: System, id: ReservationId)
    requires SystemOk(s) && id in s.world.effects
    ensures Snapshot(s.world, id, s.world.effects[id])
  {
    assert EffectOk(s.world.heads, id, s.world.effects[id]);
  }

  lemma ReserveEventKeeps(s: System, e: Event)
    requires SystemOk(s) && (e.StartReserve? || e.ReserveAtOnce?)
    ensures Kept(s, Perform(s, e).system, Subject(s, e))
    ensures PinsOk(s.world) ==> PinsOk(Perform(s, e).system.world)
  {
    hide Core, Kept, PinsOk, FlightsOk, StoreReserve;
    var r := Request(s, e.request, e.now, e.proof);
    if r.None? {
      IdleKeeps(s, None);
    } else if e.StartReserve? {
      StartKeeps(s, IdOf(r.value), Reserving(r.value));
    } else {
      StoreReserveMoves(s, r.value, e.storeNow);
      MovedIsKept(s, StoreReserve(s, r.value, e.storeNow).system, IdOf(r.value));
    }
  }

  lemma CallEventKeeps(s: System, e: Event)
    requires SystemOk(s) && (e.StartDispatch? || e.StartConfirm? || e.Seal? || e.Cancel?)
    ensures Kept(s, Perform(s, e).system, Some(e.id))
    ensures PinsOk(s.world) ==> PinsOk(Perform(s, e).system.world)
  {
    hide Core, Kept, PinsOk, FlightsOk;
    IdleKeeps(s, Some(e.id));
    if Callable(s, e.id, e.requestId, e.requestedAt, e.now) {
      ReadsItsRow(s, e.id);
      var row := s.world.effects[e.id];
      match e
      case StartDispatch(id, _, _, _) =>
        if row.status == EffectSealed {
          StartKeeps(s, id, Preparing(row));
        }
      case StartConfirm(id, _, _, result, _) =>
        if row.status in {EffectHold, EffectConfirmed} {
          StartKeeps(s, id, Committing(row, result));
        }
      case Seal(id, _, _, result, _) => SealEventKeeps(s, id, result);
      case Cancel(id, _, _, _) => CancelEventKeeps(s, id);
    }
  }

  /** Every event, whatever is in flight. */
  lemma PerformKeeps(s: System, e: Event)
    requires SystemOk(s)
    ensures Kept(s, Perform(s, e).system, Subject(s, e))
    ensures PinsOk(s.world) && !LateReserve(s, e) ==> PinsOk(Perform(s, e).system.world)
  {
    hide SystemOk, Kept, PinsOk, Advance;
    match e
    case Resume(id, now, taken) =>
      AdvanceMoves(s, id, now, taken);
      MovedIsKept(s, Advance(s, id, now, taken).system, id);
    case Crash(id) =>
      FailMoves(s, id);
      MovedIsKept(s, Fail(s, id).system, id);
    case ReserveHead(_, _) => HeadEventKeeps(s, e);
    case MarkHead(_) => HeadEventKeeps(s, e);
    case ConfirmHead(_, _) => HeadEventKeeps(s, e);
    case StartReserve(_, _, _) => ReserveEventKeeps(s, e);
    case ReserveAtOnce(_, _, _, _) => ReserveEventKeeps(s, e);
    case _ => CallEventKeeps(s, e);
  }

  lemma {:induction false} RunKeeps(s: System, events: seq<Event>)
    requires SystemOk(s)
    ensures SystemOk(Run(s, events))
    decreases |events|
  {
    if events != [] {
      PerformKeeps(s, events[0]);
      RunKeeps(Perform(s, events[0]).system, events[1..]);
    }
  }

  lemma NewSystemOk()
    ensures SystemOk(NEW_SYSTEM) && PinsOk(NEW_SYSTEM.world)
  {
  }

  lemma ReachedOk(events: seq<Event>)
    ensures SystemOk(Run(NEW_SYSTEM, events))
  {
    NewSystemOk();
    RunKeeps(NEW_SYSTEM, events);
  }

  lemma {:induction false} RunConcat(s: System, a: seq<Event>, b: seq<Event>)
    ensures Run(s, a + b) == Run(Run(s, a), b)
    decreases |a|
  {
    if a == [] {
      assert a + b == b;
    } else {
      assert (a + b)[1..] == a[1..] + b;
      RunConcat(Perform(s, a[0]).system, a[1..], b);
    }
  }

  lemma RunOne(s: System, e: Event)
    ensures Run(s, [e]) == Perform(s, e).system
  {
    assert Run(Perform(s, e).system, []) == Perform(s, e).system;
  }

  lemma RunMore(s: System, events: seq<Event>, e: Event)
    ensures Run(s, events + [e]) == Perform(Run(s, events), e).system
  {
    RunConcat(s, events, [e]);
    RunOne(Run(s, events), e);
  }

  // ---- journal against ledger -----------------------------------------------------------------

  /** A confirmed effect was consumed; a dispatched one has its own tombstone, which no pruning can take. */
  ghost predicate Bridged(w: World) {
    forall id :: id in w.effects ==>
      var b := BindingOf(w.effects[id]);
      && (w.effects[id].status == EffectConfirmed ==>
            b in w.consumed && (Exact(w.ledger, b) ==> w.ledger[b.jti].state == LedgerConsumed))
      && (w.effects[id].status == EffectHold ==>
            && Exact(w.ledger, b) && w.ledger[b.jti].journalTerminalAt.None?
            && forall now :: b.jti in Prune(w.ledger, now))
  }

  /** In every run, whatever happens at the waits of a call and wherever it crashes. */
  lemma JournalMatchesLedger(events: seq<Event>)
    ensures Bridged(Run(NEW_SYSTEM, events).world)
  {
    NewSystemOk();
    RunKeeps(NEW_SYSTEM, events);
    var w := Run(NEW_SYSTEM, events).world;
    forall id | id in w.effects
      ensures BridgeOk(w.ledger, w.consumed, w.effects[id])
    {
    }
  }

  /** The fates of a dispatched row, and what the ledger must say in each. */
  predicate Fate(w: World, u: World, id: ReservationId)
    requires id in w.effects
  {
    var b := BindingOf(w.effects[id]);
    && id in u.effects
    && match u.effects[id].status
       case EffectHold => u.effects[id] == w.effects[id]
       case EffectConfirmed => b in u.consumed && u.effects[id].result == w.effects[id].result
       case EffectReserved => Says(u, b, LedgerCancelled)
       case _ => false
  }

  lemma AdvanceFate(s: System, id: ReservationId, now: int, taken: bool)
    requires SystemOk(s) && id in s.world.effects && s.world.effects[id].status == EffectHold
    ensures Fate(s.world, Advance(s, id, now, taken).system.world, id)
    ensures Advance(s, id, now, taken).system.world.effects[id].status == EffectReserved ==>
              id in s.flights && s.flights[id].Rearming?
  {
    hide HeadsOk, EffectsOk;
    assert BridgeOk(s.world.ledger, s.world.consumed, s.world.effects[id]);
    if id in s.flights {
      assert FlightOk(s.world, id, s.flights[id]);
      if s.flights[id].Reserving? {
        HoldSurvivesReserve(s.world, s.flights[id].replacement, now);
      }
    }
  }

  /** In every run a dispatched row is re-armed only behind a binding that the ledger has cancelled. */
  lemma RearmOnlyCancelled(events: seq<Event>, e: Event, id: ReservationId)
    requires var w := Run(NEW_SYSTEM, events).world; id in w.effects && w.effects[id].status == EffectHold
    ensures var s := Run(NEW_SYSTEM, events); var t := Perform(s, e).system;
            && Fate(s.world, t.world, id)
            && (t.world.effects[id].status == EffectReserved ==>
                  && e.Resume? && e.id == id && id in s.flights && s.flights[id].Rearming?
                  && Says(s.world, BindingOf(s.world.effects[id]), LedgerCancelled))
  {
    NewSystemOk();
    RunKeeps(NEW_SYSTEM, events);
    var s := Run(NEW_SYSTEM, events);
    assert BridgeOk(s.world.ledger, s.world.consumed, s.world.effects[id]);
    if Subject(s, e) != Some(id) {
      PerformKeeps(s, e);
      assert Frame(s.world, Perform(s, e).system.world, id);
    } else {
      OwnEventFate(s, e, id);
    }
  }

  lemma OwnEventFate(s: System, e: Event, id: ReservationId)
    requires SystemOk(s) && id in s.world.effects && s.world.effects[id].status == EffectHold && Subject(s, e) == Some(id)
    ensures var t := Perform(s, e).system;
            && Fate(s.world, t.world, id)
            && (t.world.effects[id].status == EffectReserved ==>
                  && e.Resume? && id in s.flights && s.flights[id].Rearming?
                  && Says(s.world, BindingOf(s.world.effects[id]), LedgerCancelled))
  {
    hide Advance, Core, ExpireUndispatched;
    match e
    case Resume(_, now, taken) =>
      AdvanceFate(s, id, now, taken);
      if id in s.flights && s.flights[id].Rearming? {
        assert FlightOk(s.world, id, s.flights[id]);
      }
    case ReserveAtOnce(q, now, proof, storeNow) => HoldSurvivesReserve(s.world, Request(s, q, now, proof).value, storeNow);
    case StartReserve(q, now, proof) =>
    case StartDispatch(_, _, _, _) =>
    case StartConfirm(_, _, _, _, _) =>
    case Seal(_, _, _, _, _) =>
    case Cancel(_, _, _, _) =>
    case Crash(_) =>
  }

  /** A dispatched row survives the reserve transaction itself unchanged. */
  lemma HoldSurvivesReserve(w: World, r: Reservation, now: int)
    requires Core(w) && IdOf(r) in w.effects && w.effects[IdOf(r)].status == EffectHold && ValidReservation(r)
    ensures EffectReserveStep(w, r, now) == Done(w.(effects := ExpireUndispatched(w.effects, now)))
    ensures ExpireUndispatched(w.effects, now)[IdOf(r)] == w.effects[IdOf(r)]
  {
    assert EffectOk(w.heads, IdOf(r), w.effects[IdOf(r)]);
  }

  // ---- heads over runs ------------------------------------------------------------------------

  /** The number of links from a head back to GENESIS. */
  function ChainLength(h: Head): nat
    decreases h
  {
    match h.previous
    case Genesis => 1
    case Link(_, previous, _) => 1 + ChainLength(previous)
  }

  lemma {:induction false} ChainReachesGenesis(heads: seq<HeadRow>, i: nat)
    requires HeadsOk(heads) && i < |heads|
    ensures ChainLength(heads[i].head) == i + 1
  {
    assert HeadOk(heads, i);
    if i > 0 {
      assert HeadOk(heads, i - 1);
      ChainReachesGenesis(heads, i - 1);
    }
  }

  /** An append-only list in which a row only ever gains its mirror result. */
  predicate HeadsGrow(a: seq<HeadRow>, b: seq<HeadRow>) {
    && |a| <= |b|
    && forall i :: 0 <= i < |a| ==> SameButMirror(a[i], b[i]) && (a[i].mirror == MirrorConfirmed ==> b[i] == a[i])
  }

  lemma AdvanceLeavesHeads(s: System, id: ReservationId, now: int, taken: bool)
    ensures Advance(s, id, now, taken).system.world.heads == s.world.heads
  {
    hide Prune, ExpireUndispatched, ValidReservation, Unseen, Exact, IntentTaken, RequestTaken;
  }

  lemma PerformGrows(s: System, e: Event)
    requires SystemOk(s)
    ensures HeadsGrow(s.world.heads, Perform(s, e).system.world.heads)
  {
    hide Advance, Core, FlightsOk, ExpireUndispatched, ExpireForHead, Request;
    match e
    case Resume(id, now, taken) => AdvanceLeavesHeads(s, id, now, taken);
    case ReserveHead(input, now) =>
    case MarkHead(g) =>
    case ConfirmHead(g, worm) =>
    case _ =>
  }

  lemma {:induction false} RunGrows(s: System, events: seq<Event>)
    requires SystemOk(s)
    ensures HeadsGrow(s.world.heads, Run(s, events).world.heads)
    decreases |events|
  {
    if events != [] {
      PerformKeeps(s, events[0]);
      PerformGrows(s, events[0]);
      RunGrows(Perform(s, events[0]).system, events[1..]);
    }
  }

  /** The head chain as a reader of the table sees it. */
  ghost predicate Chain(heads: seq<HeadRow>) {
    && (forall i :: 0 <= i < |heads| ==>
          && heads[i].generation == heads[i].head.generation == i + 1
          && ChainLength(heads[i].head) == i + 1
          && (i + 1 < |heads| ==> heads[i].mirror == MirrorConfirmed)
          && (heads[i].mirror == MirrorConfirmed ==> heads[i].worm.Some? && Proves(heads[i], heads[i].worm.value)))
    && (forall i, j :: 0 <= i < j < |heads| ==> HeadsApart(heads[i], heads[j]))
  }

  lemma InvChain(w: World)
    requires Core(w)
    ensures Chain(w.heads)
  {
    forall i | 0 <= i < |w.heads|
      ensures w.heads[i].generation == w.heads[i].head.generation == i + 1
      ensures ChainLength(w.heads[i].head) == i + 1
      ensures i + 1 < |w.heads| ==> w.heads[i].mirror == MirrorConfirmed
      ensures w.heads[i].mirror == MirrorConfirmed ==> w.heads[i].worm.Some? && Proves(w.heads[i], w.heads[i].worm.value)
    {
      assert HeadOk(w.heads, i);
      ChainReachesGenesis(w.heads, i);
    }
  }

  /**
   * Heads are numbered 1..n inside and outside their bytes, link back to GENESIS, and never recur; each
   * confirmed one has an object with its own digest and key and enough retention.
   */
  lemma HeadChain(before: seq<Event>, after: seq<Event>)
    ensures var s := Run(NEW_SYSTEM, before); var t := Run(s, after);
            && Chain(s.world.heads) && HeadsGrow(s.world.heads, t.world.heads)
            && CurrentGeneration(s.world.heads) <= CurrentGeneration(t.world.heads)
  {
    NewSystemOk();
    RunKeeps(NEW_SYSTEM, before);
    var s := Run(NEW_SYSTEM, before);
    InvChain(s.world);
    RunGrows(s, after);
    RunKeeps(s, after);
    CurrentCounts(s.world.heads);
    CurrentCounts(Run(s, after).world.heads);
  }

  function ConfirmedHeads(heads: seq<HeadRow>): nat {
    if heads == [] then 0
    else if heads[|heads| - 1].mirror == MirrorConfirmed then |heads| else |heads| - 1
  }

  lemma CurrentCounts(heads: seq<HeadRow>)
    requires HeadsOk(heads)
    ensures CurrentGeneration(heads) == ConfirmedHeads(heads)
  {
    CurrentIsLast(heads, |heads|);
    assert heads[..|heads|] == heads;
    if heads != [] {
      assert HeadOk(heads, |heads| - 1);
      if |heads| > 1 {
        assert HeadOk(heads, |heads| - 2);
      }
    }
  }

  // ---- exclusion ------------------------------------------------------------------------------

  /** No head is being mirrored while an effect is pinned, and pinned effects name the current head. */
  ghost predicate Exclusive(w: World) {
    && (HasNonterminalEffect(w.effects) ==> !HasPending(w.heads))
    && (forall id :: id in w.effects && Pinned(w.effects[id].status) ==>
          && CurrentHead(w.heads).Some?
          && var c := CurrentHead(w.heads).value; w.effects[id].head == HeadRef(c.generation, c.recordId, c.recordSha))
    && (forall a, b :: a in w.effects && b in w.effects && w.effects[a].intent == w.effects[b].intent ==> a == b)
  }

  lemma InvExclusive(w: World)
    requires Inv(w)
    ensures Exclusive(w)
  {
    forall id | id in w.effects && Pinned(w.effects[id].status)
      ensures !HasPending(w.heads) && CurrentHead(w.heads).Some?
      ensures var c := CurrentHead(w.heads).value; w.effects[id].head == HeadRef(c.generation, c.recordId, c.recordSha)
    {
      assert EffectOk(w.heads, id, w.effects[id]) && PinOk(w.heads, w.effects[id]);
      PendingIsLast(w.heads);
      CurrentWhenSettled(w.heads);
      assert HeadOk(w.heads, |w.heads| - 1);
    }
    forall a, b | a in w.effects && b in w.effects && a != b ensures w.effects[a].intent != w.effects[b].intent {
      assert EffectsApart(w.effects[a], w.effects[b]);
    }
  }

  /** Reserves whose checks and store transaction nothing comes between. */
  predicate AtomicReserves(events: seq<Event>) {
    forall i :: 0 <= i < |events| ==> !events[i].StartReserve?
  }

  predicate NoLateReserve(s: System) {
    forall id :: id in s.flights ==> !s.flights[id].Reserving?
  }

  lemma AtomicStaysAtomic(s: System, e: Event)
    requires NoLateReserve(s) && !e.StartReserve?
    ensures NoLateReserve(Perform(s, e).system)
  {
    match e
    case Resume(id, now, taken) =>
    case ReserveAtOnce(q, now, proof, storeNow) =>
    case StartDispatch(_, _, _, _) =>
    case StartConfirm(_, _, _, _, _) =>
    case _ =>
  }

  lemma {:induction false} AtomicRunKeeps(s: System, events: seq<Event>)
    requires SystemOk(s) && PinsOk(s.world) && NoLateReserve(s) && AtomicReserves(events)
    ensures SystemOk(Run(s, events)) && PinsOk(Run(s, events).world)
    decreases |events|
  {
    if events != [] {
      PerformKeeps(s, events[0]);
      AtomicStaysAtomic(s, events[0]);
      AtomicRunKeeps(Perform(s, events[0]).system, events[1..]);
    }
  }

  /** When reserves are atomic, heads and effects exclude each other, whatever else waits or crashes. */
  lemma HeadAndEffectsExclude(events: seq<Event>)
    requires AtomicReserves(events)
    ensures Exclusive(Run(NEW_SYSTEM, events).world)
  {
    NewSystemOk();
    AtomicRunKeeps(NEW_SYSTEM, events);
    InvExclusive(Run(NEW_SYSTEM, events).world);
  }
}
