/**
 * The coordinator's calls, cut at every wait.
 *
 * Each reservation has at most one call in flight, which remembers where it stands and the row it read.
 * Between two steps of a call anything may happen that is not a call on the same reservation: head steps,
 * steps of other calls, a crash. Every step reads its own clock.
 */
module AuthorityCalls {
  import opened Foundation
  import opened AuthorityTypes
  import opened AuthoritySteps

  /** What a call will do next. */
  datatype Flight =
    | Reserving(replacement: Reservation)
    | Reconciling(row: EffectRow, replacement: Reservation)
    | Cancelling(row: EffectRow, replacement: Reservation)
    | Rearming(row: EffectRow, replacement: Reservation, mark: bool)
    | Healing(row: EffectRow)
    | Preparing(row: EffectRow)
    | Dispatching(row: EffectRow)
    | Committing(row: EffectRow, result: Name)
    | Confirming(row: EffectRow, result: Name)
    | Marking(binding: Binding, row: EffectRow)

  datatype System = System(world: World, flights: map<ReservationId, Flight>)

  const NEW_SYSTEM := System(NEW_WORLD, map[])

  /** The system after a step, and the row that a call answers with when this was its last step. */
  datatype Outcome = Outcome(system: System, answer: Option<EffectRow>)

  function Stay(s: System): Outcome {
    Outcome(s, None)
  }

  /** The call ends without an answer: an error, or a crash. */
  function Fail(s: System, id: ReservationId): Outcome {
    Outcome(s.(flights := s.flights - {id}), None)
  }

  function Next(s: System, w: World, id: ReservationId, f: Flight): Outcome {
    Outcome(System(w, s.flights[id := f]), None)
  }

  function Answer(s: System, w: World, id: ReservationId, row: EffectRow): Outcome {
    Outcome(System(w, s.flights - {id}), Some(row))
  }

  // ---- requests -------------------------------------------------------------------------------

  datatype ReserveRequest = ReserveRequest(
    requestedAt: int, expiresAt: int, intent: Name, replay: Replay, requestId: Name,
    activatedId: Name, activatedSha: Name, authorities: Name, ingress: Name)

  predicate FreshRequest(requestedAt: int, now: int) {
    now - 60_000 <= requestedAt <= now + 30_000
  }

  function ReservationFor(q: ReserveRequest, row: HeadRow): Reservation {
    Reservation(q.requestedAt, q.expiresAt, HeadRef(row.generation, row.recordId, row.recordSha), q.intent,
                q.replay, q.requestId)
  }

  /** The checks a reserve call makes before it writes; `proof` is the verdict on the head proof. */
  predicate Admissible(w: World, q: ReserveRequest, now: int, proof: bool) {
    && FreshRequest(q.requestedAt, now)
    && now <= q.expiresAt
    && !HasPending(w.heads)
    && CurrentHead(w.heads).Some?
    && var head := CurrentHead(w.heads).value;
       && proof
       && head.head.activatedId == q.activatedId && head.head.activatedSha == q.activatedSha
       && head.head.authorities == q.authorities && head.head.ingress == q.ingress
       && ValidReservation(ReservationFor(q, head))
  }

  predicate KnownTo(w: World, id: ReservationId, requestId: Name, requestedAt: int, now: int) {
    FreshRequest(requestedAt, now) && id in w.effects && w.effects[id].requestId == requestId
  }

  // ---- the steps of a call --------------------------------------------------------------------

  /** The store's own reserve transaction; the row it returns decides how the call goes on. */
  function StoreReserve(s: System, r: Reservation, now: int): Outcome {
    match EffectReserveStep(s.world, r, now)
    case Refused => Fail(s, IdOf(r))
    case Done(w) =>
      var row := w.effects[IdOf(r)];
      match row.status
      case EffectSealed => Next(s, w, IdOf(r), Reconciling(row, r))
      case EffectHold => Next(s, w, IdOf(r), Reconciling(row, r))
      case EffectConfirmed => Next(s, w, IdOf(r), Marking(BindingOf(row), row))
      case EffectReserved => Answer(s, w, IdOf(r), row)
      case _ => Fail(s.(world := w), IdOf(r))
  }

  /** The ledger has answered what it knows of the binding. */
  function AfterObserve(s: System, id: ReservationId, row: EffectRow, r: Reservation): Outcome {
    match Observe(s.world, BindingOf(row))
    case None => Fail(s, id)
    case Some(Absent) =>
      if row.status == EffectSealed then Next(s, s.world, id, Rearming(row, r, false)) else Fail(s, id)
    case Some(Found(LedgerConsumed)) =>
      if row.status == EffectHold && row.result.Some? then Next(s, s.world, id, Healing(row)) else Fail(s, id)
    case Some(Found(LedgerPrepared)) => Next(s, s.world, id, Cancelling(row, r))
    case Some(Found(LedgerCancelled)) => Next(s, s.world, id, Rearming(row, r, true))
  }

  function AfterRearm(s: System, id: ReservationId, row: EffectRow, r: Reservation, mark: bool): Outcome {
    match RearmStep(s.world, id, r)
    case Refused => Fail(s, id)
    case Done(w) =>
      if id !in w.effects then Fail(s.(world := w), id)
      else if mark then Next(s, w, id, Marking(BindingOf(row), w.effects[id]))
      else Answer(s, w, id, w.effects[id])
  }

  function AfterConfirm(s: System, id: ReservationId, row: EffectRow, result: Name): Outcome {
    match ConfirmStep(s.world, id, result)
    case Refused => Fail(s, id)
    case Done(w) =>
      if id !in w.effects then Fail(s.(world := w), id)
      else Next(s, w, id, Marking(BindingOf(row), w.effects[id]))
  }

  /** The expiry of a late dispatch stays although the call fails. */
  function AfterDispatch(s: System, id: ReservationId, now: int): Outcome {
    match DispatchStep(s.world, id, now)
    case Refused => Fail(s, id)
    case Done(w) =>
      if id in w.effects && w.effects[id].status in {EffectHold, EffectConfirmed}
      then Answer(s, w, id, w.effects[id]) else Fail(s.(world := w), id)
  }

  function Proceed(s: System, id: ReservationId, step: Step, f: Flight): Outcome {
    match step
    case Refused => Fail(s, id)
    case Done(w) => Next(s, w, id, f)
  }

  /** One step of the call in flight; `taken` says that an ordinary use already holds the token or the request. */
  function Advance(s: System, id: ReservationId, now: int, taken: bool): Outcome {
    if id !in s.flights then Stay(s)
    else match s.flights[id]
      case Reserving(r) => if IdOf(r) == id then StoreReserve(s, r, now) else Fail(s, id)
      case Reconciling(row, r) => AfterObserve(s, id, row, r)
      case Cancelling(row, r) =>
        Proceed(s, id, SettleStep(s.world, BindingOf(row), LedgerCancelled), Rearming(row, r, true))
      case Rearming(row, r, mark) => AfterRearm(s, id, row, r, mark)
      case Healing(row) => if row.result.Some? then AfterConfirm(s, id, row, row.result.value) else Fail(s, id)
      case Preparing(row) => Proceed(s, id, PrepareStep(s.world, BindingOf(row), now, taken), Dispatching(row))
      case Dispatching(row) => AfterDispatch(s, id, now)
      case Committing(row, result) =>
        Proceed(s, id, SettleStep(s.world, BindingOf(row), LedgerConsumed), Confirming(row, result))
      case Confirming(row, result) => AfterConfirm(s, id, row, result)
      case Marking(b, row) =>
        (match MarkStep(s.world, b, now)
         case Refused => Fail(s, id)
         case Done(w) => Answer(s, w, id, row))
  }

  // ---- events ---------------------------------------------------------------------------------

  /**
   * `StartReserve` waits for the head proof before it reaches the store; `ReserveAtOnce` does not, as when
   * no head step can come between.
   */
  datatype Event =
    | ReserveHead(input: HeadInput, now: int)
    | MarkHead(generation: int)
    | ConfirmHead(generation: int, worm: HeadWorm)
    | StartReserve(request: ReserveRequest, now: int, proof: bool)
    | ReserveAtOnce(request: ReserveRequest, now: int, proof: bool, storeNow: int)
    | StartDispatch(id: ReservationId, requestId: Name, requestedAt: int, now: int)
    | StartConfirm(id: ReservationId, requestId: Name, requestedAt: int, result: Name, now: int)
    | Seal(id: ReservationId, requestId: Name, requestedAt: int, result: Name, now: int)
    | Cancel(id: ReservationId, requestId: Name, requestedAt: int, now: int)
    | Resume(id: ReservationId, now: int, taken: bool)
    | Crash(id: ReservationId)

  function Request(s: System, q: ReserveRequest, now: int, proof: bool): Option<Reservation> {
    if !Admissible(s.world, q, now, proof) then None
    else
      var r := ReservationFor(q, CurrentHead(s.world.heads).value);
      if IdOf(r) in s.flights then None else Some(r)
  }

  predicate Callable(s: System, id: ReservationId, requestId: Name, requestedAt: int, now: int) {
    id !in s.flights && KnownTo(s.world, id, requestId, requestedAt, now)
  }

  function Dispatch(s: System, id: ReservationId, row: EffectRow): Outcome {
    if row.status == EffectHold || row.status == EffectConfirmed then Outcome(s, Some(row))
    else if row.status == EffectSealed then Next(s, s.world, id, Preparing(row))
    else Stay(s)
  }

  function Perform(s: System, e: Event): Outcome {
    match e
    case ReserveHead(input, now) => Stay(s.(world := Commit(s.world, ReserveHeadStep(s.world, input, now))))
    case MarkHead(g) => Stay(s.(world := Commit(s.world, MarkHeadStep(s.world, g))))
    case ConfirmHead(g, worm) => Stay(s.(world := Commit(s.world, ConfirmHeadStep(s.world, g, worm))))
    case StartReserve(q, now, proof) =>
      (match Request(s, q, now, proof)
       case None => Stay(s)
       case Some(r) => Next(s, s.world, IdOf(r), Reserving(r)))
    case ReserveAtOnce(q, now, proof, storeNow) =>
      (match Request(s, q, now, proof)
       case None => Stay(s)
       case Some(r) => StoreReserve(s, r, storeNow))
    case StartDispatch(id, request, at, now) =>
      if Callable(s, id, request, at, now) then Dispatch(s, id, s.world.effects[id]) else Stay(s)
    case StartConfirm(id, request, at, result, now) =>
      if Callable(s, id, request, at, now) && s.world.effects[id].status in {EffectHold, EffectConfirmed}
      then Next(s, s.world, id, Committing(s.world.effects[id], result)) else Stay(s)
    case Seal(id, request, at, result, now) =>
      if Callable(s, id, request, at, now)
      then Stay(s.(world := Commit(s.world, SealStep(s.world, id, result)))) else Stay(s)
    case Cancel(id, request, at, now) =>
      if Callable(s, id, request, at, now) then Stay(s.(world := Commit(s.world, CancelStep(s.world, id)))) else Stay(s)
    case Resume(id, now, taken) => Advance(s, id, now, taken)
    case Crash(id) => Fail(s, id)
  }

  /** Any interleaving of calls on different reservations, head steps and crashes. */
  function Run(s: System, events: seq<Event>): System
    decreases |events|
  {
    if events == [] then s else Run(Perform(s, events[0]).system, events[1..])
  }

  // ---- undisturbed calls ----------------------------------------------------------------------

  /** How many steps a call can still take. */
  function Rank(f: Flight): nat {
    match f
    case Reserving(_) => 5
    case Reconciling(_, _) => 4
    case Cancelling(_, _) => 3
    case Rearming(_, _, _) => 2
    case Healing(_) => 2
    case Preparing(_) => 2
    case Dispatching(_) => 1
    case Committing(_, _) => 3
    case Confirming(_, _) => 2
    case Marking(_, _) => 1
  }

  function Steps(s: System, id: ReservationId): nat {
    if id in s.flights then Rank(s.flights[id]) else 0
  }

  lemma AdvanceDescends(s: System, id: ReservationId, now: int, taken: bool)
    requires id in s.flights
    ensures Steps(Advance(s, id, now, taken).system, id) < Rank(s.flights[id])
  {
  }

  /** A call in flight runs to its end with nothing between its steps. */
  function Complete(o: Outcome, id: ReservationId, now: int, taken: bool): Outcome
    decreases Steps(o.system, id)
  {
    if id !in o.system.flights then o
    else
      AdvanceDescends(o.system, id, now, taken);
      Complete(Advance(o.system, id, now, taken), id, now, taken)
  }
}
