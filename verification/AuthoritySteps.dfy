/** The atomic steps of the two stores and of the ledger. */
module AuthoritySteps {
  import opened Foundation
  import opened Clock
  import opened AuthorityTypes

  datatype Step = Refused | Done(world: World)

  /** A refused transaction is rolled back. */
  function Commit(w: World, s: Step): World {
    if s.Done? then s.world else w
  }

  // ---- head store -----------------------------------------------------------------------------

  /** The confirmed row of the highest generation. */
  function CurrentHead(heads: seq<HeadRow>): Option<HeadRow> {
    if heads == [] then None
    else
      var rest := CurrentHead(heads[..|heads| - 1]);
      var last := heads[|heads| - 1];
      if last.mirror == MirrorConfirmed && (rest.None? || rest.value.generation < last.generation)
      then Some(last) else rest
  }

  predicate HasPending(heads: seq<HeadRow>) {
    exists i :: 0 <= i < |heads| && heads[i].mirror != MirrorConfirmed
  }

  predicate HasNonterminalEffect(effects: map<ReservationId, EffectRow>) {
    exists id :: id in effects && Pinned(effects[id].status)
  }

  function CurrentGeneration(heads: seq<HeadRow>): int {
    match CurrentHead(heads)
    case None => 0
    case Some(row) => row.generation
  }

  function FindRequest(heads: seq<HeadRow>, request: Name): (r: Option<nat>)
    ensures r.Some? ==> r.value < |heads| && heads[r.value].request == request
    ensures r.None? ==> forall i :: 0 <= i < |heads| ==> heads[i].request != request
  {
    if heads == [] then None
    else if heads[0].request == request then Some(0)
    else match FindRequest(heads[1..], request)
         case None => None
         case Some(i) => Some(i + 1)
  }

  function FindGeneration(heads: seq<HeadRow>, g: int): (r: Option<nat>)
    ensures r.Some? ==> r.value < |heads| && heads[r.value].generation == g
    ensures r.None? ==> forall i :: 0 <= i < |heads| ==> heads[i].generation != g
  {
    if heads == [] then None
    else if heads[0].generation == g then Some(0)
    else match FindGeneration(heads[1..], g)
         case None => None
         case Some(i) => Some(i + 1)
  }

  predicate BoundInput(input: HeadInput) {
    && ParsesHead(input.head)
    && input.recordId == input.recordSha == input.head
    && input.head.activatedId == input.activatedId && input.head.activatedSha == input.activatedSha
    && input.head.authorities == input.authorities && input.head.ingress == input.ingress
    && input.head.committedAt == input.committedAt
  }

  function NewHead(input: HeadInput): HeadRow {
    HeadRow(input.generation, input.request, input.recordId, input.recordSha, input.head, input.activatedId,
            input.activatedSha, input.authorities, input.ingress, input.committedAt, MirrorPrepared, None)
  }

  predicate SameReserved(row: HeadRow, input: HeadInput) {
    row.(mirror := MirrorPrepared, worm := None) == NewHead(input)
  }

  /** The link rule; the row's generation is compared with the current one, never with the bytes. */
  predicate LinksTo(previous: Previous, current: Option<HeadRow>) {
    match current
    case None => previous.Genesis?
    case Some(row) => previous == Link(row.generation, row.recordId, row.recordSha)
  }

  predicate Recurs(heads: seq<HeadRow>, input: HeadInput) {
    exists i :: 0 <= i < |heads| &&
      (heads[i].activatedId == input.activatedId || heads[i].activatedSha == input.activatedSha
       || heads[i].ingress == input.ingress)
  }

  function Lapse(row: EffectRow): EffectRow {
    row.(status := EffectExpired, result := None)
  }

  /** Before a head is appended both undispatched states expire. */
  function ExpireForHead(effects: map<ReservationId, EffectRow>, now: int): map<ReservationId, EffectRow> {
    map id | id in effects ::
      if effects[id].status in {EffectReserved, EffectSealed} && After(now, effects[id].expiresAt)
      then Lapse(effects[id]) else effects[id]
  }

  function ReserveHeadStep(w: World, input: HeadInput, now: int): Step {
    if !BoundInput(input) then Refused
    else match FindRequest(w.heads, input.request)
      case Some(i) => if SameReserved(w.heads[i], input) then Done(w) else Refused
      case None =>
        var effects := ExpireForHead(w.effects, now);
        if HasPending(w.heads) || HasNonterminalEffect(effects) then Refused
        else if Recurs(w.heads, input) then Refused
        else if input.generation != CurrentGeneration(w.heads) + 1 then Refused
        else if !LinksTo(input.head.previous, CurrentHead(w.heads)) then Refused
        else Done(w.(heads := w.heads + [NewHead(input)], effects := effects))
  }

  function MarkHeadStep(w: World, g: int): Step {
    match FindGeneration(w.heads, g)
    case None => Refused
    case Some(i) =>
      if w.heads[i].mirror == MirrorPrepared
      then Done(w.(heads := w.heads[i := w.heads[i].(mirror := MirrorDispatched)]))
      else Done(w)
  }

  function ConfirmHeadStep(w: World, g: int, worm: HeadWorm): Step {
    match FindGeneration(w.heads, g)
    case None => Refused
    case Some(i) =>
      var row := w.heads[i];
      if !ParsesHead(row.head) || worm.key != HeadKey(row.head.generation, row.head)
         || !IsStamp(worm.retentionUntil) || worm.retentionUntil < row.committedAt + RETENTION_MS then Refused
      else if row.mirror == MirrorConfirmed then
        if row.recordSha == worm.digest && row.worm == Some(worm) then Done(w) else Refused
      else if row.mirror != MirrorDispatched || row.recordSha != worm.digest then Refused
      else Done(w.(heads := w.heads[i := row.(mirror := MirrorConfirmed, worm := Some(worm))]))
  }

  // ---- effect store ---------------------------------------------------------------------------

  /** Reserving expires only rows that were never sealed. */
  function ExpireUndispatched(effects: map<ReservationId, EffectRow>, now: int): map<ReservationId, EffectRow> {
    map id | id in effects ::
      if effects[id].status == EffectReserved && After(now, effects[id].expiresAt)
      then Lapse(effects[id]) else effects[id]
  }

  function Rearmed(row: EffectRow, r: Reservation): EffectRow {
    EffectRow(r, row.head, row.intent, r.requestId, r.createdAt, r.expiresAt, EffectReserved, None)
  }

  predicate RequestTaken(effects: map<ReservationId, EffectRow>, request: Name, id: ReservationId) {
    exists x :: x in effects && x != id && effects[x].requestId == request
  }

  predicate IntentTaken(effects: map<ReservationId, EffectRow>, intent: Name) {
    exists x :: x in effects && effects[x].intent == intent
  }

  /** `UPDATE` of a row in place; the unique request id is the one constraint it can break. */
  function ReplaceStep(w: World, id: ReservationId, r: Reservation): Step
    requires id in w.effects
  {
    if w.effects[id].head != r.head || RequestTaken(w.effects, r.requestId, id) then Refused
    else Done(w.(effects := w.effects[id := Rearmed(w.effects[id], r)]))
  }

  function EffectReserveStep(w: World, r: Reservation, now: int): (s: Step)
    ensures s.Done? ==> IdOf(r) in s.world.effects
  {
    var w1 := w.(effects := ExpireUndispatched(w.effects, now));
    var id := IdOf(r);
    if !ValidReservation(r) then Refused
    else if id in w1.effects then
      if w1.effects[id].head != r.head || w1.effects[id].intent != r.intent then Refused
      else if w1.effects[id].status in {EffectReserved, EffectExpired, EffectCancelled} then ReplaceStep(w1, id, r)
      else Done(w1)
    else if HasPending(w.heads) then Refused
    else match CurrentHead(w.heads)
      case None => Refused
      case Some(row) =>
        if r.head != HeadRef(row.generation, row.recordId, row.recordSha) then Refused
        else if IntentTaken(w1.effects, r.intent) || RequestTaken(w1.effects, r.requestId, id) then Refused
        else Done(w1.(effects := w1.effects[id := EffectRow(r, r.head, r.intent, r.requestId, r.createdAt,
                                                            r.expiresAt, EffectReserved, None)]))
  }

  function SealStep(w: World, id: ReservationId, result: Name): Step {
    if id !in w.effects then Refused
    else if HasResult(w.effects[id].status) then
      if w.effects[id].result == Some(result) then Done(w) else Refused
    else if w.effects[id].status != EffectReserved then Refused
    else Done(w.(effects := w.effects[id := w.effects[id].(status := EffectSealed, result := Some(result))]))
  }

  /** Commits even when it then reports failure: an expired row is turned, and stays, EXPIRED. */
  function DispatchStep(w: World, id: ReservationId, now: int): Step {
    if id !in w.effects then Refused
    else
      var row := w.effects[id];
      if row.status == EffectHold || row.status == EffectConfirmed then Done(w)
      else if row.status != EffectSealed || row.expiresAt < now then
        if row.status in {EffectReserved, EffectSealed} then Done(w.(effects := w.effects[id := Lapse(row)]))
        else Done(w)
      else Done(w.(effects := w.effects[id := row.(status := EffectHold)]))
  }

  function ConfirmStep(w: World, id: ReservationId, result: Name): Step {
    if id !in w.effects then Refused
    else
      var row := w.effects[id];
      if row.status == EffectConfirmed then
        if row.result == Some(result) then Done(w) else Refused
      else if row.status != EffectHold || row.result != Some(result) then Refused
      else Done(w.(effects := w.effects[id := row.(status := EffectConfirmed)]))
  }

  function CancelStep(w: World, id: ReservationId): Step {
    if id !in w.effects then Refused
    else
      var row := w.effects[id];
      if row.status == EffectCancelled then Done(w)
      else if row.status != EffectReserved && row.status != EffectSealed then Refused
      else Done(w.(effects := w.effects[id := row.(status := EffectCancelled, result := None)]))
  }

  /** Only a dispatched row can be re-armed, whatever the ledger said about it. */
  function RearmStep(w: World, id: ReservationId, r: Reservation): Step {
    if !ValidReservation(r) || id !in w.effects then Refused
    else if w.effects[id].status != EffectHold || IdOf(r) != id || r.intent != w.effects[id].intent then Refused
    else ReplaceStep(w, id, r)
  }

  // ---- replay ledger --------------------------------------------------------------------------

  predicate SameKey(row: LedgerRow, b: Binding) {
    row.binding.jti == b.jti || row.binding.requestId == b.requestId
  }

  predicate Unseen(ledger: map<Name, LedgerRow>, b: Binding) {
    forall j :: j in ledger ==> !SameKey(ledger[j], b)
  }

  /** The only row that shares the token or the request is exactly this binding. */
  predicate Exact(ledger: map<Name, LedgerRow>, b: Binding) {
    && b.jti in ledger && ledger[b.jti].binding == b
    && forall j :: j in ledger && SameKey(ledger[j], b) ==> j == b.jti
  }

  function Prune(ledger: map<Name, LedgerRow>, now: int): map<Name, LedgerRow> {
    map j | j in ledger && !Prunable(ledger[j], now) :: ledger[j]
  }

  predicate Prunable(row: LedgerRow, now: int) {
    && row.journalTerminalAt.Some?
    && row.journalTerminalAt.value < now - TOMBSTONE_GRACE_MS
    && row.binding.expiresAt < (now - TOMBSTONE_GRACE_MS) / 1000
  }

  /** `taken` says that an ordinary, effect-free use already holds this token or request. */
  function PrepareStep(w: World, b: Binding, now: int, taken: bool): Step {
    var ledger := Prune(w.ledger, now);
    if b.expiresAt * 1000 <= now || taken then Refused
    else if !Unseen(ledger, b) then
      if Exact(ledger, b) && ledger[b.jti].state == LedgerPrepared then Done(w.(ledger := ledger)) else Refused
    else if |ledger| >= LEDGER_MAX_ROWS then Refused
    else Done(w.(ledger := ledger[b.jti := LedgerRow(b, LedgerPrepared, None)]))
  }

  function Observe(w: World, b: Binding): Option<Observation> {
    if Unseen(w.ledger, b) then Some(Absent)
    else if Exact(w.ledger, b) then Some(Found(w.ledger[b.jti].state))
    else None
  }

  function SettleStep(w: World, b: Binding, to: LedgerState): Step
    requires to != LedgerPrepared
  {
    if !Exact(w.ledger, b) then Refused
    else if w.ledger[b.jti].state == to then Done(w)
    else if w.ledger[b.jti].state != LedgerPrepared then Refused
    else Done(w.(ledger := w.ledger[b.jti := w.ledger[b.jti].(state := to)],
                 consumed := if to == LedgerConsumed then w.consumed + {b} else w.consumed))
  }

  function MarkStep(w: World, b: Binding, now: int): Step {
    if !Exact(w.ledger, b) || w.ledger[b.jti].state == LedgerPrepared then Refused
    else if w.ledger[b.jti].journalTerminalAt.Some? then Done(w)
    else Done(w.(ledger := w.ledger[b.jti := w.ledger[b.jti].(journalTerminalAt := Some(now))]))
  }
}
