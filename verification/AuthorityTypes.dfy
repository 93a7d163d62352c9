/**
 * The account-global head journal, the effect reservations beside it, and the replay ledger it talks to.
 *
 * Record identifiers and digests are computed over the whole head, so the head itself stands for them.
 */
module AuthorityTypes {
  import opened Foundation
  import opened Clock

  const GENERATION_MAX := 9_007_199_254_740_991
  const EFFECT_WINDOW_MS := 60_000
  const LEDGER_MAX_ROWS := 10_000
  const TOMBSTONE_GRACE_MS := 7 * DAY_MS

  // ---- heads ----------------------------------------------------------------------------------

  /** `Link` names the previous head by generation, record id and record digest. */
  datatype Previous = Genesis | Link(generation: int, recordId: Head, recordSha: Head)

  datatype Head = Head(activatedId: Name, activatedSha: Name, authorities: Name, committedAt: int,
                       generation: int, ingress: Name, previous: Previous)

  /** What the head parser accepts: the generation agrees with the previous link inside the bytes. */
  predicate ParsesHead(h: Head) {
    && IsStamp(h.committedAt)
    && 1 <= h.generation <= GENERATION_MAX
    && if h.generation == 1 then h.previous.Genesis?
       else h.previous.Link? && h.previous.generation == h.generation - 1
  }

  /** The object key of a head carries its generation and its digest. */
  datatype HeadKey = HeadKey(generation: int, digest: Head)

  datatype HeadWorm = HeadWorm(digest: Head, key: HeadKey, version: Name, retentionUntil: int)

  datatype Mirror = MirrorPrepared | MirrorDispatched | MirrorConfirmed

  /** A row; `head` is the stored bytes, `recordId` and `recordSha` its two digest columns. */
  datatype HeadRow = HeadRow(
    generation: int, request: Name, recordId: Head, recordSha: Head, head: Head,
    activatedId: Name, activatedSha: Name, authorities: Name, ingress: Name, committedAt: int,
    mirror: Mirror, worm: Option<HeadWorm>)

  datatype HeadInput = HeadInput(
    generation: int, request: Name, recordId: Head, recordSha: Head, head: Head,
    activatedId: Name, activatedSha: Name, authorities: Name, ingress: Name, committedAt: int)

  // ---- effects --------------------------------------------------------------------------------

  datatype HeadRef = HeadRef(generation: int, recordId: Head, recordSha: Head)

  datatype Replay = Replay(claims: Name, expiresAt: int, jti: Name)

  datatype Reservation = Reservation(createdAt: int, expiresAt: int, head: HeadRef, intent: Name,
                                     replay: Replay, requestId: Name)

  /** The reservation identifier digests the head and the intent, and nothing that a retry may change. */
  datatype ReservationId = ReservationId(head: HeadRef, intent: Name)

  function IdOf(r: Reservation): ReservationId {
    ReservationId(r.head, r.intent)
  }

  predicate ValidReservation(r: Reservation) {
    && IsStamp(r.createdAt) && IsStamp(r.expiresAt)
    && r.createdAt < r.expiresAt <= r.createdAt + EFFECT_WINDOW_MS
    && 1 <= r.head.generation
    && 1 <= r.replay.expiresAt
  }

  datatype EffectStatus =
    | EffectReserved | EffectSealed | EffectHold | EffectConfirmed | EffectExpired | EffectCancelled

  predicate Pinned(s: EffectStatus) {
    s == EffectReserved || s == EffectSealed || s == EffectHold
  }

  predicate HasResult(s: EffectStatus) {
    s == EffectSealed || s == EffectHold || s == EffectConfirmed
  }

  datatype EffectRow = EffectRow(
    reservation: Reservation, head: HeadRef, intent: Name, requestId: Name, createdAt: int, expiresAt: int,
    status: EffectStatus, result: Option<Name>)

  // ---- replay ledger --------------------------------------------------------------------------

  datatype Binding = Binding(claims: Name, expiresAt: int, jti: Name, requestId: Name, reservation: ReservationId)

  datatype LedgerState = LedgerPrepared | LedgerConsumed | LedgerCancelled

  datatype LedgerRow = LedgerRow(binding: Binding, state: LedgerState, journalTerminalAt: Option<int>)

  /** What an observation of a binding can say. */
  datatype Observation = Absent | Found(state: LedgerState)

  /**
   * `consumed` is no table: it records every binding the ledger has ever consumed, which the ledger
   * itself forgets when it prunes an old tombstone.
   */
  datatype World = World(heads: seq<HeadRow>, effects: map<ReservationId, EffectRow>,
                         ledger: map<Name, LedgerRow>, consumed: set<Binding>)

  const NEW_WORLD := World([], map[], map[], {})

  function BindingOf(row: EffectRow): Binding {
    Binding(row.reservation.replay.claims, row.reservation.replay.expiresAt, row.reservation.replay.jti,
            row.requestId, IdOf(row.reservation))
  }
}
