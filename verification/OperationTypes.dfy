/**
 * One semantic attempt of the operation journal: its intent, its numbered issuances with their fixed
 * slot rosters, and the one record they may produce. Digests stand for the values they digest.
 */
module OperationTypes {
  import opened Foundation
  import opened Clock

  const FRESHNESS_MS := 60_000
  const MAX_ORDINAL := 1_000_000
  const ANCHORS := 15

  datatype SlotKind = ReadOnly | DirectWorm | CloudflareBatch

  /** Two further slot states of the schema, DISPATCHED_HOLD and HOLD, are never written. */
  datatype SlotState = SlotPrepared | ReadInFlight | SlotFrozen | Delegated | SlotConfirmed

  datatype EvidenceKind = OidcSubject | BranchRuleset

  datatype DirectPins = DirectPins(executor: Name, observer: Name)

  datatype BatchPins = BatchPins(cloudflareObserver: Name, worm: Name, b2Observer: Name)

  function PinsFrom(p: BatchPins): DirectPins {
    DirectPins(p.worm, p.b2Observer)
  }

  /** An exact-object effect: the key of the object is its evidence kind and payload. */
  datatype DirectEffect = DirectEffect(evidence: EvidenceKind, payload: Name, committedAt: int, pins: DirectPins)

  /** The outer batch request; its digest is the batch identity. */
  datatype BatchRequest = BatchRequest(ordinal: nat, issuedAt: int, freshUntil: int, requestedAt: int,
                                       committedAt: int, pins: BatchPins, body: Name)

  datatype Anchor = Anchor(role: Option<nat>, recordId: Name, version: Name, retentionUntil: int)

  datatype SlotResult =
    | DirectResult(effect: DirectEffect, version: Name, retentionUntil: int, evidence: Name)
    | BatchResult(batch: BatchRequest, sealedAt: int, anchors: seq<Anchor>)

  datatype Slot = Slot(
    kind: SlotKind, state: SlotState, request: Option<Name>, payload: Option<Name>, observedAt: Option<int>,
    committedAt: Option<int>, effect: Option<DirectEffect>, batch: Option<BatchRequest>, result: Option<SlotResult>)

  /** FROZEN, HOLD and SUPERSEDED_STALE, the other issuance states of the schema, are never written. */
  datatype IssuanceState =
    | RESERVED | COLLECTING | EFFECTS_PENDING | READY_TO_APPEND | RECORD_APPENDED | CONFIRMED
    | EXPIRED_UNDISPATCHED | DISPATCHED_HOLD

  /** What the record bytes are built from. */
  datatype Core = Core(ordinal: nat, slots: seq<Slot>, recordAt: int)

  datatype RecordWorm = RecordWorm(version: Name, retentionUntil: int)

  datatype RecordResult = RecordResult(core: Core, worm: RecordWorm, evidence: Name)

  datatype Record = Record(core: Core, worm: Option<RecordWorm>)

  datatype Issuance = Issuance(issuedAt: int, freshUntil: int, state: IssuanceState, recordAt: Option<int>,
                               recordResult: Option<RecordResult>, slots: seq<Slot>)

  datatype IntentState = IntentOpen | IntentConfirmed

  /** Issuance `i` has ordinal `i + 1`; only the last one is current. */
  datatype Attempt = Attempt(sequence: nat, intent: Option<IntentState>, issuances: seq<Issuance>,
                             record: Option<Record>)

  function NewAttempt(sequence: nat): Attempt {
    Attempt(sequence, None, [], None)
  }

  function EmptySlot(kind: SlotKind): Slot {
    Slot(kind, SlotPrepared, None, None, None, None, None, None, None)
  }

  /** A0 has five slots, A1 one. */
  function Roster(sequence: nat): seq<SlotKind> {
    if sequence == 0 then [ReadOnly, DirectWorm, DirectWorm, DirectWorm, CloudflareBatch] else [CloudflareBatch]
  }

  function EmptyRoster(sequence: nat): (slots: seq<Slot>)
    ensures |slots| == |Roster(sequence)|
  {
    seq(|Roster(sequence)|, k requires 0 <= k < |Roster(sequence)| => EmptySlot(Roster(sequence)[k]))
  }

  /** CONTROLLER_OIDC and TARGET_OIDC share an evidence kind, TARGET_RULESET has its own. */
  function EvidenceAt(k: nat): EvidenceKind {
    if k == 3 then BranchRuleset else OidcSubject
  }

  function BatchSlot(sequence: nat): nat {
    if sequence == 0 then 4 else 0
  }

  predicate IsDispatched(s: Slot) {
    s.state == Delegated || s.state == SlotConfirmed
  }

  predicate HasDispatch(slots: seq<Slot>) {
    exists k :: 0 <= k < |slots| && IsDispatched(slots[k])
  }

  // ---- parsers --------------------------------------------------------------------------------

  predicate ParsesBatch(r: BatchRequest, ordinal: nat, i: Issuance) {
    && r.ordinal == ordinal && r.issuedAt == i.issuedAt && r.freshUntil == i.freshUntil
    && i.issuedAt <= r.requestedAt <= r.committedAt <= i.freshUntil
    && r.committedAt - r.requestedAt <= 60_000
  }

  predicate ParsesDirect(r: SlotResult, e: DirectEffect) {
    r.DirectResult? && r.effect == e && e.committedAt + RETENTION_MS <= r.retentionUntil
  }

  predicate AnchorOk(anchors: seq<Anchor>, k: nat, sealedAt: int)
    requires k < |anchors|
  {
    && anchors[k].role == (if k < ANCHORS - 1 then Some(k) else None)
    && sealedAt + RETENTION_MS <= anchors[k].retentionUntil
  }

  /** Fifteen anchors in role order, no record and no object version twice. */
  ghost predicate AnchorsOk(anchors: seq<Anchor>, sealedAt: int) {
    && |anchors| == ANCHORS
    && (forall k :: 0 <= k < |anchors| ==> AnchorOk(anchors, k, sealedAt))
    && (forall i, j :: 0 <= i < j < |anchors| ==>
          anchors[i].recordId != anchors[j].recordId && anchors[i].version != anchors[j].version)
  }

  ghost predicate ParsesBatchResult(r: SlotResult, q: BatchRequest) {
    r.BatchResult? && r.batch == q && AnchorsOk(r.anchors, r.sealedAt)
  }

  predicate ParsesRecord(r: RecordResult, core: Core) {
    r.core == core && core.recordAt + RETENTION_MS <= r.worm.retentionUntil
  }
}
