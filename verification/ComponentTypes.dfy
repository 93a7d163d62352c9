/**
 * Values and tables of the component journal.
 *
 * Every digest in the journal is computed over the exact value it names, so a digest is modelled by
 * that value itself: two identities are equal exactly when everything they were computed from is equal.
 */
module ComponentTypes {
  import opened Foundation
  import opened Clock

  const ROSTER_SIZE := 15
  const MAX_LIVE_SESSIONS := 4
  const MAX_LIFETIME_SESSIONS := 8

  datatype Descriptor = Descriptor(worker: Name, payloads: seq<Name>, committedAt: int)

  predicate ValidDescriptor(d: Descriptor) {
    |d.payloads| == ROSTER_SIZE && IsStamp(d.committedAt)
  }

  datatype SetId = SetId(worker: Name, payloads: seq<Name>)

  function SetOf(d: Descriptor): SetId {
    SetId(d.worker, d.payloads)
  }

  datatype SessionId = SessionId(descriptor: Descriptor, generation: int, ordinal: int,
                                 predecessor: Option<SessionId>)

  /** The canonical bytes of one component: which descriptor, which roster place, which payload. */
  datatype Envelope = Envelope(descriptor: Descriptor, kind: int, payload: Name)

  /** The two services that write and observe an object; a version is part of each identity. */
  datatype Pins = Pins(executor: Name, observer: Name)

  predicate ValidPins(p: Pins) {
    p.executor != p.observer
  }

  datatype Worm = Worm(version: Name, retentionUntil: int)

  datatype Manifest = Manifest(descriptor: Descriptor, worms: seq<Worm>)

  datatype Effect =
    | ComponentEffect(envelope: Envelope, pins: Pins)
    | ManifestEffect(manifest: Manifest, pins: Pins)

  function EffectCommittedAt(e: Effect): int {
    match e
    case ComponentEffect(envelope, _) => envelope.descriptor.committedAt
    case ManifestEffect(manifest, _) => manifest.descriptor.committedAt
  }

  /** Result bytes name the effect they answer; `evidence` stands for everything else they hold. */
  datatype ResultBytes = ResultBytes(effect: Effect, worm: Worm, evidence: Name)

  /** The WORM result parser: the object it proves, or nothing when it rejects the bytes. */
  function ParseResult(r: ResultBytes, e: Effect): Option<Worm> {
    if r.effect == e && IsStamp(r.worm.retentionUntil)
       && EffectCommittedAt(e) + RETENTION_MS <= r.worm.retentionUntil
    then Some(r.worm)
    else None
  }

  datatype Pointer = Pointer(manifest: Manifest, worm: Worm)

  /** The terminal code of a session is fixed by its state, so the state alone is kept. */
  datatype SessionState = PROVISIONAL | STAGED | SELECTED | REJECTED | ABANDONED | SUPERSEDED

  predicate Live(s: SessionState) {
    s == PROVISIONAL || s == STAGED
  }

  predicate Terminal(s: SessionState) {
    s == REJECTED || s == ABANDONED || s == SUPERSEDED
  }

  datatype SessionRow = SessionRow(
    ordinal: int, generation: int, predecessor: Option<SessionId>, setId: SetId, worker: Name,
    descriptor: Descriptor, committedAt: int, freshUntil: int, state: SessionState)

  datatype EntryStatus = EntryExpected | EntryStaged | EntrySealed | EntryConfirmed

  /** One roster place of a session; its place in the sequence is both its ordinal and its kind. */
  datatype EntryRow = EntryRow(
    expectedPayload: Name, envelope: Option<Envelope>, effect: Option<Effect>,
    result: Option<ResultBytes>, status: EntryStatus)

  datatype Phase =
    | OPEN
    | COMPONENT_EFFECTS_SEALED
    | COMPONENTS_CONFIRMED
    | MANIFEST_EFFECT_SEALED
    | CONFIRMED
    | HOLD

  datatype HoldCode = MANIFEST_VERSION_CONFLICT | WORM_VERSION_CONFLICT

  datatype SelectionRow = SelectionRow(
    phase: Phase, selected: Option<SessionId>, pins: Option<Pins>, holdCode: Option<HoldCode>)

  datatype ManifestStatus = ManifestSealed | ManifestResultConfirmed | ManifestConfirmed

  datatype ManifestRow = ManifestRow(
    manifest: Manifest, effect: Effect, result: Option<ResultBytes>, pointer: Option<Pointer>,
    status: ManifestStatus)

  /** The four tables of the journal, scoped to one worker version. */
  datatype Tables = Tables(
    worker: Name,
    sessions: map<SessionId, SessionRow>,
    entries: map<SessionId, seq<EntryRow>>,
    selection: SelectionRow,
    manifests: map<SessionId, ManifestRow>)

  const OPEN_SELECTION := SelectionRow(OPEN, None, None, None)

  function EmptyJournal(worker: Name): Tables {
    Tables(worker, map[], map[], OPEN_SELECTION, map[])
  }

  function EntriesOf(t: Tables, id: SessionId): seq<EntryRow> {
    if id in t.entries then t.entries[id] else []
  }

  function ManifestOf(t: Tables, id: SessionId): Option<ManifestRow> {
    if id in t.manifests then Some(t.manifests[id]) else None
  }

  function SessionOf(t: Tables, id: SessionId): Option<SessionRow> {
    if id in t.sessions then Some(t.sessions[id]) else None
  }

  function LiveSessions(rows: map<SessionId, SessionRow>): set<SessionId> {
    set id | id in rows && Live(rows[id].state)
  }

  predicate HasOrdinal(rows: map<SessionId, SessionRow>, k: int) {
    exists id :: id in rows && rows[id].ordinal == k
  }

  /** `MAX(journal_ordinal)` over a column whose CHECK keeps it in 1..8. */
  function MaxOrdinal(rows: map<SessionId, SessionRow>, bound: nat): nat {
    if bound == 0 then 0
    else if HasOrdinal(rows, bound) then bound
    else MaxOrdinal(rows, bound - 1)
  }

  function NextOrdinal(t: Tables): nat {
    MaxOrdinal(t.sessions, MAX_LIFETIME_SESSIONS) + 1
  }

  /** The row of the first generation of a set: at most one exists, by UNIQUE(set_id, generation). */
  predicate IsInitial(t: Tables, setId: SetId, id: SessionId) {
    id in t.sessions && t.sessions[id].setId == setId && t.sessions[id].generation == 1
  }

  predicate IsSuccessor(t: Tables, predecessor: SessionId, id: SessionId) {
    id in t.sessions && t.sessions[id].predecessor == Some(predecessor)
  }
}
