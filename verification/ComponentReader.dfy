/**
 * The reader of the component journal: it rebuilds every identity from the stored rows and refuses
 * any state in which a row disagrees with what it was computed from.
 */
module ComponentReader {
  import opened Foundation
  import opened Clock
  import opened ComponentTypes

  /** The rows one `load` returns; everything derived from them is recomputed on demand. */
  datatype Snapshot = Snapshot(id: SessionId, row: SessionRow, entries: seq<EntryRow>, selection: SelectionRow)

  function Current(t: Tables, id: SessionId): Snapshot
    requires id in t.sessions
  {
    Snapshot(id, t.sessions[id], EntriesOf(t, id), t.selection)
  }

  predicate ParsesEnvelope(e: Envelope, d: Descriptor) {
    e.descriptor == d && |d.payloads| == ROSTER_SIZE && 0 <= e.kind < ROSTER_SIZE && e.payload == d.payloads[e.kind]
  }

  predicate IdentityHolds(worker: Name, id: SessionId, row: SessionRow) {
    && ValidDescriptor(row.descriptor)
    && 1 <= row.generation <= MAX_LIFETIME_SESSIONS
    && 1 <= row.ordinal <= MAX_LIFETIME_SESSIONS
    && id == SessionId(row.descriptor, row.generation, row.ordinal, row.predecessor)
    && row.worker == worker == row.descriptor.worker
    && row.setId == SetOf(row.descriptor)
    && row.committedAt == row.descriptor.committedAt
    && row.freshUntil == row.descriptor.committedAt + TTL_MS
  }

  predicate PinsReadable(sel: SelectionRow, id: SessionId) {
    sel.phase != OPEN && sel.selected == Some(id) && sel.pins.Some? && ValidPins(sel.pins.value)
  }

  predicate SelectionShape(sel: SelectionRow) {
    if sel.phase == OPEN then sel == OPEN_SELECTION
    else
      && sel.selected.Some?
      && (sel.phase == HOLD <==> sel.holdCode.Some?)
      && PinsReadable(sel, sel.selected.value)
  }

  /** What the parse loop has pushed so far. */
  datatype Parsed = Parsed(envelopes: seq<Envelope>, effects: seq<Effect>)

  function ParseEntry(d: Descriptor, row: EntryRow, k: int, pins: Option<Pins>, p: Parsed): Option<Parsed>
    requires 0 <= k < |d.payloads|
  {
    if row.expectedPayload != d.payloads[k] then None
    else if row.status == EntryExpected then Some(p)
    else if row.envelope.None? then None
    else
      var env := row.envelope.value;
      if !ParsesEnvelope(env, d) || env.kind != k || row.expectedPayload != env.payload then None
      else if row.status == EntryStaged then Some(p.(envelopes := p.envelopes + [env]))
      else if pins.None? || row.effect != Some(ComponentEffect(env, pins.value)) then None
      else if row.status == EntryConfirmed
              && (row.result.None? || ParseResult(row.result.value, row.effect.value).None?) then None
      else Some(Parsed(p.envelopes + [env], p.effects + [row.effect.value]))
  }

  function ParseEntries(d: Descriptor, rows: seq<EntryRow>, pins: Option<Pins>): Option<Parsed>
    requires |rows| <= |d.payloads|
  {
    if rows == [] then Some(Parsed([], []))
    else
      var k := |rows| - 1;
      match ParseEntries(d, rows[..k], pins)
      case None => None
      case Some(p) => ParseEntry(d, rows[k], k, pins, p)
  }

  predicate AllIn(rows: seq<EntryRow>, s: set<EntryStatus>) {
    forall k :: 0 <= k < |rows| ==> rows[k].status in s
  }

  predicate SomeAt(rows: seq<EntryRow>, s: EntryStatus) {
    exists k :: 0 <= k < |rows| && rows[k].status == s
  }

  predicate ActiveState(row: SessionRow, rows: seq<EntryRow>, sel: SelectionRow, id: SessionId) {
    || (row.state == PROVISIONAL && SomeAt(rows, EntryExpected) && AllIn(rows, {EntryExpected, EntryStaged}))
    || (row.state == STAGED && AllIn(rows, {EntryStaged}))
    || (row.state == SELECTED && sel.selected == Some(id) && sel.phase == COMPONENT_EFFECTS_SEALED
        && SomeAt(rows, EntrySealed) && AllIn(rows, {EntrySealed, EntryConfirmed}))
    || (row.state == SELECTED && sel.selected == Some(id)
        && sel.phase in {COMPONENTS_CONFIRMED, MANIFEST_EFFECT_SEALED, CONFIRMED, HOLD}
        && AllIn(rows, {EntryConfirmed}))
  }

  function RowPins(row: SessionRow, sel: SelectionRow): Option<Pins> {
    if row.state == SELECTED then sel.pins else None
  }

  /** Everything `parse` checks except the predecessor. */
  predicate RowsReadable(worker: Name, s: Snapshot) {
    && IdentityHolds(worker, s.id, s.row)
    && SelectionShape(s.selection)
    && if Terminal(s.row.state) then s.entries == [] && s.selection.selected != Some(s.id)
       else
         && |s.entries| == ROSTER_SIZE
         && (s.row.state == SELECTED ==> PinsReadable(s.selection, s.id))
         && ParseEntries(s.row.descriptor, s.entries, RowPins(s.row, s.selection)).Some?
         && ActiveState(s.row, s.entries, s.selection, s.id)
  }

  predicate PredecessorMatches(row: SessionRow, p: SessionRow) {
    && p.generation == row.generation - 1
    && p.state == ABANDONED
    && SetOf(p.descriptor) == SetOf(row.descriptor)
    && p.descriptor.worker == row.descriptor.worker
    && p.freshUntil < row.committedAt
    && p.ordinal < row.ordinal
  }

  /** `load` succeeds: the rows parse, and so does the whole chain of predecessors. */
  predicate Readable(t: Tables, id: SessionId)
    decreases id
  {
    && id in t.sessions
    && RowsReadable(t.worker, Current(t, id))
    && var row := t.sessions[id];
       match row.predecessor {
         case None => row.generation == 1
         case Some(p) => row.generation > 1 && Readable(t, p) && PredecessorMatches(row, t.sessions[p])
       }
  }

  function Load(t: Tables, id: SessionId): Option<Snapshot> {
    if Readable(t, id) then Some(Current(t, id)) else None
  }

  /** The envelopes and effects in the order the parse loop pushed them. */
  function Derived(s: Snapshot): Parsed {
    if |s.entries| <= |s.row.descriptor.payloads|
    then match ParseEntries(s.row.descriptor, s.entries, RowPins(s.row, s.selection)) {
           case None => Parsed([], [])
           case Some(p) => p
         }
    else Parsed([], [])
  }

  predicate SelectedPins(s: Snapshot) {
    s.row.state == SELECTED && s.selection.selected == Some(s.id) && s.selection.pins.Some?
  }

  /** `confirmedJournalComponentObjects`: all fifteen results reparse against their effects. */
  predicate ComponentsConfirmed(s: Snapshot) {
    && |s.entries| == ROSTER_SIZE
    && |Derived(s).effects| == ROSTER_SIZE
    && AllIn(s.entries, {EntryConfirmed})
    && forall k :: 0 <= k < ROSTER_SIZE ==>
         && s.entries[k].result.Some?
         && ParseResult(s.entries[k].result.value, Derived(s).effects[k]).Some?
  }

  function Worms(rows: seq<EntryRow>): (worms: seq<Worm>)
    requires forall k :: 0 <= k < |rows| ==> rows[k].result.Some?
  {
    seq(|rows|, k requires 0 <= k < |rows| => rows[k].result.value.worm)
  }

  function Versions(worms: seq<Worm>): seq<Name> {
    seq(|worms|, k requires 0 <= k < |worms| => worms[k].version)
  }

  predicate HasDuplicateVersions(worms: seq<Worm>) {
    |Elements(Versions(worms))| != |Versions(worms)|
  }

  predicate Collides(worms: seq<Worm>, w: Worm) {
    w.version in Versions(worms)
  }

  /** The rebuilt manifest of a fully confirmed component set. */
  function ManifestFor(s: Snapshot): Manifest
    requires ComponentsConfirmed(s)
  {
    Manifest(s.row.descriptor, Worms(s.entries))
  }

  predicate ManifestResultReadable(m: ManifestRow, worms: seq<Worm>) {
    match m.status
    case ManifestSealed => m.result.None? && m.pointer.None?
    case ManifestResultConfirmed =>
      && m.result.Some? && ParseResult(m.result.value, m.effect).Some?
      && Collides(worms, m.result.value.worm) && m.pointer.None?
    case ManifestConfirmed =>
      && m.result.Some? && ParseResult(m.result.value, m.effect).Some?
      && !Collides(worms, m.result.value.worm)
      && m.pointer == Some(Pointer(m.manifest, m.result.value.worm))
  }

  predicate ManifestSelection(sel: SelectionRow, status: ManifestStatus) {
    match status
    case ManifestSealed => sel.phase == MANIFEST_EFFECT_SEALED
    case ManifestResultConfirmed => sel.phase == HOLD && sel.holdCode == Some(MANIFEST_VERSION_CONFLICT)
    case ManifestConfirmed => sel.phase == CONFIRMED
  }

  /** `readActivationComponentManifestAuthority` accepts these rows. */
  predicate ManifestReadable(s: Snapshot, m: ManifestRow) {
    && ComponentsConfirmed(s)
    && !HasDuplicateVersions(Worms(s.entries))
    && SelectedPins(s)
    && m.manifest == ManifestFor(s)
    && m.effect == ManifestEffect(m.manifest, s.selection.pins.value)
    && ManifestResultReadable(m, Worms(s.entries))
    && ManifestSelection(s.selection, m.status)
  }

  predicate HoldReadable(t: Tables, id: SessionId) {
    && Readable(t, id)
    && var s := Current(t, id);
       && s.selection.phase == HOLD
       && ComponentsConfirmed(s)
       && match s.selection.holdCode {
            case None => false
            case Some(WORM_VERSION_CONFLICT) => HasDuplicateVersions(Worms(s.entries)) && id !in t.manifests
            case Some(MANIFEST_VERSION_CONFLICT) =>
              && id in t.manifests && ManifestReadable(s, t.manifests[id])
              && t.manifests[id].status == ManifestResultConfirmed
          }
  }
}
