/**
 * One atomic transaction per function.
 *
 * Each takes the tables as they are when the transaction starts and a snapshot read at some earlier
 * moment. Nothing is assumed about the snapshot: every interleaving of concurrent calls is a sequence
 * of these transactions over snapshots of whatever age.
 */
module ComponentSteps {
  import opened Foundation
  import opened Clock
  import opened ComponentTypes
  import opened ComponentReader

  datatype Outcome = Aborted | Committed(tables: Tables)

  /** A thrown error rolls the transaction back. */
  function Settle(t: Tables, o: Outcome): Tables {
    if o.Committed? then o.tables else t
  }

  predicate SessionFence(t: Tables, s: Snapshot) {
    SessionOf(t, s.id) == Some(s.row)
  }

  predicate Fenced(t: Tables, s: Snapshot) {
    SessionFence(t, s) && EntriesOf(t, s.id) == s.entries && t.selection == s.selection
  }

  predicate SameIdentity(expected: SessionRow, actual: SessionRow) {
    expected.(state := actual.state) == actual
  }

  predicate Fresh(now: int, freshUntil: int) {
    IsDate(now) && !After(now, freshUntil)
  }

  /**
   * Freshness for a deadline not yet stored. One past year 9999 has a longer text, which only times past
   * year 9999 do not sort after.
   */
  predicate FreshFor(now: int, deadline: int) {
    if IsStamp(deadline) then Fresh(now, deadline) else IsDate(now) && STAMP_MAX < now <= deadline
  }

  predicate Expired(now: int, freshUntil: int) {
    IsDate(now) && After(now, freshUntil)
  }

  predicate OpenUnsealed(t: Tables) {
    && t.selection.phase == OPEN
    && t.selection.selected.None?
    && (forall id :: id in t.entries ==> AllIn(t.entries[id], {EntryExpected, EntryStaged}))
    && (forall id :: id in t.sessions ==> t.sessions[id].state != SELECTED)
  }

  // ---- admission ----------------------------------------------------------------------------

  function AbandonStep(t: Tables, s: Snapshot, now: int): Outcome {
    if Live(s.row.state) && OpenUnsealed(t) && Fenced(t, s) && Expired(now, s.row.freshUntil)
    then Committed(t.(sessions := t.sessions[s.id := s.row.(state := ABANDONED)],
                      entries := t.entries - {s.id}))
    else Aborted
  }

  function Expire(row: SessionRow, now: int): SessionRow {
    if Live(row.state) && After(now, row.freshUntil) then row.(state := ABANDONED) else row
  }

  function ExpireStale(t: Tables, now: int): Tables {
    var sessions := map id | id in t.sessions :: Expire(t.sessions[id], now);
    var gone := set id | id in sessions && sessions[id].state == ABANDONED;
    t.(sessions := sessions, entries := t.entries - gone)
  }

  datatype Admission = Admission(descriptor: Descriptor, generation: int, predecessor: Option<SessionId>)

  /** What the descriptor builder and the identity function accept before the transaction opens. */
  predicate WellFormed(worker: Name, input: Admission) {
    && ValidDescriptor(input.descriptor)
    && input.descriptor.worker == worker
    && 1 <= input.generation <= MAX_LIFETIME_SESSIONS
    && (input.generation == 1 <==> input.predecessor.None?)
  }

  predicate IsExisting(t: Tables, input: Admission, id: SessionId) {
    match input.predecessor
    case None => IsInitial(t, SetOf(input.descriptor), id)
    case Some(p) => IsSuccessor(t, p, id)
  }

  predicate PredecessorAdmits(t: Tables, input: Admission, ordinal: int) {
    match input.predecessor
    case None => true
    case Some(p) =>
      && p in t.sessions
      && t.sessions[p].state == ABANDONED
      && t.sessions[p].setId == SetOf(input.descriptor)
      && t.sessions[p].generation + 1 == input.generation
      && t.sessions[p].ordinal < ordinal
      && t.sessions[p].freshUntil < input.descriptor.committedAt
  }

  function AdmittedId(input: Admission, ordinal: int): SessionId {
    SessionId(input.descriptor, input.generation, ordinal, input.predecessor)
  }

  function NewSession(input: Admission, ordinal: int): SessionRow {
    SessionRow(ordinal, input.generation, input.predecessor, SetOf(input.descriptor), input.descriptor.worker,
               input.descriptor, input.descriptor.committedAt, input.descriptor.committedAt + TTL_MS, PROVISIONAL)
  }

  function ExpectedEntries(d: Descriptor): (rows: seq<EntryRow>)
    ensures |rows| == |d.payloads|
  {
    seq(|d.payloads|, k requires 0 <= k < |d.payloads| => EntryRow(d.payloads[k], None, None, None, EntryExpected))
  }

  function Insert(t: Tables, input: Admission, ordinal: int): Tables {
    var id := AdmittedId(input, ordinal);
    t.(sessions := t.sessions[id := NewSession(input, ordinal)],
       entries := t.entries[id := ExpectedEntries(input.descriptor)])
  }

  datatype AdmitOutcome = AdmitAborted | AdmitRetry(tables: Tables) | AdmitResolved(tables: Tables, id: SessionId)

  function SettleAdmission(t: Tables, o: AdmitOutcome): Tables {
    match o
    case AdmitAborted => t
    case AdmitRetry(u) => u
    case AdmitResolved(u, _) => u
  }

  /** The admission transaction for a session whose identity was computed with `ordinal`. */
  ghost function AdmitStep(t: Tables, input: Admission, ordinal: int, nowExpire: int, nowFresh: int): AdmitOutcome {
    if exists id :: IsExisting(t, input, id) then
      var id :| IsExisting(t, input, id);
      AdmitResolved(t, id)
    else if !OpenUnsealed(t) || !IsDate(nowExpire) then AdmitAborted
    else
      var e := ExpireStale(t, nowExpire);
      if |LiveSessions(e.sessions)| >= MAX_LIVE_SESSIONS || |e.sessions| >= MAX_LIFETIME_SESSIONS then AdmitAborted
      else if !FreshFor(nowFresh, input.descriptor.committedAt + TTL_MS) then AdmitAborted
      else if NextOrdinal(e) != ordinal then AdmitRetry(e)
      else if !PredecessorAdmits(e, input, ordinal) || !IsStamp(input.descriptor.committedAt + TTL_MS) then AdmitAborted
      else AdmitResolved(Insert(e, input, ordinal), AdmittedId(input, ordinal))
  }

  // ---- staging ------------------------------------------------------------------------------

  predicate EnvelopeStored(row: EntryRow, e: Envelope) {
    row.envelope == Some(e) && row.expectedPayload == e.payload
  }

  function Staged(rows: seq<EntryRow>, e: Envelope): seq<EntryRow>
    requires 0 <= e.kind < |rows|
  {
    rows[e.kind := rows[e.kind].(envelope := Some(e), status := EntryStaged)]
  }

  function StageStep(t: Tables, s: Snapshot, e: Envelope, now: int): Outcome {
    if !ParsesEnvelope(e, s.row.descriptor) || e.kind >= |s.entries| then Aborted
    else if s.entries[e.kind].status != EntryExpected then
      if EnvelopeStored(s.entries[e.kind], e) then Committed(t) else Aborted
    else if s.row.state != PROVISIONAL then Aborted
    else if s.id !in t.sessions || !SameIdentity(s.row, t.sessions[s.id]) then Aborted
    else
      var rows := EntriesOf(t, s.id);
      if e.kind >= |rows| then Aborted
      else if rows[e.kind].status != EntryExpected then
        if EnvelopeStored(rows[e.kind], e) then Committed(t) else Aborted
      else if t.sessions[s.id].state != PROVISIONAL || t.selection.phase != OPEN then Aborted
      else if !Fresh(now, t.sessions[s.id].freshUntil) then Aborted
      else
        var staged := Staged(rows, e);
        var state := if SomeAt(staged, EntryExpected) then PROVISIONAL else STAGED;
        Committed(t.(sessions := t.sessions[s.id := t.sessions[s.id].(state := state)],
                     entries := t.entries[s.id := staged]))
  }

  // ---- selection ----------------------------------------------------------------------------

  function RejectStep(t: Tables, s: Snapshot): Outcome {
    if Fenced(t, s) && s.selection.phase == OPEN && s.row.state == STAGED
    then Committed(t.(sessions := t.sessions[s.id := s.row.(state := REJECTED)],
                      entries := t.entries - {s.id}))
    else Aborted
  }

  function Supersede(row: SessionRow): SessionRow {
    if Live(row.state) then row.(state := SUPERSEDED) else row
  }

  function Sealed(rows: seq<EntryRow>, envelopes: seq<Envelope>, pins: Pins): (sealed: seq<EntryRow>)
    requires |envelopes| == |rows|
    ensures |sealed| == |rows|
  {
    seq(|rows|, k requires 0 <= k < |rows| =>
      rows[k].(effect := Some(ComponentEffect(envelopes[k], pins)), status := EntrySealed))
  }

  function Claim(t: Tables, id: SessionId, sealed: seq<EntryRow>, pins: Pins): Tables
    requires id in t.sessions
  {
    var sessions := map x | x in t.sessions ::
      if x == id then t.sessions[x].(state := SELECTED) else Supersede(t.sessions[x]);
    var gone := set x | x in sessions && sessions[x].state == SUPERSEDED;
    t.(sessions := sessions,
       entries := t.entries[id := sealed] - gone,
       selection := SelectionRow(COMPONENT_EFFECTS_SEALED, Some(id), Some(pins), None))
  }

  function SealStep(t: Tables, s: Snapshot, pins: Pins, now: int): Outcome {
    if s.row.state != STAGED || !ValidPins(pins) || |Derived(s).envelopes| != ROSTER_SIZE then Aborted
    else if t.selection.phase == COMPONENT_EFFECTS_SEALED && t.selection.selected == Some(s.id) then
      if t.selection.pins == Some(pins) then Committed(t) else Aborted
    else if !Fenced(t, s) || !Fresh(now, s.row.freshUntil) then Aborted
    else if t.selection.phase != OPEN || t.selection.selected.Some? then Aborted
    else if |s.entries| != ROSTER_SIZE || !AllIn(s.entries, {EntryStaged}) then Aborted
    else Committed(Claim(t, s.id, Sealed(s.entries, Derived(s).envelopes, pins), pins))
  }

  // ---- component confirmation ---------------------------------------------------------------

  /** The place of the entry that carries this effect, by `effect_id`; the first one if several did. */
  function FindEffect(rows: seq<EntryRow>, e: Effect): (r: Option<nat>)
    ensures r.Some? ==> r.value < |rows| && rows[r.value].effect == Some(e)
    ensures r.None? ==> forall k :: 0 <= k < |rows| ==> rows[k].effect != Some(e)
  {
    if rows == [] then None
    else if rows[0].effect == Some(e) then Some(0)
    else match FindEffect(rows[1..], e)
         case None => None
         case Some(k) => Some(k + 1)
  }

  function Confirmed(rows: seq<EntryRow>, k: nat, r: ResultBytes): seq<EntryRow>
    requires k < |rows|
  {
    rows[k := rows[k].(result := Some(r), status := EntryConfirmed)]
  }

  /** The checks made on the snapshot before the transaction: the effect is positionally its entry's. */
  predicate Confirmable(s: Snapshot, e: Effect, r: ResultBytes) {
    && SelectedPins(s)
    && s.selection.phase != OPEN
    && FindEffect(s.entries, e).Some?
    && FindEffect(s.entries, e).value < |Derived(s).effects|
    && Derived(s).effects[FindEffect(s.entries, e).value] == e
    && ParseResult(r, e).Some?
  }

  function ConfirmStep(t: Tables, s: Snapshot, e: Effect, r: ResultBytes): Outcome {
    if !Confirmable(s, e, r) then Aborted
    else
      var rows := EntriesOf(t, s.id);
      match FindEffect(rows, e)
      case None => Aborted
      case Some(k) =>
        if rows[k].status == EntryConfirmed then
          if rows[k].result == Some(r) then Committed(t) else Aborted
        else if !SessionFence(t, s) || FindEffect(s.entries, e) != Some(k) || s.entries[k] != rows[k]
                || t.selection != s.selection then Aborted
        else if rows[k].status != EntrySealed || s.selection.phase != COMPONENT_EFFECTS_SEALED then Aborted
        else
          var confirmed := Confirmed(rows, k, r);
          var phase := if SomeAt(confirmed, EntrySealed) then COMPONENT_EFFECTS_SEALED else COMPONENTS_CONFIRMED;
          Committed(t.(entries := t.entries[s.id := confirmed], selection := t.selection.(phase := phase)))
  }

  // ---- manifest -----------------------------------------------------------------------------

  function HoldStep(t: Tables, s: Snapshot): Outcome {
    if t.selection.phase == HOLD && t.selection.selected == Some(s.id)
       && t.selection.holdCode == Some(WORM_VERSION_CONFLICT) && s.id !in t.manifests then Committed(t)
    else if !Fenced(t, s) || s.id in t.manifests || t.selection.selected != Some(s.id) then Aborted
    else Committed(t.(selection := t.selection.(phase := HOLD, holdCode := Some(WORM_VERSION_CONFLICT))))
  }

  function SealedManifest(s: Snapshot): ManifestRow
    requires ComponentsConfirmed(s) && SelectedPins(s)
  {
    ManifestRow(ManifestFor(s), ManifestEffect(ManifestFor(s), s.selection.pins.value), None, None, ManifestSealed)
  }

  predicate SameSeal(a: ManifestRow, b: ManifestRow) {
    a.manifest == b.manifest && a.effect == b.effect
  }

  function PersistSealStep(t: Tables, s: Snapshot): Outcome
    requires ComponentsConfirmed(s) && SelectedPins(s)
  {
    var row := SealedManifest(s);
    if s.id in t.manifests then
      if SameSeal(row, t.manifests[s.id]) then Committed(t) else Aborted
    else if !Fenced(t, s) then Aborted
    else Committed(t.(manifests := t.manifests[s.id := row],
                      selection := t.selection.(phase := MANIFEST_EFFECT_SEALED, holdCode := None)))
  }

  /** Sealing the manifest effect, or the terminal HOLD when two components share a version. */
  function ManifestSealStep(t: Tables, s: Snapshot): Outcome {
    if s.selection.phase != COMPONENTS_CONFIRMED then Committed(t)
    else if !ComponentsConfirmed(s) || !SelectedPins(s) then Aborted
    else if HasDuplicateVersions(Worms(s.entries)) then HoldStep(t, s)
    else PersistSealStep(t, s)
  }

  function Answered(m: ManifestRow, r: ResultBytes, collision: bool): ManifestRow {
    m.(result := Some(r),
       pointer := if collision then None else Some(Pointer(m.manifest, r.worm)),
       status := if collision then ManifestResultConfirmed else ManifestConfirmed)
  }

  function Answer(sel: SelectionRow, collision: bool): SelectionRow {
    sel.(phase := if collision then HOLD else CONFIRMED,
         holdCode := if collision then Some(MANIFEST_VERSION_CONFLICT) else None)
  }

  function PersistResultStep(t: Tables, s: Snapshot, m: ManifestRow, r: ResultBytes, collision: bool): Outcome {
    if s.id !in t.manifests then Aborted
    else
      var row := t.manifests[s.id];
      if row.status != ManifestSealed then
        if SameSeal(m, row) && row.result == Some(r) && row.pointer == Answered(m, r, collision).pointer
        then Committed(t) else Aborted
      else if !Fenced(t, s) || !SameSeal(m, row) || s.selection.phase != MANIFEST_EFFECT_SEALED
              || t.selection.selected != Some(s.id) then Aborted
      else Committed(t.(manifests := t.manifests[s.id := Answered(row, r, collision)],
                        selection := Answer(t.selection, collision)))
  }

  function ManifestResultStep(t: Tables, s: Snapshot, m: ManifestRow, e: Effect, r: ResultBytes): Outcome {
    if !ManifestReadable(s, m) || m.effect != e then Aborted
    else if m.status != ManifestSealed then
      if m.result == Some(r) then Committed(t) else Aborted
    else if ParseResult(r, e).None? then Aborted
    else PersistResultStep(t, s, m, r, Collides(Worms(s.entries), r.worm))
  }

  // ---- runs ---------------------------------------------------------------------------------

  datatype Op =
    | AbandonOp(s: Snapshot, now: int)
    | AdmitOp(input: Admission, ordinal: int, nowExpire: int, nowFresh: int)
    | StageOp(s: Snapshot, envelope: Envelope, now: int)
    | RejectOp(s: Snapshot)
    | SealOp(s: Snapshot, pins: Pins, now: int)
    | ConfirmOp(s: Snapshot, effect: Effect, result: ResultBytes)
    | ManifestSealOp(s: Snapshot)
    | ManifestResultOp(s: Snapshot, manifest: ManifestRow, effect: Effect, result: ResultBytes)

  ghost function Apply(t: Tables, op: Op): Tables {
    match op
    case AbandonOp(s, now) => Settle(t, AbandonStep(t, s, now))
    case AdmitOp(input, ordinal, a, b) =>
      if WellFormed(t.worker, input) then SettleAdmission(t, AdmitStep(t, input, ordinal, a, b)) else t
    case StageOp(s, e, now) => Settle(t, StageStep(t, s, e, now))
    case RejectOp(s) => Settle(t, RejectStep(t, s))
    case SealOp(s, pins, now) => Settle(t, SealStep(t, s, pins, now))
    case ConfirmOp(s, e, r) => Settle(t, ConfirmStep(t, s, e, r))
    case ManifestSealOp(s) => Settle(t, ManifestSealStep(t, s))
    case ManifestResultOp(s, m, e, r) => Settle(t, ManifestResultStep(t, s, m, e, r))
  }

  /** Any interleaving of transactions, each from a snapshot of any age. */
  ghost function Run(t: Tables, ops: seq<Op>): Tables
    decreases |ops|
  {
    if ops == [] then t else Run(Apply(t, ops[0]), ops[1..])
  }
}
