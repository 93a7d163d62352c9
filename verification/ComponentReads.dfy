/**
 * The reader accepts every reachable state, its positional lookups are always aligned, and a commit
 * made from a stale read is as good as one made from a fresh read.
 */
module ComponentReads {
  import opened Foundation
  import opened Clock
  import opened ComponentTypes
  import opened ComponentReader
  import opened ComponentSteps
  import opened ComponentInvariant
  import opened ComponentSafety
  import opened ComponentRuns

  // ---- the reader -----------------------------------------------------------------------------

  /** Given the column constraints, the parse loop accepts exactly the coherent rosters. */
  lemma {:induction false} ParseExact(d: Descriptor, rows: seq<EntryRow>, pins: Option<Pins>)
    requires |rows| <= |d.payloads| == ROSTER_SIZE
    requires forall k :: 0 <= k < |rows| ==> EntryFieldsOk(rows[k])
    ensures ParseEntries(d, rows, pins).Some? <==> forall k :: 0 <= k < |rows| ==> EntryOk(d, k, rows[k], pins)
  {
    if rows != [] {
      var k := |rows| - 1;
      var rest := rows[..k];
      ParseExact(d, rest, pins);
      if ParseEntries(d, rest, pins).Some? {
        var p := ParseEntries(d, rest, pins).value;
        assert ParseEntry(d, rows[k], k, pins, p).Some? <==> EntryOk(d, k, rows[k], pins);
        assert forall j :: 0 <= j < k ==> rest[j] == rows[j];
      }
    }
  }

  lemma InvSelectionShape(t: Tables)
    requires Inv(t)
    ensures SelectionShape(t.selection)
  {
  }

  lemma RowsAccepted(t: Tables, id: SessionId)
    requires Inv(t) && id in t.sessions
    ensures RowsReadable(t.worker, Current(t, id))
  {
    var row := t.sessions[id];
    assert SessionOk(t.worker, t.sessions, id);
    assert SessionEntriesOk(t, id);
    InvSelectionShape(t);
    if !Terminal(row.state) {
      ParseSucceeds(row.descriptor, t.entries[id], RowPins(row, t.selection));
      SelectedPhase(t, id);
    }
  }

  /** The status pattern the reader insists on, per phase. */
  lemma SelectedPhase(t: Tables, id: SessionId)
    requires Inv(t) && id in t.sessions && !Terminal(t.sessions[id].state)
    ensures ActiveState(t.sessions[id], EntriesOf(t, id), t.selection, id)
    ensures t.sessions[id].state == SELECTED ==> PinsReadable(t.selection, id)
  {
    assert SessionEntriesOk(t, id);
  }

  /** `load` succeeds for every session of every reachable journal; the chain of predecessors ends. */
  lemma {:induction false} ReaderAccepts(t: Tables, id: SessionId)
    requires Inv(t) && id in t.sessions
    ensures Load(t, id) == Some(Current(t, id))
    decreases t.sessions[id].generation
  {
    RowsAccepted(t, id);
    assert SessionOk(t.worker, t.sessions, id);
    if t.sessions[id].predecessor.Some? {
      var p := t.sessions[id].predecessor.value;
      assert SessionOk(t.worker, t.sessions, p);
      ReaderAccepts(t, p);
    }
  }

  // ---- what the reader refuses ----------------------------------------------------------------

  /** The row is what its identifier was computed from, within the bounds of the journal. */
  predicate RowCoherent(worker: Name, id: SessionId, row: SessionRow) {
    var d := row.descriptor;
    && id == SessionId(descriptor := d, generation := row.generation, ordinal := row.ordinal, predecessor := row.predecessor)
    && |d.payloads| == 15 && IsStamp(d.committedAt) && 1 <= row.generation <= 8 && 1 <= row.ordinal <= 8
    && worker == row.worker == d.worker && row.setId == SetId(worker := d.worker, payloads := d.payloads)
    && row.committedAt == d.committedAt && row.freshUntil == d.committedAt + 900_000
  }

  predicate SelectionCoherent(sel: SelectionRow) {
    && (sel.phase == OPEN <==> sel.selected.None?) && (sel.phase == OPEN <==> sel.pins.None?)
    && (sel.phase == HOLD <==> sel.holdCode.Some?)
    && (sel.pins.Some? ==> sel.pins.value.executor != sel.pins.value.observer)
  }

  predicate Holding(rows: seq<EntryRow>, from: EntryStatus, upTo: EntryStatus) {
    forall k :: 0 <= k < |rows| ==> rows[k].status == from || rows[k].status == upTo
  }

  /** An entry in its place holds exactly the envelope, the effect and the answer that its status calls for. */
  predicate EntryCoherent(d: Descriptor, k: nat, row: EntryRow, pins: Option<Pins>)
    requires k < |d.payloads|
  {
    var envelope := Envelope(descriptor := d, kind := k, payload := d.payloads[k]);
    && row.expectedPayload == d.payloads[k]
    && row.envelope == (if row.status == EntryExpected then None else Some(envelope))
    && match row.status
       case EntryExpected => row.effect.None? && row.result.None?
       case EntryStaged => row.effect.None? && row.result.None?
       case EntrySealed => pins.Some? && row.effect == Some(ComponentEffect(envelope, pins.value)) && row.result.None?
       case EntryConfirmed =>
         && pins.Some? && row.effect == Some(ComponentEffect(envelope, pins.value)) && row.result.Some?
         && row.result.value.effect == row.effect.value && IsStamp(row.result.value.worm.retentionUntil)
         && d.committedAt + 2557 * 86_400_000 <= row.result.value.worm.retentionUntil
  }

  /** The column constraints on the entries that are there. */
  predicate ColumnsOk(rows: seq<EntryRow>) {
    forall k :: 0 <= k < |rows| ==> EntryFieldsOk(rows[k])
  }

  /** A session that has ended has no entries and is not selected; any other has all fifteen, as far as its phase goes. */
  predicate EntriesCoherent(s: Snapshot) {
    var state, rows, sel := s.row.state, s.entries, s.selection;
    if state in {REJECTED, ABANDONED, SUPERSEDED} then rows == [] && sel.selected != Some(s.id)
    else
      && |rows| == 15 == |s.row.descriptor.payloads|
      && (forall k :: 0 <= k < 15 ==>
            EntryCoherent(s.row.descriptor, k, rows[k], if state == SELECTED then sel.pins else None))
      && match state
         case PROVISIONAL => Holding(rows, EntryExpected, EntryStaged) && !Holding(rows, EntryStaged, EntryStaged)
         case STAGED => Holding(rows, EntryStaged, EntryStaged)
         case _ =>
           && sel.selected == Some(s.id)
           && if sel.phase == COMPONENT_EFFECTS_SEALED
              then Holding(rows, EntrySealed, EntryConfirmed) && !Holding(rows, EntryConfirmed, EntryConfirmed)
              else Holding(rows, EntryConfirmed, EntryConfirmed)
  }

  /** The predecessor is the abandoned row of the same set, one generation lower, that was over before. */
  predicate Succeeds(row: SessionRow, p: SessionRow) {
    && p.generation == row.generation - 1 && p.state == ABANDONED
    && p.descriptor.worker == row.descriptor.worker && p.descriptor.payloads == row.descriptor.payloads
    && p.freshUntil < row.committedAt && p.ordinal < row.ordinal
  }

  lemma EntryCoherentIs(d: Descriptor, k: nat, row: EntryRow, pins: Option<Pins>)
    requires k < |d.payloads|
    ensures EntryCoherent(d, k, row, pins) <==> EntryOk(d, k, row, pins)
  {
  }

  lemma StatusCoherentIs(s: Snapshot)
    requires |s.entries| == 15 && SelectionCoherent(s.selection) && !Terminal(s.row.state)
    ensures ActiveState(s.row, s.entries, s.selection, s.id) <==>
              match s.row.state
              case PROVISIONAL =>
                Holding(s.entries, EntryExpected, EntryStaged) && !Holding(s.entries, EntryStaged, EntryStaged)
              case STAGED => Holding(s.entries, EntryStaged, EntryStaged)
              case _ =>
                && s.selection.selected == Some(s.id)
                && if s.selection.phase == COMPONENT_EFFECTS_SEALED
                   then Holding(s.entries, EntrySealed, EntryConfirmed) && !Holding(s.entries, EntryConfirmed, EntryConfirmed)
                   else Holding(s.entries, EntryConfirmed, EntryConfirmed)
  {
  }

  lemma RowsCoherentAre(worker: Name, s: Snapshot)
    requires ColumnsOk(s.entries)
    ensures RowsReadable(worker, s) <==>
              RowCoherent(worker, s.id, s.row) && SelectionCoherent(s.selection) && EntriesCoherent(s)
  {
    var d := s.row.descriptor;
    hide ParseEntries, EntryOk, EntryCoherent;
    if |s.entries| == 15 == |d.payloads| {
      var pins := RowPins(s.row, s.selection);
      ParseExact(d, s.entries, pins);
      forall k: nat | k < 15 ensures EntryCoherent(d, k, s.entries[k], pins) <==> EntryOk(d, k, s.entries[k], pins) {
        EntryCoherentIs(d, k, s.entries[k], pins);
      }
      if SelectionCoherent(s.selection) && !Terminal(s.row.state) {
        StatusCoherentIs(s);
      }
    }
    hide ActiveState, Holding;
  }

  lemma ReadableIsStored(t: Tables, id: SessionId)
    ensures Readable(t, id) <==> Load(t, id).Some?
    ensures Readable(t, id) ==> id in t.sessions
  {
  }

  /**
   * Given the column constraints the reader accepts a session exactly when its row, the selection and its entries
   * are coherent, and its predecessor, if it has one, can be read and is the one it may follow.
   */
  lemma ReaderDecides(t: Tables, id: SessionId)
    requires id in t.sessions && ColumnsOk(EntriesOf(t, id))
    ensures var row := t.sessions[id];
            Load(t, id) == if && RowCoherent(t.worker, id, row) && SelectionCoherent(t.selection)
                              && EntriesCoherent(Current(t, id))
                              && match row.predecessor {
                                   case None => row.generation == 1
                                   case Some(p) =>
                                     row.generation > 1 && p in t.sessions && Load(t, p).Some? && Succeeds(row, t.sessions[p])
                                 }
                           then Some(Current(t, id)) else None
  {
    hide RowsReadable, RowCoherent, SelectionCoherent, EntriesCoherent;
    RowsCoherentAre(t.worker, Current(t, id));
    if t.sessions[id].predecessor.Some? {
      ReadableIsStored(t, t.sessions[id].predecessor.value);
    }
  }

  /** The effect at position `ordinal` is the effect of the entry with that ordinal. */
  lemma EffectsAligned(t: Tables, id: SessionId)
    requires Inv(t) && id in t.sessions && t.sessions[id].state == SELECTED
    ensures var s := Current(t, id);
            && |s.entries| == |Derived(s).effects| == ROSTER_SIZE
            && SelectedPins(s)
            && forall k :: 0 <= k < ROSTER_SIZE ==>
                 && s.entries[k].effect == Some(Derived(s).effects[k])
                 && FindEffect(s.entries, Derived(s).effects[k]) == Some(k)
                 && EntryOk(s.row.descriptor, k, s.entries[k], s.selection.pins)
  {
    var s := Current(t, id);
    assert SessionEntriesOk(t, id);
    assert t.selection.selected == Some(id);
    forall k | 0 <= k < ROSTER_SIZE
      ensures EntryOk(s.row.descriptor, k, s.entries[k], s.selection.pins) && s.entries[k].effect.Some?
    {
      assert s.entries[k].status in {EntrySealed, EntryConfirmed};
    }
    ParsedEffects(s.row.descriptor, s.entries, s.selection.pins);
    forall k | 0 <= k < ROSTER_SIZE
      ensures FindEffect(s.entries, Derived(s).effects[k]) == Some(k)
    {
      FoundAt(s.row.descriptor, s.entries, s.selection.pins, k, Derived(s).effects[k]);
    }
  }

  /** Effects name their place, so at most one entry of a roster carries a given effect. */
  lemma FoundAt(d: Descriptor, rows: seq<EntryRow>, pins: Option<Pins>, k: nat, e: Effect)
    requires RosterOk(d, rows, pins) && k < |rows| && rows[k].effect == Some(e)
    ensures FindEffect(rows, e) == Some(k)
  {
    assert EntryOk(d, k, rows[k], pins);
    var f := FindEffect(rows, e).value;
    assert EntryOk(d, f, rows[f], pins);
  }

  lemma ConfirmedComponents(t: Tables, id: SessionId)
    requires Inv(t) && id in t.sessions && t.sessions[id].state == SELECTED
    requires t.selection.phase !in {OPEN, COMPONENT_EFFECTS_SEALED}
    ensures ComponentsConfirmed(Current(t, id))
  {
    EffectsAligned(t, id);
    assert AllConfirmed(EntriesOf(t, id));
    var s := Current(t, id);
    forall k | 0 <= k < ROSTER_SIZE
      ensures s.entries[k].result.Some? && ParseResult(s.entries[k].result.value, Derived(s).effects[k]).Some?
    {
      assert EntryOk(s.row.descriptor, k, s.entries[k], s.selection.pins);
    }
  }

  /** Every reachable manifest and HOLD state is accepted by its reader. */
  lemma ManifestReaderAccepts(t: Tables)
    requires Inv(t) && Rank(t.selection.phase) >= 3
    ensures var id := t.selection.selected.value;
            && id in t.sessions
            && (t.selection.holdCode != Some(WORM_VERSION_CONFLICT) ==>
                  id in t.manifests && ManifestReadable(Current(t, id), t.manifests[id]))
            && (t.selection.phase == HOLD ==> HoldReadable(t, id))
  {
    hide SessionsOk;
    var id := t.selection.selected.value;
    ConfirmedComponents(t, id);
    ReaderAccepts(t, id);
  }

  // ---- a load spans several moments -----------------------------------------------------------

  /** The selection never comes back to a value it has left. */
  lemma SelectionNeverReturns(t: Tables, u: Tables, v: Tables)
    requires Inv(t) && Inv(u) && Inv(v) && Evolves(t, u) && Evolves(u, v)
    requires v.selection == t.selection
    ensures u.selection == t.selection
  {
  }

  /** A session that has ended never changes again. */
  lemma EndedStays(t: Tables, u: Tables, id: SessionId)
    requires Inv(t) && Inv(u) && Evolves(t, u) && id in t.sessions && Terminal(t.sessions[id].state)
    ensures id in u.sessions && u.sessions[id] == t.sessions[id]
    ensures EntriesOf(t, id) == EntriesOf(u, id) == []
  {
    assert SessionEntriesOk(t, id);
    assert RowEvolves(t.sessions[id], u.sessions[id]);
    assert SessionEntriesOk(u, id);
  }

  // ---- stale snapshots ------------------------------------------------------------------------

  function Reread(t: Tables, s: Snapshot): Snapshot {
    if s.id in t.sessions then Current(t, s.id) else s
  }

  /** The same operation, started from a read made at the moment of the transaction. */
  function Refreshed(t: Tables, op: Op): Op {
    match op
    case AbandonOp(s, now) => AbandonOp(Reread(t, s), now)
    case AdmitOp(input, _, a, b) => AdmitOp(input, NextOrdinal(t), a, b)
    case StageOp(s, e, now) => StageOp(Reread(t, s), e, now)
    case RejectOp(s) => RejectOp(Reread(t, s))
    case SealOp(s, pins, now) => SealOp(Reread(t, s), pins, now)
    case ConfirmOp(s, e, r) => ConfirmOp(Reread(t, s), e, r)
    case ManifestSealOp(s) => ManifestSealOp(Reread(t, s))
    case ManifestResultOp(s, m, e, r) =>
      ManifestResultOp(Reread(t, s), if s.id in t.manifests then t.manifests[s.id] else m, e, r)
  }

  lemma StaleStage(t: Tables, s: Snapshot, e: Envelope, now: int)
    requires Inv(t) && Settle(t, StageStep(t, s, e, now)) != t
    ensures s.id in t.sessions
    ensures StageStep(t, Current(t, s.id), e, now) == StageStep(t, s, e, now)
  {
  }

  lemma StaleConfirm(t: Tables, s: Snapshot, e: Effect, r: ResultBytes)
    requires Inv(t) && Settle(t, ConfirmStep(t, s, e, r)) != t
    ensures s.id in t.sessions
    ensures ConfirmStep(t, Current(t, s.id), e, r) == ConfirmStep(t, s, e, r)
  {
    assert SessionFence(t, s);
    EffectsAligned(t, s.id);
    var c := Current(t, s.id);
    var k := FindEffect(c.entries, e).value;
    assert Derived(c).effects[k] == e;
  }

  lemma StaleManifestResult(t: Tables, s: Snapshot, m: ManifestRow, e: Effect, r: ResultBytes)
    requires Inv(t) && Settle(t, ManifestResultStep(t, s, m, e, r)) != t
    ensures s.id in t.sessions && s.id in t.manifests
    ensures ManifestResultStep(t, Current(t, s.id), t.manifests[s.id], e, r) == ManifestResultStep(t, s, m, e, r)
  {
    assert Fenced(t, s);
    ManifestReaderAccepts(t);
    assert s == Current(t, s.id);
  }

  /** Expiry leaves ordinals alone. */
  lemma ExpireKeepsNext(t: Tables, now: int)
    requires Inv(t) && t.selection.phase == OPEN
    ensures NextOrdinal(ExpireStale(t, now)) == NextOrdinal(t) == |t.sessions| + 1
    ensures |ExpireStale(t, now).sessions| == |t.sessions|
  {
    ExpireRetires(t, now);
    RetireKeepsInv(t, ExpireStale(t, now));
    MaxOrdinalCounts(t.worker, t.sessions, MAX_LIFETIME_SESSIONS);
    MaxOrdinalCounts(t.worker, ExpireStale(t, now).sessions, MAX_LIFETIME_SESSIONS);
    assert ExpireStale(t, now).sessions.Keys == t.sessions.Keys;
    assert |ExpireStale(t, now).sessions| == |ExpireStale(t, now).sessions.Keys|;
  }

  /** An admission whose ordinal has been taken meanwhile does no more than expire stale sessions. */
  lemma StaleAdmission(t: Tables, input: Admission, ordinal: int, nowExpire: int, nowFresh: int)
    requires Inv(t) && ordinal != NextOrdinal(t)
    ensures var o := AdmitStep(t, input, ordinal, nowExpire, nowFresh);
            || o == AdmitStep(t, input, NextOrdinal(t), nowExpire, nowFresh)
            || o == AdmitRetry(ExpireStale(t, nowExpire))
  {
    if t.selection.phase == OPEN {
      ExpireKeepsNext(t, nowExpire);
    }
  }

  /**
   * A transaction that commits from a snapshot of any age fails, changes nothing, or does exactly
   * what the same operation would do from a snapshot read at that very moment. (A stale admission
   * may also do just the expiry.)
   */
  lemma StaleIsFresh(t: Tables, op: Op)
    requires Inv(t)
    ensures || Apply(t, op) == t
            || Apply(t, op) == Apply(t, Refreshed(t, op))
            || (op.AdmitOp? && Apply(t, op) == ExpireStale(t, op.nowExpire))
  {
    hide SessionsOk;
    if Apply(t, op) != t {
      match op
      case AbandonOp(s, now) => assert s == Current(t, s.id);
      case AdmitOp(input, ordinal, a, b) =>
        if ordinal != NextOrdinal(t) {
          StaleAdmission(t, input, ordinal, a, b);
        }
      case StageOp(s, e, now) => StaleStage(t, s, e, now);
      case RejectOp(s) => assert s == Current(t, s.id);
      case SealOp(s, pins, now) => assert s == Current(t, s.id);
      case ConfirmOp(s, e, r) => StaleConfirm(t, s, e, r);
      case ManifestSealOp(s) => assert s == Current(t, s.id);
      case ManifestResultOp(s, m, e, r) => StaleManifestResult(t, s, m, e, r);
    }
  }
}
