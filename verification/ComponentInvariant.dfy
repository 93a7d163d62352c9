/**
 * The invariant that couples the four tables, and the proof that every transaction keeps it,
 * whatever the age of the snapshot it commits from.
 */
module ComponentInvariant {
  import opened Foundation
  import opened Clock
  import opened ComponentTypes
  import opened ComponentReader
  import opened ComponentSteps

  // ---- what holds of the tables between transactions ------------------------------------------

  predicate SessionOk(worker: Name, rows: map<SessionId, SessionRow>, id: SessionId)
    requires id in rows
  {
    var row := rows[id];
    && IdentityHolds(worker, id, row)
    && IsStamp(row.freshUntil)
    && row.generation <= row.ordinal <= |rows|
    && match row.predecessor
       case None => row.generation == 1
       case Some(p) => row.generation > 1 && p in rows && PredecessorMatches(row, rows[p])
  }

  /** No two sessions share an ordinal, nor a generation of the same set. */
  predicate Apart(rows: map<SessionId, SessionRow>, a: SessionId, b: SessionId)
    requires a in rows && b in rows
  {
    && (rows[a].ordinal == rows[b].ordinal ==> a == b)
    && (rows[a].setId == rows[b].setId && rows[a].generation == rows[b].generation ==> a == b)
  }

  /** Ordinals are exactly 1..n, generations are unique within a set, capacities hold. */
  predicate SessionsOk(worker: Name, rows: map<SessionId, SessionRow>) {
    && |rows| <= MAX_LIFETIME_SESSIONS
    && |LiveSessions(rows)| <= MAX_LIVE_SESSIONS
    && (forall id {:trigger SessionOk(worker, rows, id)} :: id in rows ==> SessionOk(worker, rows, id))
    && (forall a, b {:trigger Apart(rows, a, b)} :: a in rows && b in rows ==> Apart(rows, a, b))
    && (forall k :: 1 <= k <= |rows| ==> HasOrdinal(rows, k))
  }

  predicate EntryOk(d: Descriptor, k: int, row: EntryRow, pins: Option<Pins>)
    requires 0 <= k < |d.payloads|
  {
    var env := Envelope(d, k, d.payloads[k]);
    && row.expectedPayload == d.payloads[k]
    && match row.status
       case EntryExpected => row.envelope.None? && row.effect.None? && row.result.None?
       case EntryStaged => row.envelope == Some(env) && row.effect.None? && row.result.None?
       case EntrySealed =>
         && row.envelope == Some(env) && pins.Some?
         && row.effect == Some(ComponentEffect(env, pins.value)) && row.result.None?
       case EntryConfirmed =>
         && row.envelope == Some(env) && pins.Some?
         && row.effect == Some(ComponentEffect(env, pins.value))
         && row.result.Some? && ParseResult(row.result.value, row.effect.value).Some?
  }

  predicate RosterOk(d: Descriptor, rows: seq<EntryRow>, pins: Option<Pins>) {
    && |rows| == |d.payloads| == ROSTER_SIZE
    && forall k :: 0 <= k < |rows| ==> EntryOk(d, k, rows[k], pins)
  }

  predicate StatusesOk(state: SessionState, rows: seq<EntryRow>) {
    match state
    case PROVISIONAL => SomeAt(rows, EntryExpected) && AllIn(rows, {EntryExpected, EntryStaged})
    case STAGED => AllIn(rows, {EntryStaged})
    case SELECTED => AllIn(rows, {EntrySealed, EntryConfirmed})
    case _ => false
  }

  predicate EntriesOk(t: Tables) {
    && t.entries.Keys <= t.sessions.Keys
    && forall id {:trigger SessionEntriesOk(t, id)} :: id in t.sessions ==> SessionEntriesOk(t, id)
  }

  predicate SessionEntriesOk(t: Tables, id: SessionId)
    requires id in t.sessions
  {
    var row := t.sessions[id];
    if Terminal(row.state) then id !in t.entries
    else
      && id in t.entries
      && RosterOk(row.descriptor, t.entries[id], RowPins(row, t.selection))
      && StatusesOk(row.state, t.entries[id])
  }

  predicate ManifestOk(m: ManifestRow, d: Descriptor, rows: seq<EntryRow>, pins: Pins)
    requires forall k :: 0 <= k < |rows| ==> rows[k].result.Some?
  {
    && m.manifest == Manifest(d, Worms(rows))
    && m.effect == ManifestEffect(m.manifest, pins)
    && ManifestResultReadable(m, Worms(rows))
  }

  /** Every row confirmed: the roster then carries a result in each place. */
  predicate AllConfirmed(rows: seq<EntryRow>) {
    forall k :: 0 <= k < |rows| ==> rows[k].status == EntryConfirmed && rows[k].result.Some?
  }

  predicate OneManifest(manifests: map<SessionId, ManifestRow>, id: SessionId, status: ManifestStatus,
                        d: Descriptor, rows: seq<EntryRow>, pins: Pins) {
    && manifests.Keys == {id}
    && manifests[id].status == status
    && AllConfirmed(rows)
    && !HasDuplicateVersions(Worms(rows))
    && ManifestOk(manifests[id], d, rows, pins)
  }

  predicate PhaseOk(sel: SelectionRow, id: SessionId, d: Descriptor, rows: seq<EntryRow>,
                    manifests: map<SessionId, ManifestRow>)
    requires sel.pins.Some?
  {
    match sel.phase
    case OPEN => false
    case COMPONENT_EFFECTS_SEALED => sel.holdCode.None? && SomeAt(rows, EntrySealed) && manifests == map[]
    case COMPONENTS_CONFIRMED => sel.holdCode.None? && AllConfirmed(rows) && manifests == map[]
    case MANIFEST_EFFECT_SEALED =>
      sel.holdCode.None? && OneManifest(manifests, id, ManifestSealed, d, rows, sel.pins.value)
    case CONFIRMED =>
      sel.holdCode.None? && OneManifest(manifests, id, ManifestConfirmed, d, rows, sel.pins.value)
    case HOLD =>
      match sel.holdCode
      case None => false
      case Some(WORM_VERSION_CONFLICT) =>
        AllConfirmed(rows) && HasDuplicateVersions(Worms(rows)) && manifests == map[]
      case Some(MANIFEST_VERSION_CONFLICT) =>
        OneManifest(manifests, id, ManifestResultConfirmed, d, rows, sel.pins.value)
  }

  predicate SelectionOk(t: Tables) {
    if t.selection.phase == OPEN then
      && t.selection == OPEN_SELECTION
      && t.manifests == map[]
      && forall id :: id in t.sessions ==> t.sessions[id].state != SELECTED
    else
      && t.selection.selected.Some? && t.selection.pins.Some? && ValidPins(t.selection.pins.value)
      && var id := t.selection.selected.value;
         && id in t.sessions && t.sessions[id].state == SELECTED
         && (forall x :: x in t.sessions && x != id ==> Terminal(t.sessions[x].state))
         && PhaseOk(t.selection, id, t.sessions[id].descriptor, EntriesOf(t, id), t.manifests)
  }

  predicate Inv(t: Tables) {
    SessionsOk(t.worker, t.sessions) && EntriesOk(t) && SelectionOk(t)
  }

  // ---- sessions -------------------------------------------------------------------------------

  /** A row keeps everything but its state, and only a live state may change. */
  predicate RowAdvances(a: SessionRow, b: SessionRow) {
    && SameIdentity(a, b)
    && (Live(a.state) || b.state == a.state)
    && (Live(b.state) ==> Live(a.state))
  }

  predicate Advanced(rows: map<SessionId, SessionRow>, rows': map<SessionId, SessionRow>) {
    && rows'.Keys == rows.Keys
    && forall id {:trigger rows'[id]} :: id in rows ==> RowAdvances(rows[id], rows'[id])
  }

  lemma SubsetCard<T>(a: set<T>, b: set<T>)
    requires a <= b
    ensures |a| <= |b|
  {
    assert b == a + (b - a);
  }

  lemma AdvancedKeepsSession(worker: Name, rows: map<SessionId, SessionRow>, rows': map<SessionId, SessionRow>,
                             id: SessionId)
    requires |rows'| == |rows| && Advanced(rows, rows') && id in rows
    requires forall x {:trigger SessionOk(worker, rows, x)} :: x in rows ==> SessionOk(worker, rows, x)
    ensures SessionOk(worker, rows', id)
  {
    assert SessionOk(worker, rows, id);
    assert RowAdvances(rows[id], rows'[id]);
    if rows[id].predecessor.Some? {
      var p := rows[id].predecessor.value;
      assert RowAdvances(rows[p], rows'[p]);
    }
  }

  lemma AdvancedKeepsSessions(worker: Name, rows: map<SessionId, SessionRow>, rows': map<SessionId, SessionRow>)
    requires SessionsOk(worker, rows) && Advanced(rows, rows')
    ensures SessionsOk(worker, rows')
  {
    assert |rows'| == |rows'.Keys| == |rows|;
    SubsetCard(LiveSessions(rows'), LiveSessions(rows));
    forall id | id in rows' ensures SessionOk(worker, rows', id) {
      AdvancedKeepsSession(worker, rows, rows', id);
    }
    forall k | 1 <= k <= |rows'| ensures HasOrdinal(rows', k) {
      assert HasOrdinal(rows, k);
      var id :| id in rows && rows[id].ordinal == k;
      assert id in rows' && rows'[id].ordinal == k;
    }
    forall a, b | a in rows' && b in rows' ensures Apart(rows', a, b) {
      assert Apart(rows, a, b);
    }
  }

  /** `MAX(journal_ordinal)` is the number of sessions ever admitted. */
  lemma {:induction false} MaxOrdinalCounts(worker: Name, rows: map<SessionId, SessionRow>, bound: nat)
    requires SessionsOk(worker, rows)
    requires |rows| <= bound
    ensures MaxOrdinal(rows, bound) == |rows|
  {
    if bound > |rows| {
      forall id | id in rows ensures rows[id].ordinal != bound {
        assert SessionOk(worker, rows, id);
      }
      MaxOrdinalCounts(worker, rows, bound - 1);
    } else if bound > 0 {
      assert HasOrdinal(rows, bound);
    }
  }

  /** A session of a lower generation of the same set is abandoned, and came strictly earlier. */
  lemma {:induction false} AncestorAbandoned(worker: Name, rows: map<SessionId, SessionRow>, a: SessionId, b: SessionId)
    requires SessionsOk(worker, rows) && a in rows && b in rows
    requires rows[a].setId == rows[b].setId && rows[a].generation < rows[b].generation
    ensures rows[a].state == ABANDONED
    ensures rows[a].ordinal < rows[b].ordinal
    ensures rows[a].freshUntil < rows[b].committedAt
    decreases rows[b].generation
  {
    assert SessionOk(worker, rows, a) && SessionOk(worker, rows, b);
    var p := rows[b].predecessor.value;
    assert SessionOk(worker, rows, p);
    if rows[a].generation < rows[p].generation {
      AncestorAbandoned(worker, rows, a, p);
    } else {
      assert Apart(rows, a, p);
    }
  }

  /** At most one session per set is not yet terminal: the two unique indexes can never fire. */
  lemma OneActivePerSet(worker: Name, rows: map<SessionId, SessionRow>, a: SessionId, b: SessionId)
    requires SessionsOk(worker, rows) && a in rows && b in rows && rows[a].setId == rows[b].setId
    requires !Terminal(rows[a].state) && !Terminal(rows[b].state)
    ensures a == b
  {
    assert Apart(rows, a, b);
    if rows[a].generation < rows[b].generation {
      AncestorAbandoned(worker, rows, a, b);
    } else if rows[b].generation < rows[a].generation {
      AncestorAbandoned(worker, rows, b, a);
    }
  }

  /** The generations of a set have no gap. */
  lemma {:induction false} GenerationsContiguous(worker: Name, rows: map<SessionId, SessionRow>, b: SessionId, g: int)
    returns (a: SessionId)
    requires SessionsOk(worker, rows) && b in rows && 1 <= g <= rows[b].generation
    ensures a in rows && rows[a].setId == rows[b].setId && rows[a].generation == g
    decreases rows[b].generation
  {
    assert SessionOk(worker, rows, b);
    if g == rows[b].generation {
      a := b;
    } else {
      var p := rows[b].predecessor.value;
      assert SessionOk(worker, rows, p);
      a := GenerationsContiguous(worker, rows, p, g);
    }
  }

  // ---- insertion ------------------------------------------------------------------------------

  /** A session that carries the generation an admission asks for is the existing one it looks for. */
  lemma SameGenerationIsExisting(t: Tables, input: Admission, ordinal: int, a: SessionId)
    requires SessionsOk(t.worker, t.sessions) && WellFormed(t.worker, input)
    requires PredecessorAdmits(t, input, ordinal)
    requires a in t.sessions && t.sessions[a].setId == SetOf(input.descriptor)
    requires t.sessions[a].generation == input.generation
    ensures IsExisting(t, input, a)
  {
    if input.predecessor.Some? {
      assert SessionOk(t.worker, t.sessions, a);
      var q := t.sessions[a].predecessor.value;
      assert SessionOk(t.worker, t.sessions, q);
      assert Apart(t.sessions, q, input.predecessor.value);
    }
  }

  /** Nothing in the table carries the generation about to be inserted, or a later one. */
  lemma NewGenerationFree(t: Tables, input: Admission, ordinal: int, id: SessionId)
    requires SessionsOk(t.worker, t.sessions) && WellFormed(t.worker, input)
    requires forall x :: !IsExisting(t, input, x)
    requires PredecessorAdmits(t, input, ordinal)
    requires id in t.sessions && t.sessions[id].setId == SetOf(input.descriptor)
    ensures t.sessions[id].generation < input.generation
  {
    if t.sessions[id].generation >= input.generation {
      var a := GenerationsContiguous(t.worker, t.sessions, id, input.generation);
      SameGenerationIsExisting(t, input, ordinal, a);
    }
  }

  lemma OrdinalsBelow(t: Tables, x: SessionId, ordinal: int)
    requires SessionsOk(t.worker, t.sessions) && x in t.sessions && ordinal == |t.sessions| + 1
    ensures t.sessions[x].ordinal == x.ordinal < ordinal
  {
    assert SessionOk(t.worker, t.sessions, x);
  }

  lemma InsertKeepsOrdinals(t: Tables, input: Admission, ordinal: int, k: int)
    requires SessionsOk(t.worker, t.sessions) && ordinal == |t.sessions| + 1 && 1 <= k <= ordinal
    requires AdmittedId(input, ordinal) !in t.sessions
    ensures HasOrdinal(Insert(t, input, ordinal).sessions, k)
  {
    var rows, rows' := t.sessions, Insert(t, input, ordinal).sessions;
    if k == ordinal {
      assert AdmittedId(input, ordinal) in rows' && rows'[AdmittedId(input, ordinal)].ordinal == k;
    } else {
      assert HasOrdinal(rows, k);
      var x :| x in rows && rows[x].ordinal == k;
      assert x in rows' && rows'[x].ordinal == k;
    }
  }

  lemma InsertKeepsApart(t: Tables, input: Admission, ordinal: int, x: SessionId)
    requires SessionsOk(t.worker, t.sessions) && WellFormed(t.worker, input) && ordinal == |t.sessions| + 1
    requires PredecessorAdmits(t, input, ordinal)
    requires forall x :: !IsExisting(t, input, x)
    requires x in t.sessions && AdmittedId(input, ordinal) !in t.sessions
    ensures Apart(Insert(t, input, ordinal).sessions, x, AdmittedId(input, ordinal))
    ensures Apart(Insert(t, input, ordinal).sessions, AdmittedId(input, ordinal), x)
  {
    OrdinalsBelow(t, x, ordinal);
    if t.sessions[x].setId == SetOf(input.descriptor) {
      NewGenerationFree(t, input, ordinal, x);
    }
  }

  lemma InsertKeepsSession(t: Tables, input: Admission, ordinal: int, x: SessionId)
    requires SessionsOk(t.worker, t.sessions) && WellFormed(t.worker, input)
    requires |t.sessions| < MAX_LIFETIME_SESSIONS && ordinal == |t.sessions| + 1
    requires IsStamp(input.descriptor.committedAt + TTL_MS)
    requires PredecessorAdmits(t, input, ordinal)
    requires AdmittedId(input, ordinal) !in t.sessions
    requires x in Insert(t, input, ordinal).sessions
    ensures SessionOk(t.worker, Insert(t, input, ordinal).sessions, x)
  {
    var rows' := Insert(t, input, ordinal).sessions;
    assert rows'.Keys == t.sessions.Keys + {AdmittedId(input, ordinal)};
    if x != AdmittedId(input, ordinal) {
      assert SessionOk(t.worker, t.sessions, x);
    } else if input.predecessor.Some? {
      assert SessionOk(t.worker, t.sessions, input.predecessor.value);
    }
  }

  lemma InsertKeepsAllApart(t: Tables, input: Admission, ordinal: int, a: SessionId, b: SessionId)
    requires SessionsOk(t.worker, t.sessions) && WellFormed(t.worker, input) && ordinal == |t.sessions| + 1
    requires PredecessorAdmits(t, input, ordinal)
    requires forall x :: !IsExisting(t, input, x)
    requires AdmittedId(input, ordinal) !in t.sessions
    requires a in Insert(t, input, ordinal).sessions && b in Insert(t, input, ordinal).sessions
    ensures Apart(Insert(t, input, ordinal).sessions, a, b)
  {
    var id := AdmittedId(input, ordinal);
    if b == id && a != id {
      InsertKeepsApart(t, input, ordinal, a);
    } else if a == id && b != id {
      InsertKeepsApart(t, input, ordinal, b);
    } else if a != id {
      assert Apart(t.sessions, a, b);
    }
  }

  lemma InsertCounts(t: Tables, input: Admission, ordinal: int)
    requires AdmittedId(input, ordinal) !in t.sessions
    ensures var rows := Insert(t, input, ordinal).sessions;
            && |rows| == |t.sessions| + 1 && |LiveSessions(rows)| == |LiveSessions(t.sessions)| + 1
  {
    var id := AdmittedId(input, ordinal);
    var rows := Insert(t, input, ordinal).sessions;
    assert rows.Keys == t.sessions.Keys + {id};
    assert LiveSessions(rows) == LiveSessions(t.sessions) + {id};
  }

  lemma InsertKeepsSessions(t: Tables, input: Admission, ordinal: int)
    requires SessionsOk(t.worker, t.sessions) && WellFormed(t.worker, input)
    requires |LiveSessions(t.sessions)| < MAX_LIVE_SESSIONS && |t.sessions| < MAX_LIFETIME_SESSIONS
    requires IsStamp(input.descriptor.committedAt + TTL_MS)
    requires ordinal == |t.sessions| + 1
    requires PredecessorAdmits(t, input, ordinal)
    requires forall x :: !IsExisting(t, input, x)
    ensures AdmittedId(input, ordinal) !in t.sessions
    ensures SessionsOk(t.worker, Insert(t, input, ordinal).sessions)
  {
    var id := AdmittedId(input, ordinal);
    var rows, rows' := t.sessions, Insert(t, input, ordinal).sessions;
    forall x | x in rows ensures x != id {
      OrdinalsBelow(t, x, ordinal);
    }
    InsertCounts(t, input, ordinal);
    hide SessionOk, Apart, HasOrdinal, Insert, PredecessorAdmits, WellFormed, LiveSessions;
    forall x | x in rows' ensures SessionOk(t.worker, rows', x) {
      InsertKeepsSession(t, input, ordinal, x);
    }
    forall a, b | a in rows' && b in rows' ensures Apart(rows', a, b) {
      InsertKeepsAllApart(t, input, ordinal, a, b);
    }
    forall k | 1 <= k <= |rows'| ensures HasOrdinal(rows', k) {
      InsertKeepsOrdinals(t, input, ordinal, k);
    }
  }
}
