/**
 * What a reader of the journal may rely on between any two moments of any run, and why the table
 * constraints and triggers are a second line of defence that never has to act.
 */
module ComponentRuns {
  import opened Foundation
  import opened Clock
  import opened ComponentTypes
  import opened ComponentReader
  import opened ComponentSteps
  import opened ComponentInvariant
  import opened ComponentSafety

  // ---- decisions are final --------------------------------------------------------------------

  predicate StateReaches(a: SessionState, b: SessionState) {
    a == b || a == PROVISIONAL || (a == STAGED && b != PROVISIONAL)
  }

  function Rank(p: Phase): nat {
    match p
    case OPEN => 0
    case COMPONENT_EFFECTS_SEALED => 1
    case COMPONENTS_CONFIRMED => 2
    case MANIFEST_EFFECT_SEALED => 3
    case CONFIRMED => 4
    case HOLD => 4
  }

  predicate PhaseReaches(a: Phase, b: Phase) {
    a == b || Rank(a) < Rank(b)
  }

  /** A field once written stays; a confirmed row never changes at all. */
  predicate EntryEvolves(a: EntryRow, b: EntryRow) {
    && b.expectedPayload == a.expectedPayload
    && Keeps(a.envelope, b.envelope) && Keeps(a.effect, b.effect) && Keeps(a.result, b.result)
    && (a.status == EntryConfirmed ==> b == a)
  }

  predicate RosterEvolves(a: seq<EntryRow>, b: seq<EntryRow>) {
    |a| == |b| && forall k :: 0 <= k < |a| ==> EntryEvolves(a[k], b[k])
  }

  predicate ManifestEvolves(a: ManifestRow, b: ManifestRow) {
    SameSeal(a, b) && (a.status == ManifestSealed || b == a)
  }

  predicate RowEvolves(a: SessionRow, b: SessionRow) {
    SameIdentity(a, b) && StateReaches(a.state, b.state)
  }

  predicate Evolves(t: Tables, u: Tables) {
    && u.worker == t.worker
    && t.sessions.Keys <= u.sessions.Keys
    && (forall id {:trigger u.sessions[id]} :: id in t.sessions ==> RowEvolves(t.sessions[id], u.sessions[id]))
    && (forall id {:trigger u.entries[id]} :: id in t.entries && id in u.entries ==>
          RosterEvolves(t.entries[id], u.entries[id]))
    && PhaseReaches(t.selection.phase, u.selection.phase)
    && t.manifests.Keys <= u.manifests.Keys
    && (forall id {:trigger u.manifests[id]} :: id in t.manifests ==>
          ManifestEvolves(t.manifests[id], u.manifests[id]))
    && (t.selection.phase != OPEN ==>
          && u.sessions == t.sessions
          && u.entries.Keys == t.entries.Keys
          && u.selection.selected == t.selection.selected
          && u.selection.pins == t.selection.pins)
    && (Rank(t.selection.phase) == 4 ==> u == t)
  }

  lemma EvolvesReflexive(t: Tables)
    ensures Evolves(t, t)
  {
  }

  lemma RostersCompose(a: seq<EntryRow>, b: seq<EntryRow>, c: seq<EntryRow>)
    requires RosterEvolves(a, b) && RosterEvolves(b, c)
    ensures RosterEvolves(a, c)
  {
    forall k | 0 <= k < |a| ensures EntryEvolves(a[k], c[k]) {
      assert EntryEvolves(a[k], b[k]) && EntryEvolves(b[k], c[k]);
    }
  }

  /** Entries are only ever dropped for good: a session that has lost its roster has ended. */
  lemma EvolvesTransitive(t: Tables, u: Tables, v: Tables)
    requires Evolves(t, u) && Evolves(u, v)
    requires EntriesOk(t) && EntriesOk(u) && EntriesOk(v)
    ensures Evolves(t, v)
  {
    forall id | id in t.sessions ensures RowEvolves(t.sessions[id], v.sessions[id]) {
      assert RowEvolves(t.sessions[id], u.sessions[id]) && RowEvolves(u.sessions[id], v.sessions[id]);
    }
    forall id | id in t.entries && id in v.entries ensures RosterEvolves(t.entries[id], v.entries[id]) {
      assert SessionEntriesOk(t, id) && SessionEntriesOk(u, id) && SessionEntriesOk(v, id);
      assert RowEvolves(u.sessions[id], v.sessions[id]);
      RostersCompose(t.entries[id], u.entries[id], v.entries[id]);
    }
    forall id | id in t.manifests ensures ManifestEvolves(t.manifests[id], v.manifests[id]) {
      assert ManifestEvolves(t.manifests[id], u.manifests[id]) && ManifestEvolves(u.manifests[id], v.manifests[id]);
    }
  }

  lemma RetireEvolves(t: Tables, u: Tables)
    requires Inv(t) && Retires(t, u)
    ensures Evolves(t, u)
  {
    hide SessionsOk, SelectionOk;
    forall id | id in t.sessions ensures RowEvolves(t.sessions[id], u.sessions[id]) {
      assert RowRetires(t.sessions[id], u.sessions[id]);
    }
  }

  lemma InsertEvolves(t: Tables, input: Admission, ordinal: int)
    requires EntriesOk(t) && t.selection.phase == OPEN
    requires AdmittedId(input, ordinal) !in t.sessions
    ensures Evolves(t, Insert(t, input, ordinal))
  {
    var u := Insert(t, input, ordinal);
    forall id | id in t.sessions ensures RowEvolves(t.sessions[id], u.sessions[id]) {
      assert u.sessions[id] == t.sessions[id];
    }
  }

  lemma AdmitEvolves(t: Tables, input: Admission, ordinal: int, nowExpire: int, nowFresh: int)
    requires Inv(t) && WellFormed(t.worker, input)
    ensures Evolves(t, SettleAdmission(t, AdmitStep(t, input, ordinal, nowExpire, nowFresh)))
  {
    var o := AdmitStep(t, input, ordinal, nowExpire, nowFresh);
    if SettleAdmission(t, o) == t {
      EvolvesReflexive(t);
    } else {
      ExpireKeepsExisting(t, input, nowExpire);
      ExpireRetires(t, nowExpire);
      var e := ExpireStale(t, nowExpire);
      RetireKeepsInv(t, e);
      RetireEvolves(t, e);
      if o.AdmitResolved? {
        InsertKeepsInv(e, input, ordinal);
        InsertEvolves(e, input, ordinal);
        EvolvesTransitive(t, e, o.tables);
      }
    }
  }

  lemma StageEvolves(t: Tables, s: Snapshot, e: Envelope, now: int)
    requires Inv(t) && StageStep(t, s, e, now).Committed?
    ensures Evolves(t, StageStep(t, s, e, now).tables)
  {
    hide SessionsOk, SelectionOk, Fresh, SomeAt;
    EvolvesReflexive(t);
    var u := StageStep(t, s, e, now).tables;
    if u != t {
      assert SessionEntriesOk(t, s.id);
      assert EntryOk(t.sessions[s.id].descriptor, e.kind, t.entries[s.id][e.kind], None);
      assert RosterEvolves(t.entries[s.id], u.entries[s.id]);
      forall id | id in t.sessions ensures RowEvolves(t.sessions[id], u.sessions[id]) {
      }
    }
  }

  lemma SealedEvolve(d: Descriptor, rows: seq<EntryRow>, envelopes: seq<Envelope>, pins: Pins)
    requires RosterOk(d, rows, None) && AllIn(rows, {EntryStaged}) && |envelopes| == |rows|
    ensures RosterEvolves(rows, Sealed(rows, envelopes, pins))
  {
    forall k | 0 <= k < |rows| ensures EntryEvolves(rows[k], Sealed(rows, envelopes, pins)[k]) {
      assert EntryOk(d, k, rows[k], None);
    }
  }

  lemma ClaimEvolves(t: Tables, id: SessionId, sealed: seq<EntryRow>, pins: Pins)
    requires t.selection.phase == OPEN && t.manifests == map[]
    requires id in t.sessions && t.sessions[id].state == STAGED
    requires id in t.entries && RosterEvolves(t.entries[id], sealed)
    ensures Evolves(t, Claim(t, id, sealed, pins))
  {
    var u := Claim(t, id, sealed, pins);
    assert u.sessions.Keys == t.sessions.Keys;
    forall x | x in t.sessions ensures RowEvolves(t.sessions[x], u.sessions[x]) {
    }
  }

  lemma SealEvolves(t: Tables, s: Snapshot, pins: Pins, now: int)
    requires Inv(t) && SealStep(t, s, pins, now).Committed?
    ensures Evolves(t, SealStep(t, s, pins, now).tables)
  {
    var u := SealStep(t, s, pins, now).tables;
    if t.selection.phase == OPEN {
      assert SessionEntriesOk(t, s.id);
      SealedEvolve(s.row.descriptor, s.entries, Derived(s).envelopes, pins);
      ClaimEvolves(t, s.id, Sealed(s.entries, Derived(s).envelopes, pins), pins);
    } else {
      EvolvesReflexive(t);
    }
  }

  /** After the group claim only entry results, the phase and the manifest row can move. */
  lemma ClosedEvolves(t: Tables, u: Tables)
    requires t.selection.phase != OPEN && Rank(t.selection.phase) < 4
    requires u.worker == t.worker && u.sessions == t.sessions
    requires u.entries.Keys == t.entries.Keys
    requires forall id :: id in t.entries ==> RosterEvolves(t.entries[id], u.entries[id])
    requires PhaseReaches(t.selection.phase, u.selection.phase)
    requires u.selection.selected == t.selection.selected && u.selection.pins == t.selection.pins
    requires t.manifests.Keys <= u.manifests.Keys
    requires forall id :: id in t.manifests ==> ManifestEvolves(t.manifests[id], u.manifests[id])
    ensures Evolves(t, u)
  {
  }

  lemma ConfirmedEvolve(d: Descriptor, rows: seq<EntryRow>, pins: Option<Pins>, k: nat, r: ResultBytes)
    requires RosterOk(d, rows, pins) && k < |rows| && rows[k].status == EntrySealed
    ensures RosterEvolves(rows, Confirmed(rows, k, r))
  {
    assert EntryOk(d, k, rows[k], pins);
  }

  lemma ConfirmEvolves(t: Tables, s: Snapshot, e: Effect, r: ResultBytes)
    requires Inv(t) && ConfirmStep(t, s, e, r).Committed?
    ensures Evolves(t, ConfirmStep(t, s, e, r).tables)
  {
    hide SessionsOk;
    var u := ConfirmStep(t, s, e, r).tables;
    if u == t {
      EvolvesReflexive(t);
    } else {
      assert SessionEntriesOk(t, s.id);
      ConfirmedEvolve(s.row.descriptor, t.entries[s.id], t.selection.pins, FindEffect(t.entries[s.id], e).value, r);
      ClosedEvolves(t, u);
    }
  }

  lemma ManifestSealEvolves(t: Tables, s: Snapshot)
    requires Inv(t) && ManifestSealStep(t, s).Committed?
    ensures Evolves(t, ManifestSealStep(t, s).tables)
  {
    hide SessionsOk;
    var u := ManifestSealStep(t, s).tables;
    if u == t {
      EvolvesReflexive(t);
    } else {
      assert t.manifests == map[];
      ClosedEvolves(t, u);
    }
  }

  lemma ManifestResultEvolves(t: Tables, s: Snapshot, m: ManifestRow, e: Effect, r: ResultBytes)
    requires Inv(t) && ManifestResultStep(t, s, m, e, r).Committed?
    ensures Evolves(t, ManifestResultStep(t, s, m, e, r).tables)
  {
    var u := ManifestResultStep(t, s, m, e, r).tables;
    if u == t {
      EvolvesReflexive(t);
    } else {
      ClosedEvolves(t, u);
    }
  }

  /** No transaction, from a snapshot of any age, takes back anything. */
  lemma ApplyEvolves(t: Tables, op: Op)
    requires Inv(t)
    ensures Evolves(t, Apply(t, op))
  {
    EvolvesReflexive(t);
    match op
    case AbandonOp(s, now) =>
      if AbandonStep(t, s, now).Committed? {
        AbandonRetires(t, s, now);
        RetireEvolves(t, Apply(t, op));
      }
    case AdmitOp(input, ordinal, a, b) =>
      if WellFormed(t.worker, input) {
        AdmitEvolves(t, input, ordinal, a, b);
      }
    case StageOp(s, e, now) =>
      if StageStep(t, s, e, now).Committed? {
        StageEvolves(t, s, e, now);
      }
    case RejectOp(s) =>
      if RejectStep(t, s).Committed? {
        RejectRetires(t, s);
        RetireEvolves(t, Apply(t, op));
      }
    case SealOp(s, pins, now) =>
      if SealStep(t, s, pins, now).Committed? {
        SealEvolves(t, s, pins, now);
      }
    case ConfirmOp(s, e, r) =>
      if ConfirmStep(t, s, e, r).Committed? {
        ConfirmEvolves(t, s, e, r);
      }
    case ManifestSealOp(s) =>
      if ManifestSealStep(t, s).Committed? {
        ManifestSealEvolves(t, s);
      }
    case ManifestResultOp(s, m, e, r) =>
      if ManifestResultStep(t, s, m, e, r).Committed? {
        ManifestResultEvolves(t, s, m, e, r);
      }
  }

  lemma StageSafe(t: Tables, s: Snapshot, e: Envelope, now: int)
    requires Inv(t)
    ensures Inv(Settle(t, StageStep(t, s, e, now))) && Evolves(t, Settle(t, StageStep(t, s, e, now)))
  {
    EvolvesReflexive(t);
    if StageStep(t, s, e, now).Committed? {
      StageKeepsInv(t, s, e, now);
      StageEvolves(t, s, e, now);
    }
  }

  lemma RejectSafe(t: Tables, s: Snapshot)
    requires Inv(t)
    ensures Inv(Settle(t, RejectStep(t, s))) && Evolves(t, Settle(t, RejectStep(t, s)))
  {
    EvolvesReflexive(t);
    if RejectStep(t, s).Committed? {
      RejectRetires(t, s);
      RetireKeepsInv(t, RejectStep(t, s).tables);
      RetireEvolves(t, RejectStep(t, s).tables);
    }
  }

  lemma SealSafe(t: Tables, s: Snapshot, pins: Pins, now: int)
    requires Inv(t)
    ensures Inv(Settle(t, SealStep(t, s, pins, now))) && Evolves(t, Settle(t, SealStep(t, s, pins, now)))
  {
    EvolvesReflexive(t);
    if SealStep(t, s, pins, now).Committed? {
      SealKeepsInv(t, s, pins, now);
      SealEvolves(t, s, pins, now);
    }
  }

  lemma ConfirmSafe(t: Tables, s: Snapshot, e: Effect, r: ResultBytes)
    requires Inv(t)
    ensures Inv(Settle(t, ConfirmStep(t, s, e, r))) && Evolves(t, Settle(t, ConfirmStep(t, s, e, r)))
  {
    EvolvesReflexive(t);
    if ConfirmStep(t, s, e, r).Committed? {
      ConfirmKeepsInv(t, s, e, r);
      ConfirmEvolves(t, s, e, r);
    }
  }

  lemma ManifestSealSafe(t: Tables, s: Snapshot)
    requires Inv(t)
    ensures Inv(Settle(t, ManifestSealStep(t, s))) && Evolves(t, Settle(t, ManifestSealStep(t, s)))
  {
    EvolvesReflexive(t);
    if ManifestSealStep(t, s).Committed? {
      ManifestSealKeepsInv(t, s);
      ManifestSealEvolves(t, s);
    }
  }

  lemma ManifestResultSafe(t: Tables, s: Snapshot, m: ManifestRow, e: Effect, r: ResultBytes)
    requires Inv(t)
    ensures var u := Settle(t, ManifestResultStep(t, s, m, e, r)); Inv(u) && Evolves(t, u)
  {
    EvolvesReflexive(t);
    if ManifestResultStep(t, s, m, e, r).Committed? {
      ManifestResultKeepsInv(t, s, m, e, r);
      ManifestResultEvolves(t, s, m, e, r);
    }
  }

  lemma {:induction false} RunKeeps(t: Tables, ops: seq<Op>)
    requires Inv(t)
    ensures Inv(Run(t, ops))
    ensures Evolves(t, Run(t, ops))
    decreases |ops|
  {
    if ops != [] {
      var u := Apply(t, ops[0]);
      ApplyKeepsInv(t, ops[0]);
      ApplyEvolves(t, ops[0]);
      RunKeeps(u, ops[1..]);
      EvolvesTransitive(t, u, Run(u, ops[1..]));
    }
  }

  // ---- the coupling of the four tables --------------------------------------------------------

  ghost predicate Coupled(t: Tables) {
    if t.selection.phase == OPEN then
      && t.selection == OPEN_SELECTION
      && t.manifests == map[]
      && (forall id :: id in t.sessions ==> t.sessions[id].state != SELECTED)
      && (forall id :: id in t.entries ==> AllIn(t.entries[id], {EntryExpected, EntryStaged}))
    else
      && t.selection.selected.Some? && t.selection.pins.Some?
      && var claimed := t.selection.selected.value;
         && (forall id :: id in t.sessions ==> (t.sessions[id].state == SELECTED <==> id == claimed))
         && (forall id :: id in t.sessions && id != claimed ==> Terminal(t.sessions[id].state))
         && claimed in t.sessions
         && t.entries.Keys == {claimed}
         && |t.entries[claimed]| == ROSTER_SIZE
         && AllIn(t.entries[claimed], {EntrySealed, EntryConfirmed})
         && (t.selection.phase == COMPONENT_EFFECTS_SEALED <==> SomeAt(t.entries[claimed], EntrySealed))
         && t.manifests.Keys <= {claimed}
  }

  lemma InvCoupled(t: Tables)
    requires Inv(t)
    ensures Coupled(t)
  {
    if t.selection.phase == OPEN {
      forall id | id in t.entries ensures AllIn(t.entries[id], {EntryExpected, EntryStaged}) {
        assert SessionEntriesOk(t, id);
      }
    } else {
      forall id | id in t.sessions ensures id in t.entries <==> id == t.selection.selected.value {
        assert SessionEntriesOk(t, id);
      }
      assert SessionEntriesOk(t, t.selection.selected.value);
    }
  }

  /**
   * Every interleaving keeps the four tables coupled, and once the group claim has been made no
   * session is admitted, changed or removed again, nor are the claim and its pins.
   */
  lemma JournalStaysCoupled(worker: Name, before: seq<Op>, after: seq<Op>)
    ensures Coupled(Run(EmptyJournal(worker), before))
    ensures var t := Run(EmptyJournal(worker), before);
            var u := Run(t, after);
            && Coupled(u)
            && Evolves(t, u)
            && (t.selection.phase != OPEN ==>
                  && u.sessions == t.sessions
                  && u.selection.selected == t.selection.selected
                  && u.selection.pins == t.selection.pins
                  && u.selection.phase != OPEN)
  {
    EmptyJournalInv(worker);
    RunKeeps(EmptyJournal(worker), before);
    var t := Run(EmptyJournal(worker), before);
    RunKeeps(t, after);
    InvCoupled(t);
    InvCoupled(Run(t, after));
  }

  predicate HasGeneration(rows: map<SessionId, SessionRow>, setId: SetId, g: int) {
    exists b :: b in rows && rows[b].setId == setId && rows[b].generation == g
  }

  /** Two sessions of one set: at most one has not ended, and the earlier one was abandoned first. */
  predicate Succeeds(a: SessionRow, b: SessionRow, same: bool) {
    a.setId == b.setId ==>
      && (!Terminal(a.state) && !Terminal(b.state) ==> same)
      && (a.generation == b.generation ==> same)
      && (a.generation < b.generation ==>
            a.state == ABANDONED && a.ordinal < b.ordinal && a.freshUntil < b.committedAt)
  }

  /** Ordinals, generations, predecessors and capacities. */
  ghost predicate Numbered(rows: map<SessionId, SessionRow>) {
    && |rows| <= MAX_LIFETIME_SESSIONS
    && |LiveSessions(rows)| <= MAX_LIVE_SESSIONS
    && (forall k :: HasOrdinal(rows, k) <==> 1 <= k <= |rows|)
    && (forall a :: a in rows ==> 1 <= rows[a].generation <= rows[a].ordinal)
    && (forall a, b :: a in rows && b in rows ==> Succeeds(rows[a], rows[b], a == b))
    && (forall a, g {:trigger HasGeneration(rows, rows[a].setId, g)} ::
          a in rows && 1 <= g <= rows[a].generation ==> HasGeneration(rows, rows[a].setId, g))
  }

  lemma InvSucceeds(t: Tables, a: SessionId, b: SessionId)
    requires Inv(t) && a in t.sessions && b in t.sessions
    ensures Succeeds(t.sessions[a], t.sessions[b], a == b)
  {
    var rows := t.sessions;
    assert Apart(rows, a, b);
    if rows[a].setId == rows[b].setId {
      if rows[a].generation < rows[b].generation {
        AncestorAbandoned(t.worker, rows, a, b);
      }
      if !Terminal(rows[a].state) && !Terminal(rows[b].state) {
        OneActivePerSet(t.worker, rows, a, b);
      }
    }
  }

  lemma InvNumbered(t: Tables)
    requires Inv(t)
    ensures Numbered(t.sessions)
  {
    var rows := t.sessions;
    forall a | a in rows ensures 1 <= rows[a].generation <= rows[a].ordinal <= |rows| {
      assert SessionOk(t.worker, rows, a);
    }
    forall a, b | a in rows && b in rows ensures Succeeds(rows[a], rows[b], a == b) {
      InvSucceeds(t, a, b);
    }
    forall a | a in rows
      ensures forall g {:trigger HasGeneration(rows, rows[a].setId, g)} ::
                1 <= g <= rows[a].generation ==> HasGeneration(rows, rows[a].setId, g)
    {
      forall g | 1 <= g <= rows[a].generation ensures HasGeneration(rows, rows[a].setId, g) {
        var b := GenerationsContiguous(t.worker, rows, a, g);
      }
    }
  }

  /** Every interleaving numbers the sessions 1..n and the generations of each set 1..k. */
  lemma SessionsNumbered(worker: Name, ops: seq<Op>)
    ensures Numbered(Run(EmptyJournal(worker), ops).sessions)
  {
    EmptyJournalInv(worker);
    RunKeeps(EmptyJournal(worker), ops);
    InvNumbered(Run(EmptyJournal(worker), ops));
  }

  // ---- constraints and triggers ---------------------------------------------------------------

  predicate SessionPairOk(rows: map<SessionId, SessionRow>, a: SessionId, b: SessionId)
    requires a in rows && b in rows
  {
    a != b ==>
      && rows[a].ordinal != rows[b].ordinal
      && !(rows[a].setId == rows[b].setId && rows[a].generation == rows[b].generation)
      && rows[a].descriptor != rows[b].descriptor
      && (rows[a].predecessor.Some? ==> rows[a].predecessor != rows[b].predecessor)
      && !(rows[a].setId == rows[b].setId && !Terminal(rows[a].state) && !Terminal(rows[b].state))
      && !(rows[a].state == SELECTED && rows[b].state == SELECTED)
  }

  /** The UNIQUE constraints and unique indexes over sessions. */
  lemma SessionsUnique(t: Tables, a: SessionId, b: SessionId)
    requires Inv(t) && a in t.sessions && b in t.sessions
    ensures SessionPairOk(t.sessions, a, b)
  {
    var rows := t.sessions;
    assert SessionOk(t.worker, rows, a) && SessionOk(t.worker, rows, b) && Apart(rows, a, b);
    if rows[a].setId == rows[b].setId {
      if rows[a].generation < rows[b].generation {
        AncestorAbandoned(t.worker, rows, a, b);
      } else if rows[b].generation < rows[a].generation {
        AncestorAbandoned(t.worker, rows, b, a);
      }
    }
    if rows[a].predecessor.Some? && rows[a].predecessor == rows[b].predecessor {
      assert SessionOk(t.worker, rows, rows[a].predecessor.value);
    }
  }

  /** `component_id`, `envelope_sha256`, `object_key` and `effect_id` are unique over the whole table. */
  lemma EntriesUnique(t: Tables, a: SessionId, i: nat, b: SessionId, j: nat)
    requires Inv(t) && a in t.entries && b in t.entries && i < |t.entries[a]| && j < |t.entries[b]|
    requires a != b || i != j
    ensures t.entries[a][i].envelope.Some? ==> t.entries[a][i].envelope != t.entries[b][j].envelope
    ensures t.entries[a][i].effect.Some? ==> t.entries[a][i].effect != t.entries[b][j].effect
  {
    assert SessionEntriesOk(t, a) && SessionEntriesOk(t, b);
    SessionsUnique(t, a, b);
    assert EntryOk(t.sessions[a].descriptor, i, t.entries[a][i], RowPins(t.sessions[a], t.selection));
    assert EntryOk(t.sessions[b].descriptor, j, t.entries[b][j], RowPins(t.sessions[b], t.selection));
  }

  /** The CHECK constraints of the four tables. */
  ghost predicate ChecksHold(t: Tables) {
    && (forall id :: id in t.sessions ==> SessionFieldsOk(t.sessions, t.sessions[id]))
    && |LiveSessions(t.sessions)| <= MAX_LIVE_SESSIONS
    && t.entries.Keys <= t.sessions.Keys
    && (forall id, k :: id in t.entries && 0 <= k < |t.entries[id]| ==> EntryFieldsOk(t.entries[id][k]))
    && SelectionFieldsOk(t)
    && t.manifests.Keys <= t.sessions.Keys
    && (forall id :: id in t.manifests ==> ManifestFieldsOk(t.manifests[id]))
  }

  predicate SessionFieldsOk(rows: map<SessionId, SessionRow>, row: SessionRow) {
    && 1 <= row.ordinal <= MAX_LIFETIME_SESSIONS && 1 <= row.generation <= MAX_LIFETIME_SESSIONS
    && (row.generation == 1 <==> row.predecessor.None?)
    && (row.predecessor.Some? ==> row.predecessor.value in rows)
    && IsStamp(row.committedAt) && IsStamp(row.freshUntil) && row.committedAt < row.freshUntil
  }

  predicate EntryFieldsOk(e: EntryRow) {
    && (e.envelope.Some? <==> e.status != EntryExpected)
    && (e.effect.Some? <==> e.status in {EntrySealed, EntryConfirmed})
    && (e.result.Some? <==> e.status == EntryConfirmed)
  }

  predicate SelectionFieldsOk(t: Tables) {
    && (t.selection.selected.Some? <==> t.selection.phase != OPEN)
    && (t.selection.pins.Some? <==> t.selection.phase != OPEN)
    && (t.selection.holdCode.Some? <==> t.selection.phase == HOLD)
    && (t.selection.selected.Some? ==> t.selection.selected.value in t.sessions)
  }

  predicate ManifestFieldsOk(m: ManifestRow) {
    && (m.result.Some? <==> m.status != ManifestSealed)
    && (m.pointer.Some? <==> m.status == ManifestConfirmed)
  }

  lemma ChecksNeverFail(t: Tables)
    requires Inv(t)
    ensures ChecksHold(t)
  {
    forall id | id in t.sessions ensures SessionFieldsOk(t.sessions, t.sessions[id]) {
      assert SessionOk(t.worker, t.sessions, id);
    }
    forall id, k | id in t.entries && 0 <= k < |t.entries[id]| ensures EntryFieldsOk(t.entries[id][k]) {
      EntryFieldsNeverFail(t, id, k);
    }
  }

  lemma EntryFieldsNeverFail(t: Tables, id: SessionId, k: nat)
    requires EntriesOk(t) && id in t.entries && k < |t.entries[id]|
    ensures EntryFieldsOk(t.entries[id][k])
  {
    assert SessionEntriesOk(t, id);
    assert EntryOk(t.sessions[id].descriptor, k, t.entries[id][k], RowPins(t.sessions[id], t.selection));
  }

  predicate EntryTriggersAllow(t: Tables, id: SessionId, a: EntryRow, b: EntryRow) {
    && (a.status == EntryConfirmed ==> b == a)
    && (b.status == EntryConfirmed && a.status != EntryConfirmed ==>
          && a.status == EntrySealed
          && t.selection.phase == COMPONENT_EFFECTS_SEALED && t.selection.selected == Some(id))
  }

  /** The guards that the continuation triggers put on each update and delete. */
  ghost predicate TriggersAllow(t: Tables, u: Tables) {
    && (forall id, k :: id in t.entries && id in u.entries && 0 <= k < |t.entries[id]| && k < |u.entries[id]| ==>
          EntryTriggersAllow(t, id, t.entries[id][k], u.entries[id][k]))
    && (forall id :: id in t.entries && id !in u.entries ==> t.selection.selected != Some(id))
    && t.sessions.Keys <= u.sessions.Keys
    && t.manifests.Keys <= u.manifests.Keys
    && (forall id :: id in t.manifests ==> ManifestEvolves(t.manifests[id], u.manifests[id]))
    && (forall id :: id in u.manifests && id !in t.manifests ==>
          && u.manifests[id].status == ManifestSealed
          && t.selection.phase == COMPONENTS_CONFIRMED && t.selection.selected == Some(id))
    && (u.selection.phase == OPEN ==> t.selection.phase == OPEN)
    && (t.selection.phase != OPEN ==>
          u.selection.selected == t.selection.selected && u.selection.pins == t.selection.pins)
    && (Rank(t.selection.phase) == 4 ==> u.selection == t.selection)
    && (u.selection.phase != t.selection.phase ==>
          match u.selection.phase
          case OPEN => false
          case COMPONENT_EFFECTS_SEALED => t.selection.phase == OPEN
          case COMPONENTS_CONFIRMED =>
            && t.selection.phase == COMPONENT_EFFECTS_SEALED && u.selection.selected.Some?
            && AllConfirmed(EntriesOf(u, u.selection.selected.value))
          case MANIFEST_EFFECT_SEALED => t.selection.phase == COMPONENTS_CONFIRMED
          case CONFIRMED =>
            && t.selection.phase == MANIFEST_EFFECT_SEALED && u.selection.selected.Some?
            && u.selection.selected.value in u.manifests
            && u.manifests[u.selection.selected.value].status == ManifestConfirmed
          case HOLD =>
            || (t.selection.phase == COMPONENTS_CONFIRMED && u.selection.holdCode == Some(WORM_VERSION_CONFLICT)
                && u.manifests == map[])
            || (t.selection.phase == MANIFEST_EFFECT_SEALED
                && u.selection.holdCode == Some(MANIFEST_VERSION_CONFLICT)
                && u.selection.selected.Some? && u.selection.selected.value in u.manifests
                && u.manifests[u.selection.selected.value].status == ManifestResultConfirmed))
  }

  lemma UnchangedTriggers(t: Tables)
    ensures TriggersAllow(t, t)
  {
  }

  lemma RetireTriggers(t: Tables, u: Tables)
    requires Inv(t) && Retires(t, u)
    ensures TriggersAllow(t, u)
  {
  }

  lemma InsertTriggers(t: Tables, e: Tables, input: Admission, ordinal: int)
    requires TriggersAllow(t, e) && EntriesOk(t) && e.selection == t.selection && t.selection.phase == OPEN
    requires AdmittedId(input, ordinal) !in e.sessions
    ensures TriggersAllow(t, Insert(e, input, ordinal))
  {
    hide EntryTriggersAllow;
    forall id | id in t.entries ensures id in t.sessions {
      assert SessionEntriesOk(t, id);
    }
  }

  lemma AdmitTriggers(t: Tables, input: Admission, ordinal: int, nowExpire: int, nowFresh: int)
    requires Inv(t) && WellFormed(t.worker, input)
    ensures TriggersAllow(t, SettleAdmission(t, AdmitStep(t, input, ordinal, nowExpire, nowFresh)))
  {
    UnchangedTriggers(t);
    var o := AdmitStep(t, input, ordinal, nowExpire, nowFresh);
    if (forall x :: !IsExisting(t, input, x)) && OpenUnsealed(t) {
      ExpireKeepsExisting(t, input, nowExpire);
      ExpireRetires(t, nowExpire);
      var e := ExpireStale(t, nowExpire);
      RetireKeepsInv(t, e);
      RetireTriggers(t, e);
      hide Inv, TriggersAllow, IsExisting;
      if o.AdmitResolved? {
        InsertKeepsInv(e, input, ordinal);
        InsertTriggers(t, e, input, ordinal);
      }
    }
  }

  lemma StageTriggers(t: Tables, s: Snapshot, e: Envelope, now: int)
    requires Inv(t) && StageStep(t, s, e, now).Committed?
    ensures TriggersAllow(t, StageStep(t, s, e, now).tables)
  {
    UnchangedTriggers(t);
  }

  lemma SealTriggers(t: Tables, s: Snapshot, pins: Pins, now: int)
    requires Inv(t) && SealStep(t, s, pins, now).Committed?
    ensures TriggersAllow(t, SealStep(t, s, pins, now).tables)
  {
    UnchangedTriggers(t);
    var u := SealStep(t, s, pins, now).tables;
    if u != t {
      assert SessionEntriesOk(t, s.id);
      assert u.sessions.Keys == t.sessions.Keys;
      forall id, k | id in t.entries && id in u.entries && 0 <= k < |t.entries[id]| && k < |u.entries[id]|
        ensures EntryTriggersAllow(t, id, t.entries[id][k], u.entries[id][k])
      {
        assert SessionEntriesOk(t, id);
        assert EntryOk(t.sessions[id].descriptor, k, t.entries[id][k], None);
      }
    }
  }

  lemma ConfirmTriggers(t: Tables, s: Snapshot, e: Effect, r: ResultBytes)
    requires Inv(t) && ConfirmStep(t, s, e, r).Committed?
    ensures TriggersAllow(t, ConfirmStep(t, s, e, r).tables)
  {
    hide SessionsOk;
    UnchangedTriggers(t);
    ConfirmKeepsInv(t, s, e, r);
  }

  lemma ManifestSealTriggers(t: Tables, s: Snapshot)
    requires Inv(t) && ManifestSealStep(t, s).Committed?
    ensures TriggersAllow(t, ManifestSealStep(t, s).tables)
  {
    UnchangedTriggers(t);
  }

  lemma ManifestResultTriggers(t: Tables, s: Snapshot, m: ManifestRow, e: Effect, r: ResultBytes)
    requires Inv(t) && ManifestResultStep(t, s, m, e, r).Committed?
    ensures TriggersAllow(t, ManifestResultStep(t, s, m, e, r).tables)
  {
    UnchangedTriggers(t);
  }

  /** The schema never has to refuse what a transaction writes: its guards are implied by the code. */
  lemma SchemaNeverRefuses(t: Tables, op: Op)
    requires Inv(t)
    ensures ChecksHold(Apply(t, op))
    ensures TriggersAllow(t, Apply(t, op))
    ensures var rows := Apply(t, op).sessions;
            forall a, b :: a in rows && b in rows ==> SessionPairOk(rows, a, b)
  {
    var u := Apply(t, op);
    ApplyKeepsInv(t, op);
    ChecksNeverFail(u);
    forall a, b | a in u.sessions && b in u.sessions ensures SessionPairOk(u.sessions, a, b) {
      SessionsUnique(u, a, b);
    }
    OpTriggers(t, op);
  }

  lemma OpTriggers(t: Tables, op: Op)
    requires Inv(t)
    ensures TriggersAllow(t, Apply(t, op))
  {
    UnchangedTriggers(t);
    match op
    case AbandonOp(s, now) =>
      if AbandonStep(t, s, now).Committed? {
        AbandonRetires(t, s, now);
        RetireTriggers(t, Apply(t, op));
      }
    case AdmitOp(input, ordinal, a, b) =>
      if WellFormed(t.worker, input) {
        AdmitTriggers(t, input, ordinal, a, b);
      }
    case StageOp(s, e, now) =>
      if StageStep(t, s, e, now).Committed? {
        StageTriggers(t, s, e, now);
      }
    case RejectOp(s) =>
      if RejectStep(t, s).Committed? {
        RejectRetires(t, s);
        RetireTriggers(t, Apply(t, op));
      }
    case SealOp(s, pins, now) =>
      if SealStep(t, s, pins, now).Committed? {
        SealTriggers(t, s, pins, now);
      }
    case ConfirmOp(s, e, r) =>
      if ConfirmStep(t, s, e, r).Committed? {
        ConfirmTriggers(t, s, e, r);
      }
    case ManifestSealOp(s) =>
      if ManifestSealStep(t, s).Committed? {
        ManifestSealTriggers(t, s);
      }
    case ManifestResultOp(s, m, e, r) =>
      if ManifestResultStep(t, s, m, e, r).Committed? {
        ManifestResultTriggers(t, s, m, e, r);
      }
  }
}
