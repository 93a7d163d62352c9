/**
 * Safety of the component journal over whole runs: every transaction keeps the invariant, and nothing
 * that has been decided is ever undecided.
 */
module ComponentSafety {
  import opened Foundation
  import opened Clock
  import opened ComponentTypes
  import opened ComponentReader
  import opened ComponentSteps
  import opened ComponentInvariant

  // ---- the parse loop on coherent rows --------------------------------------------------------

  lemma ParseCoherent(d: Descriptor, row: EntryRow, k: int, pins: Option<Pins>, p: Parsed)
    requires 0 <= k < |d.payloads| == ROSTER_SIZE && EntryOk(d, k, row, pins)
    ensures ParseEntry(d, row, k, pins, p) == Some(Parsed(
              if row.status == EntryExpected then p.envelopes else p.envelopes + [Envelope(d, k, d.payloads[k])],
              if row.effect.None? then p.effects else p.effects + [row.effect.value]))
    ensures row.effect.Some? <==> row.status in {EntrySealed, EntryConfirmed}
  {
  }

  lemma {:induction false} ParseSucceeds(d: Descriptor, rows: seq<EntryRow>, pins: Option<Pins>)
    requires |rows| <= |d.payloads| == ROSTER_SIZE
    requires forall k :: 0 <= k < |rows| ==> EntryOk(d, k, rows[k], pins)
    ensures ParseEntries(d, rows, pins).Some?
  {
    if rows != [] {
      var k := |rows| - 1;
      ParseSucceeds(d, rows[..k], pins);
      ParseCoherent(d, rows[k], k, pins, ParseEntries(d, rows[..k], pins).value);
    }
  }

  /** With every envelope stored, the envelope list is indexed by ordinal. */
  lemma {:induction false} ParsedEnvelopes(d: Descriptor, rows: seq<EntryRow>, pins: Option<Pins>)
    requires |rows| <= |d.payloads| == ROSTER_SIZE
    requires forall k :: 0 <= k < |rows| ==> EntryOk(d, k, rows[k], pins) && rows[k].status != EntryExpected
    ensures ParseEntries(d, rows, pins).Some?
    ensures var p := ParseEntries(d, rows, pins).value;
            && |p.envelopes| == |rows|
            && forall k :: 0 <= k < |rows| ==> p.envelopes[k] == Envelope(d, k, d.payloads[k])
  {
    if rows != [] {
      var k := |rows| - 1;
      ParsedEnvelopes(d, rows[..k], pins);
      ParseCoherent(d, rows[k], k, pins, ParseEntries(d, rows[..k], pins).value);
    }
  }

  /** With every effect stored, the effect list is indexed by ordinal. */
  lemma {:induction false} ParsedEffects(d: Descriptor, rows: seq<EntryRow>, pins: Option<Pins>)
    requires |rows| <= |d.payloads| == ROSTER_SIZE
    requires forall k :: 0 <= k < |rows| ==> EntryOk(d, k, rows[k], pins) && rows[k].effect.Some?
    ensures ParseEntries(d, rows, pins).Some?
    ensures var p := ParseEntries(d, rows, pins).value;
            && |p.effects| == |rows|
            && forall k :: 0 <= k < |rows| ==> rows[k].effect == Some(p.effects[k])
  {
    if rows != [] {
      var k := |rows| - 1;
      var before := rows[..k];
      assert forall j {:trigger before[j]} :: 0 <= j < k ==> before[j] == rows[j];
      hide EntryOk, ParseEntry;
      ParsedEffects(d, before, pins);
      var p := ParseEntries(d, before, pins).value;
      ParseCoherent(d, rows[k], k, pins, p);
      assert ParseEntries(d, rows, pins).value.effects == p.effects + [rows[k].effect.value];
    }
  }

  // ---- retirement -----------------------------------------------------------------------------

  predicate RowRetires(a: SessionRow, b: SessionRow) {
    b == a || (Live(a.state) && Terminal(b.state) && SameIdentity(a, b))
  }

  /** Some live sessions end, with their entries; the journal stays open. */
  predicate Retires(t: Tables, u: Tables) {
    && t.selection.phase == OPEN
    && u.worker == t.worker && u.selection == t.selection && u.manifests == t.manifests
    && u.sessions.Keys == t.sessions.Keys
    && (forall id {:trigger u.sessions[id]} :: id in t.sessions ==> RowRetires(t.sessions[id], u.sessions[id]))
    && u.entries.Keys <= t.entries.Keys
    && (forall id :: id in t.entries && id in t.sessions ==>
          (id in u.entries <==> !Terminal(u.sessions[id].state)))
    && (forall id :: id in u.entries ==> u.entries[id] == t.entries[id])
  }

  lemma RetireKeepsInv(t: Tables, u: Tables)
    requires Inv(t) && Retires(t, u)
    ensures Inv(u)
  {
    AdvancedKeepsSessions(t.worker, t.sessions, u.sessions);
    forall id | id in u.sessions ensures SessionEntriesOk(u, id) {
      assert SessionEntriesOk(t, id);
      assert RowRetires(t.sessions[id], u.sessions[id]);
    }
  }

  lemma AbandonRetires(t: Tables, s: Snapshot, now: int)
    requires Inv(t) && AbandonStep(t, s, now).Committed?
    ensures Retires(t, AbandonStep(t, s, now).tables)
  {
    assert SessionEntriesOk(t, s.id);
    forall id | id in t.sessions && id != s.id ensures id in t.entries <==> !Terminal(t.sessions[id].state) {
      assert SessionEntriesOk(t, id);
    }
  }

  lemma RejectRetires(t: Tables, s: Snapshot)
    requires Inv(t) && RejectStep(t, s).Committed?
    ensures Retires(t, RejectStep(t, s).tables)
  {
    assert SessionEntriesOk(t, s.id);
    forall id | id in t.sessions && id != s.id ensures id in t.entries <==> !Terminal(t.sessions[id].state) {
      assert SessionEntriesOk(t, id);
    }
  }

  lemma ExpireShape(t: Tables, now: int, id: SessionId)
    requires id in t.sessions
    ensures ExpireStale(t, now).sessions.Keys == t.sessions.Keys
    ensures ExpireStale(t, now).sessions[id] == Expire(t.sessions[id], now)
    ensures id in ExpireStale(t, now).entries <==> id in t.entries && Expire(t.sessions[id], now).state != ABANDONED
  {
  }

  lemma ExpireRetires(t: Tables, now: int)
    requires Inv(t) && t.selection.phase == OPEN
    ensures Retires(t, ExpireStale(t, now))
  {
    hide SessionsOk, SelectionOk;
    var u := ExpireStale(t, now);
    assert u.sessions.Keys == t.sessions.Keys;
    forall id | id in t.sessions ensures RowRetires(t.sessions[id], u.sessions[id]) {
      ExpireShape(t, now, id);
    }
    forall id | id in t.entries && id in t.sessions ensures id in u.entries <==> !Terminal(u.sessions[id].state) {
      ExpireShape(t, now, id);
      assert SessionEntriesOk(t, id);
    }
  }

  // ---- admission ------------------------------------------------------------------------------

  lemma InsertKeepsInv(t: Tables, input: Admission, ordinal: int)
    requires Inv(t) && t.selection.phase == OPEN && WellFormed(t.worker, input)
    requires |LiveSessions(t.sessions)| < MAX_LIVE_SESSIONS && |t.sessions| < MAX_LIFETIME_SESSIONS
    requires IsStamp(input.descriptor.committedAt + TTL_MS)
    requires NextOrdinal(t) == ordinal
    requires PredecessorAdmits(t, input, ordinal)
    requires forall x :: !IsExisting(t, input, x)
    ensures Inv(Insert(t, input, ordinal))
    ensures AdmittedId(input, ordinal) !in t.sessions
  {
    MaxOrdinalCounts(t.worker, t.sessions, MAX_LIFETIME_SESSIONS);
    InsertKeepsSessions(t, input, ordinal);
    var u := Insert(t, input, ordinal);
    forall id | id in u.sessions ensures SessionEntriesOk(u, id) {
      if id == AdmittedId(input, ordinal) {
        assert u.entries[id][0].status == EntryExpected;
      } else {
        assert SessionEntriesOk(t, id);
      }
    }
  }

  /** Expiry never creates or hides the session an admission looks for. */
  lemma ExpireKeepsExisting(t: Tables, input: Admission, now: int)
    requires forall x :: !IsExisting(t, input, x)
    ensures forall x :: !IsExisting(ExpireStale(t, now), input, x)
  {
    forall x ensures !IsExisting(ExpireStale(t, now), input, x) {
      assert !IsExisting(t, input, x);
    }
  }

  lemma AdmitKeepsInv(t: Tables, input: Admission, ordinal: int, nowExpire: int, nowFresh: int)
    requires Inv(t) && WellFormed(t.worker, input)
    ensures Inv(SettleAdmission(t, AdmitStep(t, input, ordinal, nowExpire, nowFresh)))
  {
    if (forall x :: !IsExisting(t, input, x)) && OpenUnsealed(t) {
      ExpireKeepsExisting(t, input, nowExpire);
      ExpireRetires(t, nowExpire);
      var e := ExpireStale(t, nowExpire);
      RetireKeepsInv(t, e);
      var o := AdmitStep(t, input, ordinal, nowExpire, nowFresh);
      if o.AdmitResolved? {
        InsertKeepsInv(e, input, ordinal);
      }
    }
  }

  // ---- staging --------------------------------------------------------------------------------

  lemma StageKeepsInv(t: Tables, s: Snapshot, e: Envelope, now: int)
    requires Inv(t) && StageStep(t, s, e, now).Committed?
    ensures Inv(StageStep(t, s, e, now).tables)
  {
    hide SessionsOk;
    var u := StageStep(t, s, e, now).tables;
    if u != t {
      assert SessionEntriesOk(t, s.id);
      AdvancedKeepsSessions(t.worker, t.sessions, u.sessions);
      var rows := u.entries[s.id];
      assert RosterOk(u.sessions[s.id].descriptor, rows, None) by {
        assert EntryOk(t.sessions[s.id].descriptor, e.kind, t.entries[s.id][e.kind], None);
      }
      forall id | id in u.sessions ensures SessionEntriesOk(u, id) {
        if id != s.id {
          assert SessionEntriesOk(t, id);
        }
      }
    }
  }

  // ---- selection ------------------------------------------------------------------------------

  lemma SealedRowsOk(d: Descriptor, rows: seq<EntryRow>, envelopes: seq<Envelope>, pins: Pins)
    requires RosterOk(d, rows, None) && AllIn(rows, {EntryStaged})
    requires |envelopes| == |rows|
    requires forall k :: 0 <= k < |rows| ==> envelopes[k] == Envelope(d, k, d.payloads[k])
    ensures RosterOk(d, Sealed(rows, envelopes, pins), Some(pins))
    ensures SomeAt(Sealed(rows, envelopes, pins), EntrySealed)
    ensures AllIn(Sealed(rows, envelopes, pins), {EntrySealed, EntryConfirmed})
  {
    var sealed := Sealed(rows, envelopes, pins);
    forall k | 0 <= k < |sealed| ensures EntryOk(d, k, sealed[k], Some(pins)) {
      assert EntryOk(d, k, rows[k], None);
    }
    assert sealed[0].status == EntrySealed;
  }

  lemma ClaimAdvances(t: Tables, id: SessionId, sealed: seq<EntryRow>, pins: Pins)
    requires Inv(t) && id in t.sessions && t.sessions[id].state == STAGED
    ensures Advanced(t.sessions, Claim(t, id, sealed, pins).sessions)
  {
    var u := Claim(t, id, sealed, pins);
    assert u.sessions.Keys == t.sessions.Keys;
  }

  lemma ClaimKeepsEntries(t: Tables, id: SessionId, sealed: seq<EntryRow>, pins: Pins)
    requires Inv(t) && t.selection.phase == OPEN && ValidPins(pins)
    requires id in t.sessions && t.sessions[id].state == STAGED
    requires RosterOk(t.sessions[id].descriptor, sealed, Some(pins))
    requires AllIn(sealed, {EntrySealed, EntryConfirmed}) && SomeAt(sealed, EntrySealed)
    ensures EntriesOk(Claim(t, id, sealed, pins))
  {
    hide SessionsOk;
    var u := Claim(t, id, sealed, pins);
    forall x | x in u.sessions ensures SessionEntriesOk(u, x) {
      assert SessionEntriesOk(t, x);
    }
  }

  lemma ClaimKeepsInv(t: Tables, id: SessionId, sealed: seq<EntryRow>, pins: Pins)
    requires Inv(t) && t.selection.phase == OPEN && ValidPins(pins)
    requires id in t.sessions && t.sessions[id].state == STAGED
    requires RosterOk(t.sessions[id].descriptor, sealed, Some(pins))
    requires AllIn(sealed, {EntrySealed, EntryConfirmed}) && SomeAt(sealed, EntrySealed)
    ensures Inv(Claim(t, id, sealed, pins))
  {
    hide SessionsOk, EntriesOk, RosterOk, AllIn;
    var u := Claim(t, id, sealed, pins);
    ClaimAdvances(t, id, sealed, pins);
    AdvancedKeepsSessions(t.worker, t.sessions, u.sessions);
    ClaimKeepsEntries(t, id, sealed, pins);
    forall x | x in u.sessions && x != id ensures Terminal(u.sessions[x].state) {
      assert t.sessions[x].state != SELECTED;
    }
  }

  lemma SealKeepsInv(t: Tables, s: Snapshot, pins: Pins, now: int)
    requires Inv(t) && SealStep(t, s, pins, now).Committed?
    ensures Inv(SealStep(t, s, pins, now).tables)
  {
    if t.selection.phase == OPEN {
      assert SessionEntriesOk(t, s.id);
      ParsedEnvelopes(s.row.descriptor, s.entries, None);
      SealedRowsOk(s.row.descriptor, s.entries, Derived(s).envelopes, pins);
      ClaimKeepsInv(t, s.id, Sealed(s.entries, Derived(s).envelopes, pins), pins);
    }
  }

  // ---- confirmation ---------------------------------------------------------------------------

  lemma ConfirmedRowsOk(d: Descriptor, rows: seq<EntryRow>, pins: Pins, k: nat, r: ResultBytes)
    requires RosterOk(d, rows, Some(pins)) && AllIn(rows, {EntrySealed, EntryConfirmed})
    requires k < |rows| && rows[k].status == EntrySealed && ParseResult(r, rows[k].effect.value).Some?
    ensures RosterOk(d, Confirmed(rows, k, r), Some(pins))
    ensures AllIn(Confirmed(rows, k, r), {EntrySealed, EntryConfirmed})
    ensures !SomeAt(Confirmed(rows, k, r), EntrySealed) ==> AllConfirmed(Confirmed(rows, k, r))
  {
    var after := Confirmed(rows, k, r);
    forall j | 0 <= j < |after| ensures EntryOk(d, j, after[j], Some(pins)) {
      assert EntryOk(d, j, rows[j], Some(pins));
    }
    if !SomeAt(after, EntrySealed) {
      forall j | 0 <= j < |after| ensures after[j].status == EntryConfirmed && after[j].result.Some? {
        assert after[j].status in {EntrySealed, EntryConfirmed};
        assert EntryOk(d, j, after[j], Some(pins));
      }
    }
  }

  lemma ConfirmKeepsInv(t: Tables, s: Snapshot, e: Effect, r: ResultBytes)
    requires Inv(t) && ConfirmStep(t, s, e, r).Committed?
    ensures Inv(ConfirmStep(t, s, e, r).tables)
  {
    var u := ConfirmStep(t, s, e, r).tables;
    if u != t {
      var rows := EntriesOf(t, s.id);
      var k := FindEffect(rows, e).value;
      assert SessionEntriesOk(t, s.id);
      ConfirmedRowsOk(s.row.descriptor, rows, t.selection.pins.value, k, r);
      forall id | id in u.sessions ensures SessionEntriesOk(u, id) {
        if id != s.id {
          assert SessionEntriesOk(t, id);
        }
      }
    }
  }

  // ---- manifest -------------------------------------------------------------------------------

  /** Sessions and entries are untouched, and the pins that entries depend on stay. */
  lemma SamePinsKeepEntries(t: Tables, u: Tables)
    requires Inv(t) && t.selection.phase != OPEN
    requires u.worker == t.worker && u.sessions == t.sessions && u.entries == t.entries
    requires u.selection.pins == t.selection.pins
    ensures SessionsOk(u.worker, u.sessions) && EntriesOk(u)
  {
    forall id | id in u.sessions ensures SessionEntriesOk(u, id) {
      assert SessionEntriesOk(t, id);
    }
  }

  lemma ManifestSealKeepsInv(t: Tables, s: Snapshot)
    requires Inv(t) && ManifestSealStep(t, s).Committed?
    ensures Inv(ManifestSealStep(t, s).tables)
  {
    hide SessionsOk;
    var u := ManifestSealStep(t, s).tables;
    if u != t {
      SamePinsKeepEntries(t, u);
    }
  }

  lemma ManifestResultKeepsInv(t: Tables, s: Snapshot, m: ManifestRow, e: Effect, r: ResultBytes)
    requires Inv(t) && ManifestResultStep(t, s, m, e, r).Committed?
    ensures Inv(ManifestResultStep(t, s, m, e, r).tables)
  {
    var u := ManifestResultStep(t, s, m, e, r).tables;
    if u != t {
      SamePinsKeepEntries(t, u);
    }
  }

  // ---- runs -----------------------------------------------------------------------------------

  lemma EmptyJournalInv(worker: Name)
    ensures Inv(EmptyJournal(worker))
  {
    assert LiveSessions(map[]) == {};
  }

  lemma ApplyKeepsInv(t: Tables, op: Op)
    requires Inv(t)
    ensures Inv(Apply(t, op))
  {
    match op
    case AbandonOp(s, now) =>
      if AbandonStep(t, s, now).Committed? {
        AbandonRetires(t, s, now);
        RetireKeepsInv(t, Apply(t, op));
      }
    case AdmitOp(input, ordinal, a, b) =>
      if WellFormed(t.worker, input) {
        AdmitKeepsInv(t, input, ordinal, a, b);
      }
    case StageOp(s, e, now) =>
      if StageStep(t, s, e, now).Committed? {
        StageKeepsInv(t, s, e, now);
      }
    case RejectOp(s) =>
      if RejectStep(t, s).Committed? {
        RejectRetires(t, s);
        RetireKeepsInv(t, Apply(t, op));
      }
    case SealOp(s, pins, now) =>
      if SealStep(t, s, pins, now).Committed? {
        SealKeepsInv(t, s, pins, now);
      }
    case ConfirmOp(s, e, r) =>
      if ConfirmStep(t, s, e, r).Committed? {
        ConfirmKeepsInv(t, s, e, r);
      }
    case ManifestSealOp(s) =>
      if ManifestSealStep(t, s).Committed? {
        ManifestSealKeepsInv(t, s);
      }
    case ManifestResultOp(s, m, e, r) =>
      if ManifestResultStep(t, s, m, e, r).Committed? {
        ManifestResultKeepsInv(t, s, m, e, r);
      }
  }
}
