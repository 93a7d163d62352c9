/**
 * The journal as the program runs it: one object over four mutable tables, public calls that read,
 * wait, and commit in one transaction, and a loop that retries admission.
 */
module ComponentStore {
  import opened Foundation
  import opened Clock
  import opened ComponentTypes
  import opened ComponentReader
  import opened ComponentSteps
  import opened ComponentInvariant
  import opened ComponentSafety
  import opened ComponentRuns
  import opened ComponentReads
  import opened ComponentOutcomes

  /** At most one session can be the one an admission looks for. */
  lemma ExistingUnique(t: Tables, input: Admission, a: SessionId, b: SessionId)
    requires Inv(t) && IsExisting(t, input, a) && IsExisting(t, input, b)
    ensures a == b
  {
    SessionsUnique(t, a, b);
  }

  lemma MaxOrdinalIs(rows: map<SessionId, SessionRow>, max: nat, bound: nat)
    requires forall id :: id in rows ==> rows[id].ordinal <= max
    requires max == 0 || HasOrdinal(rows, max)
    requires max <= bound
    ensures MaxOrdinal(rows, bound) == max
  {
  }

  /** An existing session stays the one an admission finds. */
  lemma ExistingStays(t: Tables, u: Tables, input: Admission, id: SessionId)
    requires Evolves(t, u) && IsExisting(t, input, id)
    ensures IsExisting(u, input, id)
  {
    assert RowEvolves(t.sessions[id], u.sessions[id]);
  }

  datatype Creation = Created(id: SessionId) | Refused | AdmissionConflict

  /**
   * What a creation that nobody disturbs answers: the session there is already, or a new one exactly when it can
   * be admitted. With eight sessions there is never an answer.
   */
  ghost predicate CreationAnswers(t: Tables, u: Tables, input: Admission, nowExpire: int, nowFresh: int, c: Creation) {
    if |t.sessions| >= 8 then c == Refused && u == t
    else if exists x :: Repeated(t, input, x) then c.Created? && Repeated(t, input, c.id) && u == t
    else if Admissible(t, input, nowExpire, nowFresh) then
      c == Created(NewId(t, input)) && HasAdmitted(t, u, input, nowExpire)
    else c == Refused && u == t
  }

  lemma FullAnswers(t: Tables, input: Admission, nowExpire: int, nowFresh: int)
    requires |t.sessions| >= 8
    ensures CreationAnswers(t, t, input, nowExpire, nowFresh, Refused)
  {
  }

  /** The transaction on the next free ordinal gives exactly this answer, and is never asked for again. */
  lemma AdmitAnswers(t: Tables, input: Admission, nowExpire: int, nowFresh: int)
    requires Inv(t) && WellFormed(t.worker, input) && |t.sessions| < 8
    ensures var o := AdmitStep(t, input, |t.sessions| + 1, nowExpire, nowFresh);
            var u := SettleAdmission(t, o);
            match o
            case AdmitAborted => CreationAnswers(t, u, input, nowExpire, nowFresh, Refused)
            case AdmitRetry(_) => false
            case AdmitResolved(_, id) => CreationAnswers(t, u, input, nowExpire, nowFresh, Created(id))
  {
    AdmitDecided(t, input, |t.sessions| + 1, nowExpire, nowFresh);
    hide Inv, AdmitStep, HasRoom, StillFresh, Follows, HasAdmitted, Repeated, IsExpiryOf;
  }

  datatype Decision = Accept(pins: Pins) | Reject

  class ComponentJournal {
    const worker: Name
    var sessions: map<SessionId, SessionRow>
    var entries: map<SessionId, seq<EntryRow>>
    var selection: SelectionRow
    var manifests: map<SessionId, ManifestRow>
    ghost var quiet: bool

    constructor (worker: Name)
      ensures Contents() == EmptyJournal(worker) && Valid()
    {
      this.worker := worker;
      sessions, entries, selection, manifests := map[], map[], OPEN_SELECTION, map[];
      quiet := true;
      new;
      EmptyJournalInv(worker);
    }

    function Contents(): Tables
      reads this
    {
      Tables(worker, sessions, entries, selection, manifests)
    }

    ghost predicate Valid()
      reads this
    {
      Inv(Contents())
    }

    // ---- what happens around a call -------------------------------------------------------------

    /**
     * The caller waits. Other calls may commit any number of transactions meanwhile, so all it knows
     * afterwards is what every run keeps; `quiet` stays true only while nobody has.
     */
    method Await()
      requires Valid()
      modifies this
      ensures Valid() && Evolves(old(Contents()), Contents())
      ensures quiet ==> old(quiet) && Contents() == old(Contents())
    {
      EvolvesReflexive(Contents());
    }

    method ClockNow() returns (ms: int) {
      ms := *;
    }

    method Restore(t: Tables)
      requires t.worker == worker
      modifies this`sessions, this`entries, this`selection, this`manifests
      ensures Contents() == t
    {
      sessions, entries, selection, manifests := t.sessions, t.entries, t.selection, t.manifests;
    }

    // ---- queries --------------------------------------------------------------------------------

    method NextJournalOrdinal() returns (n: nat)
      requires forall id :: id in sessions ==> 1 <= sessions[id].ordinal <= MAX_LIFETIME_SESSIONS
      ensures n == NextOrdinal(Contents())
    {
      var max := 0;
      var rest := sessions.Keys;
      while rest != {}
        invariant rest <= sessions.Keys
        invariant 0 <= max <= MAX_LIFETIME_SESSIONS
        invariant forall id :: id in sessions.Keys - rest ==> sessions[id].ordinal <= max
        invariant max == 0 || HasOrdinal(sessions, max)
        decreases |rest|
      {
        var id :| id in rest;
        if sessions[id].ordinal > max {
          max := sessions[id].ordinal;
        }
        rest := rest - {id};
      }
      MaxOrdinalIs(sessions, max, MAX_LIFETIME_SESSIONS);
      n := max + 1;
    }

    // ---- the reader -----------------------------------------------------------------------------

    method ParseRows(d: Descriptor, rows: seq<EntryRow>, pins: Option<Pins>) returns (r: Option<Parsed>)
      requires |rows| <= |d.payloads|
      ensures r == ParseEntries(d, rows, pins)
    {
      var k := 0;
      r := Some(Parsed([], []));
      while k < |rows| && r.Some?
        invariant 0 <= k <= |rows|
        invariant r == ParseEntries(d, rows[..k], pins)
        decreases |rows| - k
      {
        assert rows[..k + 1][..k] == rows[..k];
        r := ParseEntry(d, rows[k], k, pins, r.value);
        k := k + 1;
      }
      if k < |rows| {
        ParseStops(d, rows, pins, k);
      }
      assert rows[..|rows|] == rows;
    }

    /** A rejected prefix rejects the whole. */
    lemma {:induction false} ParseStops(d: Descriptor, rows: seq<EntryRow>, pins: Option<Pins>, k: nat)
      requires |rows| <= |d.payloads| && k <= |rows| && ParseEntries(d, rows[..k], pins).None?
      ensures ParseEntries(d, rows, pins).None?
    {
      if k < |rows| {
        assert rows[..|rows| - 1][..k] == rows[..k];
        ParseStops(d, rows[..|rows| - 1], pins, k);
      } else {
        assert rows[..k] == rows;
      }
    }

    method CheckRows(s: Snapshot) returns (ok: bool)
      ensures ok <==> RowsReadable(worker, s)
    {
      if !IdentityHolds(worker, s.id, s.row) || !SelectionShape(s.selection) {
        return false;
      }
      if Terminal(s.row.state) {
        return s.entries == [] && s.selection.selected != Some(s.id);
      }
      if |s.entries| != ROSTER_SIZE || (s.row.state == SELECTED && !PinsReadable(s.selection, s.id)) {
        return false;
      }
      var parsed := ParseRows(s.row.descriptor, s.entries, RowPins(s.row, s.selection));
      ok := parsed.Some? && ActiveState(s.row, s.entries, s.selection, s.id);
    }

    /**
     * The reading spans several moments, yet a load of an existing session fails only when one of
     * its rows really moved meanwhile, and what it returns is what the tables hold at the end.
     */
    method Load(id: SessionId) returns (r: Option<Snapshot>)
      requires Valid()
      modifies this
      ensures Valid() && Evolves(old(Contents()), Contents())
      ensures r.Some? <==> id in old(sessions) && Fenced(Contents(), Current(old(Contents()), id))
      ensures r.Some? ==> id in sessions && r.value == Current(Contents(), id)
      ensures quiet ==> old(quiet) && Contents() == old(Contents())
      decreases id
    {
      hide Evolves, EntriesOk, SelectionOk, RowsReadable, SessionsOk, PredecessorMatches;
      ghost var t0 := Contents();
      EvolvesReflexive(t0);
      r := None;
      if id !in sessions {
        return;
      }
      var s := Current(Contents(), id);
      RowsAccepted(t0, id);
      Await();
      ghost var t1 := Contents();
      var ok := CheckPredecessor(s, t0);
      ghost var t2 := Contents();
      EvolvesTransitive(t0, t1, t2);
      if !ok {
        if t2.selection == t0.selection {
          SelectionNeverReturns(t0, t1, t2);
        }
        return;
      }
      var readable := CheckRows(s);
      if !readable {
        return;
      }
      Await();
      EvolvesTransitive(t0, t2, Contents());
      if Fenced(Contents(), s) {
        r := Some(s);
      }
    }

    /** The chain of predecessors; it fails only when the selection has moved meanwhile. */
    method CheckPredecessor(s: Snapshot, ghost t0: Tables) returns (ok: bool)
      requires Valid() && Inv(t0) && Evolves(t0, Contents()) && s.id in t0.sessions && s == Current(t0, s.id)
      modifies this
      ensures Valid() && Evolves(old(Contents()), Contents())
      ensures !ok ==> Contents().selection != old(Contents()).selection
      ensures quiet ==> old(quiet) && Contents() == old(Contents())
      decreases s.id, 0
    {
      assert worker == t0.worker;
      hide Evolves, EntriesOk, SelectionOk, RowsReadable;
      ghost var t1 := Contents();
      EvolvesReflexive(t1);
      assert SessionOk(worker, t0.sessions, s.id);
      if s.row.predecessor.None? {
        return s.row.generation == 1;
      }
      var p := s.row.predecessor.value;
      assert SessionOk(worker, t0.sessions, p);
      EndedStays(t0, t1, p);
      var q := Load(p);
      EndedStays(t1, Contents(), p);
      ok := q.Some? && PredecessorMatches(s.row, q.value.row);
    }

    // ---- admission ------------------------------------------------------------------------------

    method AbandonTransaction(s: Snapshot, now: int) returns (ok: bool)
      requires Valid() && Live(s.row.state)
      modifies this`sessions, this`entries
      ensures Valid() && Evolves(old(Contents()), Contents())
      ensures Contents() == Settle(old(Contents()), AbandonStep(old(Contents()), s, now))
      ensures ok <==> AbandonStep(old(Contents()), s, now).Committed?
    {
      hide Evolves, SessionsOk;
      ApplyKeepsInv(Contents(), AbandonOp(s, now));
      ApplyEvolves(Contents(), AbandonOp(s, now));
      ok := OpenUnsealed(Contents()) && Fenced(Contents(), s) && Expired(now, s.row.freshUntil);
      if ok {
        sessions := sessions[s.id := sessions[s.id].(state := ABANDONED)];
        entries := entries - {s.id};
      }
    }

    method ExpireStaleSessions(now: int)
      modifies this`sessions, this`entries
      ensures Contents() == ExpireStale(old(Contents()), now)
    {
      sessions := map id | id in sessions :: Expire(sessions[id], now);
      entries := entries - (set id | id in sessions && sessions[id].state == ABANDONED);
    }

    method InsertSession(input: Admission, id: SessionId, ordinal: int)
      requires id == AdmittedId(input, ordinal)
      modifies this`sessions, this`entries
      ensures Contents() == Insert(old(Contents()), input, ordinal)
    {
      sessions := sessions[id := NewSession(input, ordinal)];
      var rows: seq<EntryRow> := [];
      for k := 0 to |input.descriptor.payloads|
        invariant rows == ExpectedEntries(input.descriptor)[..k]
        invariant sessions == old(sessions)[id := NewSession(input, ordinal)] && entries == old(entries)
      {
        rows := rows + [EntryRow(input.descriptor.payloads[k], None, None, None, EntryExpected)];
      }
      assert rows == ExpectedEntries(input.descriptor);
      entries := entries[id := rows];
    }

    /** The admission transaction; whatever it wrote before an error is rolled back. */
    method AdmitTransaction(input: Admission, id: SessionId, ordinal: int, nowExpire: int, nowFresh: int)
      returns (resolved: Option<SessionId>, thrown: bool)
      requires Valid() && WellFormed(worker, input) && id == AdmittedId(input, ordinal)
      modifies this`sessions, this`entries, this`selection, this`manifests
      ensures Valid()
      ensures Contents() == SettleAdmission(old(Contents()),
                              AdmitStep(old(Contents()), input, ordinal, nowExpire, nowFresh))
      ensures match AdmitStep(old(Contents()), input, ordinal, nowExpire, nowFresh)
              case AdmitAborted => thrown
              case AdmitRetry(_) => !thrown && resolved.None?
              case AdmitResolved(_, found) => !thrown && resolved == Some(found)
    {
      hide SelectionOk, EntriesOk, SessionsOk;
      ghost var t := Contents();
      resolved, thrown := None, false;
      if found :| found in sessions && IsExisting(Contents(), input, found) {
        forall other | IsExisting(t, input, other) ensures other == found {
          ExistingUnique(t, input, other, found);
        }
        resolved := Some(found);
        return;
      }
      assert forall x :: !IsExisting(t, input, x);
      if !OpenUnsealed(Contents()) || !IsDate(nowExpire) {
        thrown := true;
        return;
      }
      resolved, thrown := AdmitNew(input, id, ordinal, nowExpire, nowFresh);
    }

    /** Expiry, capacity, freshness, ordinal and predecessor, in this order; then the rows are inserted. */
    method AdmitNew(input: Admission, id: SessionId, ordinal: int, nowExpire: int, nowFresh: int)
      returns (resolved: Option<SessionId>, thrown: bool)
      requires Valid() && WellFormed(worker, input) && id == AdmittedId(input, ordinal)
      requires OpenUnsealed(Contents()) && IsDate(nowExpire) && forall x :: !IsExisting(Contents(), input, x)
      modifies this`sessions, this`entries, this`selection, this`manifests
      ensures Valid()
      ensures Contents() == SettleAdmission(old(Contents()),
                              AdmitStep(old(Contents()), input, ordinal, nowExpire, nowFresh))
      ensures match AdmitStep(old(Contents()), input, ordinal, nowExpire, nowFresh)
              case AdmitAborted => thrown
              case AdmitRetry(_) => !thrown && resolved.None?
              case AdmitResolved(_, found) => !thrown && resolved == Some(found)
    {
      ghost var t := Contents();
      AdmitKeepsInv(t, input, ordinal, nowExpire, nowFresh);
      resolved, thrown := None, false;
      var saved := Contents();
      ExpireRetires(t, nowExpire);
      hide SelectionOk, EntriesOk, SessionsOk, Retires, IsExisting, OpenUnsealed;
      ExpireStaleSessions(nowExpire);
      RetireKeepsInv(t, Contents());
      if |LiveSessions(sessions)| >= MAX_LIVE_SESSIONS || |sessions| >= MAX_LIFETIME_SESSIONS
         || !FreshFor(nowFresh, input.descriptor.committedAt + TTL_MS) {
        Restore(saved);
        thrown := true;
        return;
      }
      OrdinalsInRange(Contents());
      var next := NextJournalOrdinal();
      if next != ordinal {
        return;
      }
      if !PredecessorAdmits(Contents(), input, ordinal) || !IsStamp(input.descriptor.committedAt + TTL_MS) {
        Restore(saved);
        thrown := true;
        return;
      }
      InsertSession(input, id, ordinal);
      resolved := Some(id);
    }

    lemma OrdinalsInRange(t: Tables)
      requires Inv(t)
      ensures forall id :: id in t.sessions ==> 1 <= t.sessions[id].ordinal <= MAX_LIFETIME_SESSIONS
      ensures NextOrdinal(t) == |t.sessions| + 1
    {
      MaxOrdinalCounts(t.worker, t.sessions, MAX_LIFETIME_SESSIONS);
      forall id | id in t.sessions ensures 1 <= t.sessions[id].ordinal <= MAX_LIFETIME_SESSIONS {
        assert SessionOk(t.worker, t.sessions, id);
      }
    }

    /** One attempt; losing the race for the ordinal leaves more sessions than there were. */
    method AttemptAdmission(input: Admission) returns (c: Option<Creation>, ghost nowExpire: int, ghost nowFresh: int)
      requires Valid() && WellFormed(worker, input)
      modifies this
      ensures Valid() && Evolves(old(Contents()), Contents())
      ensures c.None? ==> |old(sessions)| < |sessions| < MAX_LIFETIME_SESSIONS
      ensures c.Some? ==> c.value != AdmissionConflict
      ensures c.Some? && c.value.Created? ==> c.value.id in sessions && IsExisting(Contents(), input, c.value.id)
      ensures quiet ==>
                old(quiet) && c.Some? && CreationAnswers(old(Contents()), Contents(), input, nowExpire, nowFresh, c.value)
    {
      hide Evolves, EntriesOk, SelectionOk, CreationAnswers, AdmitStep, SessionsOk, IsExisting, WellFormed, NextOrdinal;
      nowExpire, nowFresh := 0, 0;
      ghost var t1 := Contents();
      OrdinalsInRange(t1);
      var ordinal := NextJournalOrdinal();
      if ordinal > MAX_LIFETIME_SESSIONS {
        EvolvesReflexive(t1);
        FullAnswers(t1, input, nowExpire, nowFresh);
        c := Some(Refused);
        return;
      }
      var id := AdmittedId(input, ordinal);
      Await();
      ghost var t2 := Contents();
      var expiry := ClockNow();
      var freshness := ClockNow();
      nowExpire, nowFresh := expiry, freshness;
      AdmitEvolves(t2, input, ordinal, expiry, freshness);
      if |t2.sessions| + 1 == ordinal {
        AdmitAnswers(t2, input, expiry, freshness);
      }
      var resolved, thrown := AdmitTransaction(input, id, ordinal, expiry, freshness);
      ghost var t3 := Contents();
      EvolvesTransitive(t1, t2, t3);
      if thrown {
        c := Some(Refused);
      } else if resolved.None? {
        RetryCrowds(t1, t2, input, ordinal, expiry, freshness);
        c := None;
      } else {
        c := LoadCreated(input, resolved.value, t2, ordinal, expiry, freshness);
        EvolvesTransitive(t1, t3, Contents());
      }
    }

    /** The session found or inserted is read back. */
    method LoadCreated(input: Admission, id: SessionId, ghost t: Tables, ghost ordinal: int, ghost expiry: int,
                       ghost freshness: int) returns (c: Option<Creation>)
      requires Valid() && Inv(t) && WellFormed(t.worker, input)
      requires AdmitStep(t, input, ordinal, expiry, freshness) == AdmitResolved(Contents(), id)
      modifies this
      ensures Valid() && Evolves(old(Contents()), Contents())
      ensures c.Some? && c.value in {Created(id), Refused}
      ensures c.value.Created? ==> id in sessions && IsExisting(Contents(), input, id)
      ensures quiet ==> old(quiet) && Contents() == old(Contents()) && c.value == Created(id)
    {
      hide Evolves, EntriesOk, SelectionOk, SessionsOk;
      ghost var t3 := Contents();
      AdmittedIsExisting(t, input, ordinal, expiry, freshness);
      CurrentIsFenced(t3, id);
      var loaded := Load(id);
      ExistingStays(t3, Contents(), input, id);
      c := if loaded.Some? then Some(Created(id)) else Some(Refused);
    }

    /**
     * Eight attempts, each computing the identity for the next free ordinal before it commits. Losing
     * the race means that another session was admitted; the capacity check therefore always ends the
     * loop before the attempts run out. Undisturbed, the first attempt decides.
     */
    method CreateSession(input: Admission) returns (c: Creation, ghost nowExpire: int, ghost nowFresh: int)
      requires Valid() && WellFormed(worker, input)
      modifies this
      ensures Valid() && Evolves(old(Contents()), Contents())
      ensures c != AdmissionConflict
      ensures c.Created? ==> c.id in sessions && IsExisting(Contents(), input, c.id)
      ensures quiet ==> old(quiet) && CreationAnswers(old(Contents()), Contents(), input, nowExpire, nowFresh, c)
    {
      hide Evolves, Inv, CreationAnswers, IsExisting;
      ghost var t0 := Contents();
      EvolvesReflexive(t0);
      nowExpire, nowFresh := 0, 0;
      var attempt := 0;
      while attempt < MAX_LIFETIME_SESSIONS
        invariant Valid() && Evolves(t0, Contents())
        invariant 0 <= attempt <= |sessions|
        invariant attempt < MAX_LIFETIME_SESSIONS
        invariant quiet ==> old(quiet) && attempt == 0 && Contents() == t0
        decreases MAX_LIFETIME_SESSIONS - attempt
      {
        ghost var t1 := Contents();
        var done;
        done, nowExpire, nowFresh := AttemptAdmission(input);
        EntriesOkOf(t0, t1, Contents());
        EvolvesTransitive(t0, t1, Contents());
        if done.Some? {
          c := done.value;
          return;
        }
        attempt := attempt + 1;
      }
      c := AdmissionConflict;
    }

    lemma EntriesOkOf(t: Tables, u: Tables, v: Tables)
      requires Inv(t) && Inv(u) && Inv(v)
      ensures EntriesOk(t) && EntriesOk(u) && EntriesOk(v)
    {
    }

    lemma AdmittedIsExisting(t: Tables, input: Admission, ordinal: int, nowExpire: int, nowFresh: int)
      requires Inv(t) && WellFormed(t.worker, input)
      requires AdmitStep(t, input, ordinal, nowExpire, nowFresh).AdmitResolved?
      ensures var o := AdmitStep(t, input, ordinal, nowExpire, nowFresh);
              IsExisting(o.tables, input, o.id)
    {
    }

    /** A lost race leaves more sessions than there were when the ordinal was read, but fewer than eight. */
    lemma RetryCrowds(t: Tables, u: Tables, input: Admission, ordinal: int, nowExpire: int, nowFresh: int)
      requires Inv(t) && Inv(u) && Evolves(t, u) && ordinal == |t.sessions| + 1
      requires AdmitStep(u, input, ordinal, nowExpire, nowFresh).AdmitRetry?
      ensures var v := AdmitStep(u, input, ordinal, nowExpire, nowFresh).tables;
              |t.sessions| < |v.sessions| < MAX_LIFETIME_SESSIONS
    {
      ExpireKeepsNext(u, nowExpire);
      SubsetCard(t.sessions.Keys, u.sessions.Keys);
      assert |t.sessions.Keys| == |t.sessions| && |u.sessions.Keys| == |u.sessions|;
    }

    method CommitAbandon(s: Snapshot) returns (r: Option<SessionRow>)
      requires Valid() && Live(s.row.state)
      modifies this
      ensures Valid() && Evolves(old(Contents()), Contents())
      ensures r.Some? ==> s.id in sessions && r == Some(sessions[s.id]) && sessions[s.id].state == ABANDONED
      ensures quiet ==> old(quiet)
    {
      ghost var t0 := Contents();
      var now := ClockNow();
      var ok := AbandonTransaction(s, now);
      if !ok {
        return None;
      }
      ghost var t1 := Contents();
      var loaded := Load(s.id);
      EvolvesTransitive(t0, t1, Contents());
      EndedStays(t1, Contents(), s.id);
      return if loaded.Some? then Some(loaded.value.row) else None;
    }

    method AbandonExpired(id: SessionId) returns (r: Option<SessionRow>)
      requires Valid()
      modifies this
      ensures Valid() && Evolves(old(Contents()), Contents())
      ensures r.Some? ==> id in sessions && r == Some(sessions[id]) && sessions[id].state == ABANDONED
      ensures quiet ==> old(quiet)
    {
      ghost var t0 := Contents();
      var loaded := Load(id);
      if loaded.None? {
        return None;
      }
      var row := loaded.value.row;
      if row.state == ABANDONED {
        return Some(row);
      }
      var now := ClockNow();
      if !Live(row.state) || !Expired(now, row.freshUntil) {
        return None;
      }
      ghost var t1 := Contents();
      r := CommitAbandon(loaded.value);
      EvolvesTransitive(t0, t1, Contents());
    }

    /** A session found instead of created is expired first if its time is up. */
    lemma CurrentIsFenced(t: Tables, id: SessionId)
      ensures id in t.sessions ==> Fenced(t, Current(t, id))
    {
    }

    method ResolveExisting(id: SessionId) returns (r: Option<SessionRow>)
      requires Valid()
      modifies this
      ensures Valid() && Evolves(old(Contents()), Contents())
      ensures r.Some? ==> id in sessions && r == Some(sessions[id])
      ensures quiet ==> old(quiet) && (id in old(sessions) && !Live(old(sessions)[id].state) ==>
                                         Contents() == old(Contents()) && r.Some?)
    {
      ghost var t0 := Contents();
      CurrentIsFenced(t0, id);
      var loaded := Load(id);
      if loaded.None? {
        return None;
      }
      var now := ClockNow();
      if Live(loaded.value.row.state) && Expired(now, loaded.value.row.freshUntil) {
        ghost var t1 := Contents();
        r := AbandonExpired(id);
        EvolvesTransitive(t0, t1, Contents());
      } else {
        r := if IsDate(now) || !Live(loaded.value.row.state) then Some(loaded.value.row) else None;
      }
    }

    /** What a first admission answers when nobody disturbs it. */
    ghost predicate InitialAnswers(t: Tables, u: Tables, payloads: seq<Name>, at: int, expiry: int, freshness: int,
                                   r: Option<SessionId>) {
      var d := Descriptor(t.worker, payloads, at);
      if |payloads| != ROSTER_SIZE || !IsStamp(at) then r.None? && u == t
      else if exists x :: IsInitial(t, SetOf(d), x) then
        forall x :: IsInitial(t, SetOf(d), x) ==>
          && (r.Some? ==> r.value == x)
          && (t.sessions[x].state !in {PROVISIONAL, STAGED} ==> r == Some(x) && u == t)
      else if Admissible(t, Admission(d, 1, None), expiry, freshness) then
        r == Some(NewId(t, Admission(d, 1, None))) && HasAdmitted(t, u, Admission(d, 1, None), expiry)
      else r.None? && u == t
    }

    method BeginInitial(payloads: seq<Name>)
      returns (r: Option<SessionId>, ghost at: int, ghost expiry: int, ghost freshness: int)
      requires Valid()
      modifies this
      ensures Valid() && Evolves(old(Contents()), Contents())
      ensures r.Some? ==>
                && |payloads| == ROSTER_SIZE && r.value in sessions
                && IsInitial(Contents(), SetId(worker, payloads), r.value)
      ensures quiet ==>
                old(quiet) && InitialAnswers(old(Contents()), Contents(), payloads, at, expiry, freshness, r)
    {
      hide Evolves, EntriesOk, SelectionOk, InitialAnswers, CreationAnswers;
      r, expiry, freshness := None, 0, 0;
      ghost var t0 := Contents();
      EvolvesReflexive(t0);
      var now := ClockNow();
      at := now;
      if |payloads| != ROSTER_SIZE || !IsStamp(now) {
        UnfitInitial(t0, payloads, at, expiry, freshness);
        return;
      }
      var d := Descriptor(worker, payloads, now);
      var input := Admission(d, 1, None);
      Await();
      ghost var t1 := Contents();
      if found :| found in sessions && IsExisting(Contents(), input, found) {
        var row := ResolveExisting(found);
        EvolvesTransitive(t0, t1, Contents());
        ExistingStays(t1, Contents(), input, found);
        r := if row.Some? then Some(found) else None;
        FoundInitial(t1, Contents(), payloads, at, expiry, freshness, found, r);
        return;
      }
      var c;
      c, expiry, freshness := CreateSession(input);
      EvolvesTransitive(t0, t1, Contents());
      r := if c.Created? then Some(c.id) else None;
      if quiet {
        CreatedInitial(t1, Contents(), payloads, at, expiry, freshness, c, r);
      }
    }

    lemma UnfitInitial(t: Tables, payloads: seq<Name>, at: int, expiry: int, freshness: int)
      requires |payloads| != ROSTER_SIZE || !IsStamp(at)
      ensures InitialAnswers(t, t, payloads, at, expiry, freshness, None)
    {
    }

    lemma FoundInitial(t: Tables, u: Tables, payloads: seq<Name>, at: int, expiry: int, freshness: int, found: SessionId,
                       r: Option<SessionId>)
      requires Inv(t) && |payloads| == ROSTER_SIZE && IsStamp(at) && (r.Some? ==> r.value == found)
      requires IsInitial(t, SetOf(Descriptor(t.worker, payloads, at)), found)
      ensures (!Live(t.sessions[found].state) ==> u == t && r.Some?) ==>
                InitialAnswers(t, u, payloads, at, expiry, freshness, r)
    {
      forall x | IsInitial(t, SetOf(Descriptor(t.worker, payloads, at)), x) ensures x == found {
        SessionsUnique(t, x, found);
      }
    }

    lemma CreatedInitial(t: Tables, u: Tables, payloads: seq<Name>, at: int, expiry: int, freshness: int, c: Creation,
                         r: Option<SessionId>)
      requires |payloads| == ROSTER_SIZE && IsStamp(at)
      requires forall x :: !IsInitial(t, SetOf(Descriptor(t.worker, payloads, at)), x)
      requires CreationAnswers(t, u, Admission(Descriptor(t.worker, payloads, at), 1, None), expiry, freshness, c)
      requires r == if c.Created? then Some(c.id) else None
      ensures InitialAnswers(t, u, payloads, at, expiry, freshness, r)
    {
      var d := Descriptor(t.worker, payloads, at);
      assert forall x :: Repeated(t, Admission(d, 1, None), x) <==> IsInitial(t, SetOf(d), x);
      hide StillFresh, Follows, HasAdmitted, Repeated, IsInitial;
    }

    /** What a reissue answers when nobody disturbs it. */
    ghost predicate ReissueAnswers(t: Tables, u: Tables, p: SessionId, d: Descriptor, at: int, expiry: int, freshness: int,
                                   r: Option<SessionId>) {
      if p !in t.sessions || t.sessions[p].descriptor != d || t.sessions[p].state != ABANDONED then r.None? && u == t
      else if exists x :: IsSuccessor(t, p, x) then
        forall x :: IsSuccessor(t, p, x) ==>
          && (r.Some? ==> r.value == x)
          && (t.sessions[x].state !in {PROVISIONAL, STAGED} ==> r == Some(x) && u == t)
      else
        var input := Admission(Descriptor(t.worker, d.payloads, at), t.sessions[p].generation + 1, Some(p));
        if && input.generation <= 8 && IsStamp(at) && t.sessions[p].committedAt + TTL_MS < at
           && Admissible(t, input, expiry, freshness)
        then r == Some(NewId(t, input)) && HasAdmitted(t, u, input, expiry) else r.None? && u == t
    }

    method ReissueExpired(predecessor: SessionId, descriptor: Descriptor)
      returns (r: Option<SessionId>, ghost at: int, ghost expiry: int, ghost freshness: int)
      requires Valid()
      modifies this
      ensures Valid() && Evolves(old(Contents()), Contents())
      ensures r.Some? ==>
                && r.value in sessions && IsSuccessor(Contents(), predecessor, r.value)
                && predecessor in sessions && sessions[predecessor].state == ABANDONED
                && sessions[predecessor].descriptor == descriptor
                && sessions[predecessor].setId == sessions[r.value].setId
                && sessions[predecessor].freshUntil < sessions[r.value].committedAt
      ensures quiet ==>
                old(quiet) && ReissueAnswers(old(Contents()), Contents(), predecessor, descriptor, at, expiry, freshness, r)
    {
      hide Evolves, EntriesOk, SelectionOk, ReissueAnswers, CreationAnswers;
      r, at, expiry, freshness := None, 0, 0, 0;
      ghost var t0 := Contents();
      CurrentIsFenced(t0, predecessor);
      var loaded := Load(predecessor);
      if loaded.None? || loaded.value.row.descriptor != descriptor || loaded.value.row.state != ABANDONED {
        UnfitUnanswered(t0, predecessor, descriptor, at, expiry, freshness);
        return;
      }
      var row := loaded.value.row;
      ghost var t1 := Contents();
      var input := Admission(row.descriptor, row.generation + 1, Some(predecessor));
      if found :| found in sessions && IsExisting(Contents(), input, found) {
        r := ReissueFound(predecessor, found);
        EvolvesTransitive(t0, t1, Contents());
        EndedStays(t1, Contents(), predecessor);
        FoundAnswers(t1, Contents(), predecessor, descriptor, found, at, expiry, freshness, r);
        return;
      }
      r, at, expiry, freshness := ReissueNew(predecessor, row);
      EvolvesTransitive(t0, t1, Contents());
    }

    /** No successor yet: a new one, committed at the time this call reads. */
    method ReissueNew(predecessor: SessionId, row: SessionRow)
      returns (r: Option<SessionId>, ghost at: int, ghost expiry: int, ghost freshness: int)
      requires Valid() && predecessor in sessions && sessions[predecessor] == row && row.state == ABANDONED
      requires forall x :: !IsSuccessor(Contents(), predecessor, x)
      modifies this
      ensures Valid() && Evolves(old(Contents()), Contents())
      ensures r.Some? ==> r.value in sessions && IsSuccessor(Contents(), predecessor, r.value)
      ensures predecessor in sessions && sessions[predecessor] == row
      ensures r.Some? ==> row.setId == sessions[r.value].setId && row.freshUntil < sessions[r.value].committedAt
      ensures quiet ==>
                old(quiet) && ReissueAnswers(old(Contents()), Contents(), predecessor, row.descriptor, at, expiry, freshness, r)
    {
      hide Evolves, EntriesOk, SelectionOk, ReissueAnswers, CreationAnswers;
      ghost var t1 := Contents();
      EvolvesReflexive(t1);
      r, expiry, freshness := None, 0, 0;
      var now := ClockNow();
      at := now;
      assert SessionOk(worker, sessions, predecessor);
      if row.generation + 1 > MAX_LIFETIME_SESSIONS || !IsStamp(now) || now <= row.freshUntil {
        UntimelyUnanswered(t1, predecessor, row.descriptor, at, expiry, freshness);
        return;
      }
      var input := Admission(Descriptor(worker, row.descriptor.payloads, now), row.generation + 1, Some(predecessor));
      Await();
      ghost var t2 := Contents();
      var c;
      c, expiry, freshness := CreateSession(input);
      EvolvesTransitive(t1, t2, Contents());
      EndedStays(t1, Contents(), predecessor);
      if c.Created? {
        r := Some(c.id);
        SuccessorFollows(Contents(), predecessor, c.id);
      }
      if quiet {
        CreatedAnswers(t1, Contents(), predecessor, row.descriptor, at, expiry, freshness, c, r);
      }
    }

    /** The successor there is already. */
    method ReissueFound(predecessor: SessionId, found: SessionId) returns (r: Option<SessionId>)
      requires Valid() && IsSuccessor(Contents(), predecessor, found)
      modifies this
      ensures Valid() && Evolves(old(Contents()), Contents())
      ensures r.Some? ==> r.value == found
      ensures IsSuccessor(Contents(), predecessor, found) && predecessor in sessions
      ensures sessions[predecessor].setId == sessions[found].setId
      ensures sessions[predecessor].freshUntil < sessions[found].committedAt
      ensures quiet ==> old(quiet) && (!Live(old(sessions)[found].state) ==> Contents() == old(Contents()) && r.Some?)
    {
      hide Evolves, EntriesOk, SelectionOk, SessionsOk;
      ghost var t1 := Contents();
      var resolved := ResolveExisting(found);
      SuccessorStays(t1, Contents(), predecessor, found);
      SuccessorFollows(Contents(), predecessor, found);
      r := if resolved.Some? then Some(found) else None;
    }

    lemma SuccessorStays(t: Tables, u: Tables, p: SessionId, id: SessionId)
      requires Evolves(t, u) && IsSuccessor(t, p, id)
      ensures IsSuccessor(u, p, id)
    {
      assert RowEvolves(t.sessions[id], u.sessions[id]);
    }

    lemma UnfitUnanswered(t: Tables, p: SessionId, d: Descriptor, at: int, expiry: int, freshness: int)
      ensures p !in t.sessions || t.sessions[p].descriptor != d || t.sessions[p].state != ABANDONED ==>
                ReissueAnswers(t, t, p, d, at, expiry, freshness, None)
    {
    }

    lemma FoundAnswers(t: Tables, u: Tables, p: SessionId, d: Descriptor, found: SessionId, at: int, expiry: int, freshness: int,
                       r: Option<SessionId>)
      requires Inv(t) && IsSuccessor(t, p, found) && (r.Some? ==> r.value == found)
      requires p in t.sessions && t.sessions[p].descriptor == d && t.sessions[p].state == ABANDONED
      ensures (!Live(t.sessions[found].state) ==> u == t && r.Some?) ==> ReissueAnswers(t, u, p, d, at, expiry, freshness, r)
    {
      forall x | IsSuccessor(t, p, x) ensures x == found {
        SessionsUnique(t, x, found);
      }
    }

    lemma UntimelyUnanswered(t: Tables, p: SessionId, d: Descriptor, at: int, expiry: int, freshness: int)
      requires Inv(t) && p in t.sessions && t.sessions[p].descriptor == d && t.sessions[p].state == ABANDONED
      requires forall x :: !IsSuccessor(t, p, x)
      requires t.sessions[p].generation + 1 > 8 || !IsStamp(at) || at <= t.sessions[p].freshUntil
      ensures ReissueAnswers(t, t, p, d, at, expiry, freshness, None)
    {
      assert SessionOk(t.worker, t.sessions, p);
    }

    lemma CreatedAnswers(t: Tables, u: Tables, p: SessionId, d: Descriptor, at: int, expiry: int, freshness: int, c: Creation,
                         r: Option<SessionId>)
      requires Inv(t) && p in t.sessions && t.sessions[p].descriptor == d && t.sessions[p].state == ABANDONED
      requires forall x :: !IsSuccessor(t, p, x)
      requires t.sessions[p].generation + 1 <= 8 && IsStamp(at) && t.sessions[p].freshUntil < at
      requires var input := Admission(Descriptor(t.worker, d.payloads, at), t.sessions[p].generation + 1, Some(p));
               CreationAnswers(t, u, input, expiry, freshness, c)
      requires r == if c.Created? then Some(c.id) else None
      ensures ReissueAnswers(t, u, p, d, at, expiry, freshness, r)
    {
      assert SessionOk(t.worker, t.sessions, p);
      var input := Admission(Descriptor(t.worker, d.payloads, at), t.sessions[p].generation + 1, Some(p));
      assert forall x :: Repeated(t, input, x) <==> IsSuccessor(t, p, x);
      hide StillFresh, Follows, HasAdmitted, Inv, Repeated, IsSuccessor;
    }

    lemma SuccessorFollows(t: Tables, p: SessionId, id: SessionId)
      requires Inv(t) && IsSuccessor(t, p, id)
      ensures p in t.sessions && t.sessions[p].setId == t.sessions[id].setId
      ensures t.sessions[p].freshUntil < t.sessions[id].committedAt
    {
      assert SessionOk(t.worker, t.sessions, id);
      assert SessionOk(t.worker, t.sessions, p);
    }

    // ---- staging --------------------------------------------------------------------------------

    method StageTransaction(s: Snapshot, e: Envelope, now: int) returns (ok: bool)
      requires Valid() && ParsesEnvelope(e, s.row.descriptor) && e.kind < |s.entries|
      requires s.entries[e.kind].status == EntryExpected && s.row.state == PROVISIONAL
      modifies this
      ensures Valid() && Evolves(old(Contents()), Contents())
      ensures Contents() == Settle(old(Contents()), StageStep(old(Contents()), s, e, now))
      ensures ok <==> StageStep(old(Contents()), s, e, now).Committed?
      ensures ok ==> s.id in entries && e.kind < |entries[s.id]| && EnvelopeStored(entries[s.id][e.kind], e)
    {
      hide Evolves, SessionsOk, SelectionOk;
      ghost var t := Contents();
      StageSafe(t, s, e, now);
      ok := false;
      if s.id !in sessions || !SameIdentity(s.row, sessions[s.id]) {
        return;
      }
      assert SessionEntriesOk(t, s.id);
      if s.id !in entries || e.kind >= |entries[s.id]| {
        return;
      }
      assert EntryOk(sessions[s.id].descriptor, e.kind, entries[s.id][e.kind], RowPins(sessions[s.id], selection));
      if entries[s.id][e.kind].status != EntryExpected {
        ok := EnvelopeStored(entries[s.id][e.kind], e);
        return;
      }
      if sessions[s.id].state != PROVISIONAL || selection.phase != OPEN || !Fresh(now, sessions[s.id].freshUntil) {
        return;
      }
      entries := entries[s.id := Staged(entries[s.id], e)];
      if !SomeAt(entries[s.id], EntryExpected) {
        sessions := sessions[s.id := sessions[s.id].(state := STAGED)];
      }
      ok := true;
      assert sessions == Settle(t, StageStep(t, s, e, now)).sessions;
    }

    method StageEnvelope(id: SessionId, e: Envelope) returns (ok: bool)
      requires Valid()
      modifies this
      ensures Valid() && Evolves(old(Contents()), Contents())
      ensures ok ==> StandsStaged(Contents(), id, e)
    {
      hide Evolves, SessionsOk, EntriesOk, SelectionOk;
      ghost var t0 := Contents();
      var loaded := Load(id);
      if loaded.None? {
        return false;
      }
      var s := loaded.value;
      ghost var t1 := Contents();
      Await();
      ghost var t2 := Contents();
      EvolvesTransitive(t0, t1, t2);
      if !ParsesEnvelope(e, s.row.descriptor) || e.kind >= |s.entries| {
        return false;
      }
      if s.entries[e.kind].status != EntryExpected {
        ok := EnvelopeStored(s.entries[e.kind], e);
        if ok {
          StagedStands(t1, t2, id, e);
        }
        return;
      }
      if s.row.state != PROVISIONAL {
        return false;
      }
      var now := ClockNow();
      ok := StageTransaction(s, e, now);
      ghost var t3 := Contents();
      EvolvesTransitive(t0, t2, t3);
      if ok {
        loaded := Load(id);
        EvolvesTransitive(t0, t3, Contents());
        StagedStands(t3, Contents(), id, e);
        ok := loaded.Some?;
      }
    }

    /** The entry holds this envelope, or the session has ended and its entries are gone. */
    predicate StandsStaged(t: Tables, id: SessionId, e: Envelope) {
      && id in t.sessions
      && (Terminal(t.sessions[id].state)
          || (id in t.entries && 0 <= e.kind < |t.entries[id]| && EnvelopeStored(t.entries[id][e.kind], e)))
    }

    lemma StagedStands(t: Tables, u: Tables, id: SessionId, e: Envelope)
      requires Evolves(t, u) && Inv(t) && Inv(u) && StandsStaged(t, id, e)
      ensures StandsStaged(u, id, e)
    {
      assert SessionEntriesOk(u, id);
      assert RowEvolves(t.sessions[id], u.sessions[id]);
      if id in t.entries && id in u.entries {
        assert RosterEvolves(t.entries[id], u.entries[id]);
      }
    }

    // ---- selection ------------------------------------------------------------------------------

    method RejectTransaction(s: Snapshot) returns (ok: bool)
      requires Valid()
      modifies this
      ensures Valid() && Evolves(old(Contents()), Contents())
      ensures Contents() == Settle(old(Contents()), RejectStep(old(Contents()), s))
      ensures ok <==> RejectStep(old(Contents()), s).Committed?
    {
      RejectSafe(Contents(), s);
      ok := Fenced(Contents(), s) && s.selection.phase == OPEN && sessions[s.id].state == STAGED;
      if ok {
        sessions := sessions[s.id := sessions[s.id].(state := REJECTED)];
        entries := entries - {s.id};
      }
    }

    method SealEntries(rows: seq<EntryRow>, envelopes: seq<Envelope>, pins: Pins) returns (sealed: seq<EntryRow>)
      requires |envelopes| == |rows|
      ensures sealed == Sealed(rows, envelopes, pins)
    {
      sealed := rows;
      for k := 0 to |rows|
        invariant |sealed| == |rows|
        invariant forall j :: 0 <= j < k ==> sealed[j] == Sealed(rows, envelopes, pins)[j]
        invariant forall j :: k <= j < |rows| ==> sealed[j] == rows[j]
      {
        sealed := sealed[k := sealed[k].(effect := Some(ComponentEffect(envelopes[k], pins)), status := EntrySealed)];
      }
    }

    lemma ClaimInSteps(t: Tables, id: SessionId, sealed: seq<EntryRow>, pins: Pins)
      requires id in t.sessions && t.sessions[id].state == STAGED
      ensures var chosen := t.sessions[id := t.sessions[id].(state := SELECTED)];
              var others := map x | x in chosen :: if x == id then chosen[x] else Supersede(chosen[x]);
              var left := t.entries[id := sealed] - (set x | x in others && others[x].state == SUPERSEDED);
              Claim(t, id, sealed, pins) ==
                Tables(t.worker, others, left, SelectionRow(COMPONENT_EFFECTS_SEALED, Some(id), Some(pins), None), t.manifests)
    {
      var chosen := t.sessions[id := t.sessions[id].(state := SELECTED)];
      var others := map x | x in chosen :: if x == id then chosen[x] else Supersede(chosen[x]);
      assert others == Claim(t, id, sealed, pins).sessions;
    }

    /** The five statements of the group claim, in their order. */
    method ClaimGroup(id: SessionId, envelopes: seq<Envelope>, pins: Pins)
      requires id in sessions && id in entries && |envelopes| == |entries[id]|
      requires sessions[id].state == STAGED
      modifies this
      ensures Contents() == Claim(old(Contents()), id, Sealed(old(entries)[id], envelopes, pins), pins)
    {
      hide Claim, Supersede, Sealed;
      ClaimInSteps(Contents(), id, Sealed(entries[id], envelopes, pins), pins);
      selection := SelectionRow(COMPONENT_EFFECTS_SEALED, Some(id), Some(pins), None);
      sessions := sessions[id := sessions[id].(state := SELECTED)];
      var sealed := SealEntries(entries[id], envelopes, pins);
      entries := entries[id := sealed];
      sessions := map x | x in sessions :: if x == id then sessions[x] else Supersede(sessions[x]);
      entries := entries - (set x | x in sessions && sessions[x].state == SUPERSEDED);
    }

    /** The group claim: one session selected, its fifteen effects sealed, all other live sessions ended. */
    method SealTransaction(s: Snapshot, pins: Pins, now: int) returns (ok: bool)
      requires Valid()
      requires s.row.state == STAGED && ValidPins(pins) && |Derived(s).envelopes| == ROSTER_SIZE
      modifies this
      ensures Valid() && Evolves(old(Contents()), Contents())
      ensures Contents() == Settle(old(Contents()), SealStep(old(Contents()), s, pins, now))
      ensures ok <==> SealStep(old(Contents()), s, pins, now).Committed?
    {
      SealSafe(Contents(), s, pins, now);
      ok := false;
      if selection.phase == COMPONENT_EFFECTS_SEALED && selection.selected == Some(s.id) {
        ok := selection.pins == Some(pins);
        return;
      }
      if !Fenced(Contents(), s) || !Fresh(now, s.row.freshUntil) {
        return;
      }
      if selection.phase != OPEN || selection.selected.Some? {
        return;
      }
      if |s.entries| != ROSTER_SIZE || !AllIn(s.entries, {EntryStaged}) {
        return;
      }
      assert SessionEntriesOk(Contents(), s.id);
      ClaimGroup(s.id, Derived(s).envelopes, pins);
      ok := true;
    }

    method SealedPlans(id: SessionId, pins: Pins) returns (plans: Option<seq<Effect>>)
      requires Valid()
      modifies this
      ensures Valid() && Evolves(old(Contents()), Contents())
      ensures plans.Some? ==>
                && selection.selected == Some(id) && selection.pins == Some(pins)
                && id in entries && |plans.value| == |entries[id]| == ROSTER_SIZE
                && forall k :: 0 <= k < ROSTER_SIZE ==> entries[id][k].effect == Some(plans.value[k])
    {
      var loaded := Load(id);
      if loaded.None? || loaded.value.row.state != SELECTED || loaded.value.selection.pins != Some(pins) {
        return None;
      }
      EffectsAligned(Contents(), id);
      assert SessionEntriesOk(Contents(), id);
      plans := Some(Derived(loaded.value).effects);
    }

    method CommitReject(s: Snapshot) returns (ok: bool)
      requires Valid()
      modifies this
      ensures Valid() && Evolves(old(Contents()), Contents())
      ensures ok ==> s.id in sessions && sessions[s.id].state == REJECTED
    {
      ghost var t0 := Contents();
      ok := RejectTransaction(s);
      if ok {
        ghost var t1 := Contents();
        var loaded := Load(s.id);
        EvolvesTransitive(t0, t1, Contents());
        EndedStays(t1, Contents(), s.id);
        ok := loaded.Some?;
      }
    }

    method CommitSeal(s: Snapshot, pins: Pins) returns (ok: bool)
      requires Valid() && s.row.state == STAGED && ValidPins(pins) && |Derived(s).envelopes| == ROSTER_SIZE
      modifies this
      ensures Valid() && Evolves(old(Contents()), Contents())
      ensures ok ==> selection.selected == Some(s.id) && selection.pins == Some(pins)
    {
      ghost var t0 := Contents();
      var now := ClockNow();
      ok := SealTransaction(s, pins, now);
      if ok {
        ghost var t1 := Contents();
        var plans := SealedPlans(s.id, pins);
        EvolvesTransitive(t0, t1, Contents());
        ok := plans.Some?;
      }
    }

    /** Two equal reads around the verdict, then the commit it calls for. */
    method Decide(s: Snapshot, verdict: Decision) returns (ok: bool)
      requires Valid() && (verdict.Accept? ==> ValidPins(verdict.pins))
      requires s.id in sessions && s == Current(Contents(), s.id) && s.row.state == STAGED
      modifies this
      ensures Valid() && Evolves(old(Contents()), Contents())
      ensures ok && verdict.Reject? ==> s.id in sessions && sessions[s.id].state == REJECTED
      ensures ok && verdict.Accept? ==> selection.selected == Some(s.id) && selection.pins == Some(verdict.pins)
    {
      match verdict
      case Reject =>
        ok := CommitReject(s);
      case Accept(pins) =>
        ghost var t0 := Contents();
        assert SessionEntriesOk(t0, s.id);
        ParsedEnvelopes(s.row.descriptor, s.entries, None);
        Await();
        ghost var t1 := Contents();
        ok := CommitSeal(s, pins);
        EvolvesTransitive(t0, t1, Contents());
    }

    /** The verdict is in: read again, and act on it if nothing has moved since the first read. */
    method SelectAfter(initial: Snapshot, verdict: Decision) returns (ok: bool)
      requires Valid() && (verdict.Accept? ==> ValidPins(verdict.pins))
      modifies this
      ensures Valid() && Evolves(old(Contents()), Contents())
      ensures ok ==>
                || (verdict.Reject? && initial.id in sessions && sessions[initial.id].state == REJECTED)
                || (verdict.Accept? && selection.selected == Some(initial.id) && selection.pins == Some(verdict.pins))
    {
      ghost var t0 := Contents();
      ok := false;
      var current := Load(initial.id);
      ghost var t1 := Contents();
      if current.None? {
        return;
      }
      if current.value.row.state == SELECTED && verdict.Accept? {
        var plans := SealedPlans(initial.id, verdict.pins);
        ok := plans.Some?;
      } else if initial == current.value && initial.row.state == STAGED {
        ok := Decide(initial, verdict);
      } else {
        return;
      }
      EvolvesTransitive(t0, t1, Contents());
    }

    /** `verdict` is what the semantic validator says of the envelopes of the first read. */
    method SelectAndSeal(id: SessionId, verdict: Decision) returns (ok: bool)
      requires Valid() && (verdict.Accept? ==> ValidPins(verdict.pins))
      modifies this
      ensures Valid() && Evolves(old(Contents()), Contents())
      ensures ok ==>
                || (id in sessions && sessions[id].state == REJECTED)
                || (verdict.Accept? && selection.selected == Some(id) && selection.pins == Some(verdict.pins))
    {
      ghost var t0 := Contents();
      var initial := Load(id);
      if initial.None? {
        return false;
      }
      var state := initial.value.row.state;
      if state != STAGED && state != SELECTED {
        return state == REJECTED;
      }
      ghost var t1 := Contents();
      Await();
      ghost var t2 := Contents();
      EvolvesTransitive(t0, t1, t2);
      ok := SelectAfter(initial.value, verdict);
      EvolvesTransitive(t0, t2, Contents());
    }

    // ---- component confirmation -----------------------------------------------------------------

    /** The effects that still lack a result, paired by position with the entries. */
    method UnresolvedEffects(s: Snapshot) returns (effects: Option<seq<Effect>>)
      ensures effects.Some? <==> |Derived(s).effects| == ROSTER_SIZE && |s.entries| <= ROSTER_SIZE
      ensures effects.Some? ==>
                forall e :: e in effects.value <==>
                  exists k :: 0 <= k < |s.entries| && s.entries[k].status == EntrySealed && Derived(s).effects[k] == e
    {
      var derived := Derived(s).effects;
      if |derived| != ROSTER_SIZE || |s.entries| > ROSTER_SIZE {
        return None;
      }
      var list: seq<Effect> := [];
      for k := 0 to |s.entries|
        invariant forall e :: e in list <==>
                    exists j :: 0 <= j < k && s.entries[j].status == EntrySealed && derived[j] == e
      {
        if s.entries[k].status == EntrySealed {
          list := list + [derived[k]];
        }
      }
      effects := Some(list);
    }

    method ConfirmTransaction(s: Snapshot, e: Effect, r: ResultBytes) returns (ok: bool)
      requires Valid() && Confirmable(s, e, r)
      modifies this
      ensures Valid() && Evolves(old(Contents()), Contents())
      ensures Contents() == Settle(old(Contents()), ConfirmStep(old(Contents()), s, e, r))
      ensures ok <==> ConfirmStep(old(Contents()), s, e, r).Committed?
      ensures ok ==> Holds(s.id, e, r)
    {
      hide Evolves, SessionsOk, SelectionOk;
      ConfirmSafe(Contents(), s, e, r);
      ok := false;
      var found := FindEffect(EntriesOf(Contents(), s.id), e);
      if found.None? {
        return;
      }
      var k := found.value;
      if entries[s.id][k].status == EntryConfirmed {
        ok := entries[s.id][k].result == Some(r);
        assert ok ==> ConfirmedRow(entries[s.id][k], e, r);
        return;
      }
      if !SessionFence(Contents(), s) || FindEffect(s.entries, e) != Some(k) || s.entries[k] != entries[s.id][k]
         || selection != s.selection {
        return;
      }
      if entries[s.id][k].status != EntrySealed || s.selection.phase != COMPONENT_EFFECTS_SEALED {
        return;
      }
      entries := entries[s.id := Confirmed(entries[s.id], k, r)];
      if !SomeAt(entries[s.id], EntrySealed) {
        selection := selection.(phase := COMPONENTS_CONFIRMED);
      }
      ok := true;
      assert ConfirmedRow(entries[s.id][k], e, r);
    }

    predicate ConfirmedRow(row: EntryRow, e: Effect, r: ResultBytes) {
      row.effect == Some(e) && row.result == Some(r) && row.status == EntryConfirmed
    }

    /** The entry of this effect is confirmed with exactly these bytes. */
    ghost predicate Holds(id: SessionId, e: Effect, r: ResultBytes)
      reads this
    {
      && id in entries
      && exists k :: 0 <= k < |entries[id]| && ConfirmedRow(entries[id][k], e, r)
    }

    method ConfirmComponent(id: SessionId, e: Effect, r: ResultBytes) returns (ok: bool)
      requires Valid()
      modifies this
      ensures Valid() && Evolves(old(Contents()), Contents())
      ensures ok ==> Holds(id, e, r)
    {
      ghost var t0 := Contents();
      var loaded := Load(id);
      if loaded.None? {
        return false;
      }
      var s := loaded.value;
      ghost var t1 := Contents();
      Await();
      ghost var t2 := Contents();
      EvolvesTransitive(t0, t1, t2);
      if !Confirmable(s, e, r) {
        return false;
      }
      ok := ConfirmTransaction(s, e, r);
      EvolvesTransitive(t0, t2, Contents());
    }

    // ---- manifest -------------------------------------------------------------------------------

    method HoldTransaction(s: Snapshot) returns (ok: bool)
      modifies this`selection
      ensures Contents() == Settle(old(Contents()), HoldStep(old(Contents()), s))
      ensures ok <==> HoldStep(old(Contents()), s).Committed?
    {
      ok := false;
      if selection.phase == HOLD && selection.selected == Some(s.id)
         && selection.holdCode == Some(WORM_VERSION_CONFLICT) && s.id !in manifests {
        ok := true;
      } else if Fenced(Contents(), s) && s.id !in manifests && selection.selected == Some(s.id) {
        selection := selection.(phase := HOLD, holdCode := Some(WORM_VERSION_CONFLICT));
        ok := true;
      }
    }

    method PersistSealTransaction(s: Snapshot) returns (ok: bool)
      requires ComponentsConfirmed(s) && SelectedPins(s)
      modifies this`selection, this`manifests
      ensures Contents() == Settle(old(Contents()), PersistSealStep(old(Contents()), s))
      ensures ok <==> PersistSealStep(old(Contents()), s).Committed?
    {
      ok := false;
      var row := SealedManifest(s);
      if s.id in manifests {
        ok := SameSeal(row, manifests[s.id]);
      } else if Fenced(Contents(), s) {
        manifests := manifests[s.id := row];
        selection := selection.(phase := MANIFEST_EFFECT_SEALED, holdCode := None);
        ok := true;
      }
    }

    method CommitManifestSeal(s: Snapshot) returns (ok: bool)
      requires Valid() && s.selection.phase == COMPONENTS_CONFIRMED
      modifies this
      ensures Valid() && Evolves(old(Contents()), Contents())
      ensures Contents() == Settle(old(Contents()), ManifestSealStep(old(Contents()), s))
      ensures ok <==> ManifestSealStep(old(Contents()), s).Committed?
    {
      ManifestSealSafe(Contents(), s);
      if !ComponentsConfirmed(s) || !SelectedPins(s) {
        ok := false;
      } else if HasDuplicateVersions(Worms(s.entries)) {
        ok := HoldTransaction(s);
      } else {
        ok := PersistSealTransaction(s);
      }
    }

    method ManifestOutcome(id: SessionId) returns (ok: bool)
      requires Valid()
      modifies this
      ensures Valid() && Evolves(old(Contents()), Contents())
      ensures ok ==> selection.selected == Some(id) && Rank(selection.phase) >= 3
    {
      var loaded := Load(id);
      ok := loaded.Some? && SelectedPins(loaded.value) && Rank(loaded.value.selection.phase) >= 3;
    }

    /** Ends sealed, confirmed or held: whichever of the three the tables now say. */
    method SealManifest(id: SessionId) returns (ok: bool)
      requires Valid()
      modifies this
      ensures Valid() && Evolves(old(Contents()), Contents())
      ensures ok ==> selection.selected == Some(id) && Rank(selection.phase) >= 3
    {
      ghost var t0 := Contents();
      var loaded := Load(id);
      if loaded.None? {
        return false;
      }
      ghost var t1 := Contents();
      Await();
      ghost var t2 := Contents();
      EvolvesTransitive(t0, t1, t2);
      if loaded.value.selection.phase == COMPONENTS_CONFIRMED {
        ok := CommitManifestSeal(loaded.value);
        EvolvesTransitive(t0, t2, Contents());
        if !ok {
          return;
        }
      }
      ghost var t3 := Contents();
      ok := ManifestOutcome(id);
      EvolvesTransitive(t0, t3, Contents());
    }

    method PersistResultTransaction(s: Snapshot, m: ManifestRow, r: ResultBytes, collision: bool) returns (ok: bool)
      modifies this`selection, this`manifests
      ensures Contents() == Settle(old(Contents()), PersistResultStep(old(Contents()), s, m, r, collision))
      ensures ok <==> PersistResultStep(old(Contents()), s, m, r, collision).Committed?
      ensures ok ==> s.id in manifests && manifests[s.id].result == Some(r) && manifests[s.id].status != ManifestSealed
    {
      ok := false;
      if s.id !in manifests {
        return;
      }
      var row := manifests[s.id];
      if row.status != ManifestSealed {
        ok := SameSeal(m, row) && row.result == Some(r) && row.pointer == Answered(m, r, collision).pointer;
        return;
      }
      if !Fenced(Contents(), s) || !SameSeal(m, row) || s.selection.phase != MANIFEST_EFFECT_SEALED
         || selection.selected != Some(s.id) {
        return;
      }
      manifests := manifests[s.id := Answered(row, r, collision)];
      selection := Answer(selection, collision);
      ok := true;
    }

    method CommitManifestResult(s: Snapshot, m: ManifestRow, r: ResultBytes) returns (ok: bool)
      requires Valid() && ManifestReadable(s, m) && m.status == ManifestSealed && ParseResult(r, m.effect).Some?
      modifies this
      ensures Valid() && Evolves(old(Contents()), Contents())
      ensures Contents() == Settle(old(Contents()), ManifestResultStep(old(Contents()), s, m, m.effect, r))
      ensures ok ==> s.id in manifests && manifests[s.id].result == Some(r)
    {
      ManifestResultSafe(Contents(), s, m, m.effect, r);
      ok := PersistResultTransaction(s, m, r, Collides(Worms(s.entries), r.worm));
    }

    /** A row that holds a result belongs to a journal that has ended. */
    lemma ResultMeansEnded(t: Tables, id: SessionId)
      requires Inv(t) && id in t.manifests && t.manifests[id].result.Some?
      ensures Rank(t.selection.phase) == 4 && t.selection.selected == Some(id)
    {
    }

    method ConfirmManifest(id: SessionId, e: Effect, r: ResultBytes) returns (ok: bool)
      requires Valid()
      modifies this
      ensures Valid() && Evolves(old(Contents()), Contents())
      ensures ok ==> id in manifests && manifests[id].result == Some(r) && Rank(selection.phase) == 4
    {
      hide Evolves, EntriesOk, SessionsOk, SelectionOk, ManifestReadable;
      ghost var t0 := Contents();
      var loaded := Load(id);
      if loaded.None? || id !in manifests {
        return false;
      }
      var s, m := loaded.value, manifests[id];
      ghost var t1 := Contents();
      Await();
      ghost var t2 := Contents();
      EvolvesTransitive(t0, t1, t2);
      if !Fenced(Contents(), s) || ManifestOf(Contents(), id) != Some(m) || !ManifestReadable(s, m) || m.effect != e {
        return false;
      }
      if m.status != ManifestSealed {
        if m.result == Some(r) {
          ResultMeansEnded(Contents(), id);
          return true;
        }
        return false;
      }
      Await();
      ghost var t3 := Contents();
      EvolvesTransitive(t0, t2, t3);
      if ParseResult(r, e).None? {
        return false;
      }
      ok := CommitManifestResult(s, m, r);
      EvolvesTransitive(t0, t3, Contents());
      if ok {
        ResultMeansEnded(Contents(), id);
      }
    }
  }
}
