/**
 * What each transaction of the component journal does, and exactly when, whatever the age of the snapshot
 * it was prepared from: in terms of the stored rows, and of nothing that the steps are written with.
 */
module ComponentOutcomes {
  import opened Foundation
  import opened Clock
  import opened ComponentTypes
  import opened ComponentReader
  import opened ComponentSteps
  import opened ComponentInvariant
  import opened ComponentSafety
  import opened ComponentRuns
  import opened ComponentReads

  /** The session was read at `t0`, and the transaction commits at `t`. */
  ghost predicate ReadBefore(t0: Tables, t: Tables, id: SessionId) {
    Inv(t0) && Inv(t) && Evolves(t0, t) && id in t0.sessions && id in t.sessions
  }

  /** The session, its entries and the selection are as they were read. */
  predicate Unmoved(t0: Tables, t: Tables, id: SessionId)
    requires id in t0.sessions && id in t.sessions
  {
    t0.sessions[id] == t.sessions[id] && EntriesOf(t0, id) == EntriesOf(t, id) && t0.selection == t.selection
  }

  /** At `now` the 900 seconds of the session are over, as far as comparing the texts can tell. */
  predicate Over(row: SessionRow, now: int) {
    IsDate(now) && row.committedAt + TTL_MS < now <= STAMP_MAX
  }

  predicate InTime(row: SessionRow, now: int) {
    IsDate(now) && (now <= row.committedAt + TTL_MS || now > STAMP_MAX)
  }

  lemma TimesDecide(t: Tables, id: SessionId, now: int)
    requires Inv(t) && id in t.sessions
    ensures Over(t.sessions[id], now) <==> Expired(now, t.sessions[id].freshUntil)
    ensures InTime(t.sessions[id], now) <==> Fresh(now, t.sessions[id].freshUntil)
  {
    assert SessionOk(t.worker, t.sessions, id);
  }

  /** Entry `k` of the roster with its own envelope. */
  function StagedEntry(d: Descriptor, k: nat): EntryRow
    requires k < |d.payloads|
  {
    EntryRow(d.payloads[k], Some(Envelope(d, k, d.payloads[k])), None, None, EntryStaged)
  }

  function SealedEntry(d: Descriptor, k: nat, pins: Pins): EntryRow
    requires k < |d.payloads|
  {
    EntryRow(d.payloads[k], Some(Envelope(d, k, d.payloads[k])), Some(ComponentEffect(Envelope(d, k, d.payloads[k]), pins)),
             None, EntrySealed)
  }

  // ---- ending a session -----------------------------------------------------------------------

  /** The session has ended in this state, without entries; nothing else has changed. */
  predicate HasEnded(t: Tables, u: Tables, id: SessionId, state: SessionState)
    requires id in t.sessions
  {
    && u.worker == t.worker && u.selection == t.selection && u.manifests == t.manifests
    && u.sessions == t.sessions[id := t.sessions[id].(state := state)]
    && id !in u.entries && (forall x :: x in t.entries && x != id ==> x in u.entries && u.entries[x] == t.entries[x])
    && u.entries.Keys <= t.entries.Keys
  }

  /** While the journal is open nothing is sealed. */
  lemma OpenIsUnsealed(t: Tables)
    requires Inv(t) && t.selection.phase == OPEN
    ensures OpenUnsealed(t)
  {
    forall id | id in t.entries ensures AllIn(t.entries[id], {EntryExpected, EntryStaged}) {
      assert SessionEntriesOk(t, id);
    }
  }

  lemma AbandonDecided(t0: Tables, t: Tables, id: SessionId, now: int)
    requires ReadBefore(t0, t, id)
    ensures var u := Apply(t, AbandonOp(Current(t0, id), now));
            && (u != t <==> Unmoved(t0, t, id) && t.selection.phase == OPEN && Live(t.sessions[id].state)
                            && Over(t.sessions[id], now))
            && (u != t ==> HasEnded(t, u, id, ABANDONED))
  {
    TimesDecide(t0, id, now);
    FencedIsUnmoved(t0, t, id);
    if t.selection.phase == OPEN {
      OpenIsUnsealed(t);
    }
    hide Inv, Evolves, Over, Expired, Fenced;
    if Live(t.sessions[id].state) {
      EndingChanges(t, id, ABANDONED);
    }
  }

  lemma EndingChanges(t: Tables, id: SessionId, state: SessionState)
    requires id in t.sessions && t.sessions[id].state != state
    ensures var u := t.(sessions := t.sessions[id := t.sessions[id].(state := state)], entries := t.entries - {id});
            u != t && HasEnded(t, u, id, state)
  {
    var u := t.(sessions := t.sessions[id := t.sessions[id].(state := state)], entries := t.entries - {id});
    assert u.sessions[id] != t.sessions[id];
  }

  lemma RejectDecided(t0: Tables, t: Tables, id: SessionId)
    requires ReadBefore(t0, t, id)
    ensures var u := Apply(t, RejectOp(Current(t0, id)));
            && (u != t <==> Unmoved(t0, t, id) && t.selection.phase == OPEN && t.sessions[id].state == STAGED)
            && (u != t ==> HasEnded(t, u, id, REJECTED))
  {
    hide Inv, Evolves, Fenced;
    FencedIsUnmoved(t0, t, id);
    if t.sessions[id].state == STAGED {
      EndingChanges(t, id, REJECTED);
    }
  }

  // ---- staging --------------------------------------------------------------------------------

  /** The envelope that belongs at its place. */
  predicate Belongs(e: Envelope, d: Descriptor) {
    0 <= e.kind < ROSTER_SIZE && |d.payloads| == ROSTER_SIZE && e == Envelope(d, e.kind, d.payloads[e.kind])
  }

  predicate Expects(t: Tables, id: SessionId, k: int) {
    id in t.entries && 0 <= k < |t.entries[id]| && t.entries[id][k].status == EntryExpected
  }

  predicate Holds(t: Tables, id: SessionId, k: int) {
    id in t.entries && 0 <= k < |t.entries[id]| && t.entries[id][k].status != EntryExpected
  }

  /** Entry `k` holds its envelope; with the last one the session is staged. */
  predicate HasStaged(t: Tables, u: Tables, id: SessionId, k: int) {
    && id in t.sessions && id in t.entries
    && 0 <= k < |t.entries[id]| == |t.sessions[id].descriptor.payloads|
    && var staged := t.entries[id][k := StagedEntry(t.sessions[id].descriptor, k)];
       var complete := forall j :: 0 <= j < |staged| ==> staged[j].status == EntryStaged;
       && u.worker == t.worker && u.selection == t.selection && u.manifests == t.manifests
       && u.sessions == t.sessions[id := t.sessions[id].(state := if complete then STAGED else PROVISIONAL)]
       && u.entries == t.entries[id := staged]
  }

  /** While an entry is expected the session is provisional and all its entries are expected or staged. */
  lemma ExpectingIsProvisional(t: Tables, id: SessionId, k: int)
    requires Inv(t) && id in t.sessions && Expects(t, id, k)
    ensures t.sessions[id].state == PROVISIONAL && |t.entries[id]| == |t.sessions[id].descriptor.payloads| == ROSTER_SIZE
    ensures t.entries[id][k] == EntryRow(t.sessions[id].descriptor.payloads[k], None, None, None, EntryExpected)
    ensures AllIn(t.entries[id], {EntryExpected, EntryStaged})
  {
    assert SessionEntriesOk(t, id);
    assert EntryOk(t.sessions[id].descriptor, k, t.entries[id][k], RowPins(t.sessions[id], t.selection));
  }

  lemma HeldIsStored(t: Tables, id: SessionId, k: int)
    requires Inv(t) && id in t.sessions && Holds(t, id, k)
    ensures var d := t.sessions[id].descriptor;
            && |t.entries[id]| == |d.payloads| == ROSTER_SIZE
            && EnvelopeStored(t.entries[id][k], Envelope(d, k, d.payloads[k]))
  {
    assert SessionEntriesOk(t, id);
    assert EntryOk(t.sessions[id].descriptor, k, t.entries[id][k], RowPins(t.sessions[id], t.selection));
  }

  lemma EntriesSized(t: Tables, id: SessionId, k: int)
    requires Inv(t) && id in t.sessions && 0 <= k < ROSTER_SIZE
    ensures Expects(t, id, k) || Holds(t, id, k) || EntriesOf(t, id) == []
    ensures Expects(t, id, k) || Holds(t, id, k) ==> |EntriesOf(t, id)| == ROSTER_SIZE
  {
    assert SessionEntriesOk(t, id);
  }

  lemma NewlyStaged(t: Tables, id: SessionId, k: int, e: Envelope)
    requires Inv(t) && id in t.sessions && Expects(t, id, k) && Belongs(e, t.sessions[id].descriptor) && e.kind == k
    ensures Staged(t.entries[id], e) == t.entries[id][k := StagedEntry(t.sessions[id].descriptor, k)]
    ensures var staged := Staged(t.entries[id], e);
            SomeAt(staged, EntryExpected) <==> !(forall j :: 0 <= j < |staged| ==> staged[j].status == EntryStaged)
  {
    ExpectingIsProvisional(t, id, k);
    var staged := Staged(t.entries[id], e);
    forall j | 0 <= j < |staged| ensures staged[j].status in {EntryExpected, EntryStaged} {
    }
  }

  lemma StageIsStaged(t: Tables, id: SessionId, k: int, e: Envelope)
    requires Inv(t) && id in t.sessions && Expects(t, id, k) && Belongs(e, t.sessions[id].descriptor) && e.kind == k
    ensures var staged := Staged(t.entries[id], e);
            var state := if SomeAt(staged, EntryExpected) then PROVISIONAL else STAGED;
            var u := t.(sessions := t.sessions[id := t.sessions[id].(state := state)], entries := t.entries[id := staged]);
            HasStaged(t, u, id, k)
  {
    ExpectingIsProvisional(t, id, k);
    NewlyStaged(t, id, k, e);
  }

  /**
   * An envelope is stored exactly when it belongs there, the entry still expects it, the journal is open and
   * the session in time. If the entry held it, when read or now, the call succeeds without a change.
   */
  predicate Stages(t0: Tables, t: Tables, id: SessionId, e: Envelope, now: int, o: Outcome)
    requires id in t.sessions
  {
    var k := e.kind;
    var held := Holds(t0, id, k) || Holds(t, id, k);
    var open := Expects(t, id, k) && t.selection.phase == OPEN && InTime(t.sessions[id], now);
    match o
    case Aborted => !(Belongs(e, t.sessions[id].descriptor) && (held || open))
    case Committed(u) =>
      && Belongs(e, t.sessions[id].descriptor)
      && if held then u == t else open && HasStaged(t, u, id, k)
  }

  lemma StageDecided(t0: Tables, t: Tables, id: SessionId, e: Envelope, now: int)
    requires ReadBefore(t0, t, id)
    ensures Stages(t0, t, id, e, now, StageStep(t, Current(t0, id), e, now))
  {
    assert RowEvolves(t0.sessions[id], t.sessions[id]);
    hide Inv, Evolves, InTime, HasStaged, StageStep, Stages;
    if Belongs(e, t.sessions[id].descriptor) {
      EntriesSized(t0, id, e.kind);
      if Expects(t0, id, e.kind) {
        StageExpecting(t0, t, id, e, now);
      } else {
        StageSettled(t0, t, id, e, now);
      }
    } else {
      StageForeign(t0, t, id, e, now);
    }
  }

  lemma StageForeign(t0: Tables, t: Tables, id: SessionId, e: Envelope, now: int)
    requires ReadBefore(t0, t, id) && !Belongs(e, t.sessions[id].descriptor)
    ensures Stages(t0, t, id, e, now, StageStep(t, Current(t0, id), e, now))
  {
    assert RowEvolves(t0.sessions[id], t.sessions[id]);
    hide Inv, Evolves, InTime, HasStaged;
  }

  /** The entry held an envelope when it was read, or the session had ended. */
  lemma StageSettled(t0: Tables, t: Tables, id: SessionId, e: Envelope, now: int)
    requires ReadBefore(t0, t, id) && Belongs(e, t.sessions[id].descriptor) && !Expects(t0, id, e.kind)
    ensures Stages(t0, t, id, e, now, StageStep(t, Current(t0, id), e, now))
  {
    assert RowEvolves(t0.sessions[id], t.sessions[id]);
    EntriesSized(t0, id, e.kind);
    if Holds(t0, id, e.kind) {
      HeldIsStored(t0, id, e.kind);
    } else {
      GoneStays(t0, t, id);
    }
    hide Inv, Evolves, InTime, HasStaged;
  }

  lemma StageExpecting(t0: Tables, t: Tables, id: SessionId, e: Envelope, now: int)
    requires ReadBefore(t0, t, id) && Belongs(e, t.sessions[id].descriptor) && Expects(t0, id, e.kind)
    ensures Stages(t0, t, id, e, now, StageStep(t, Current(t0, id), e, now))
  {
    var k := e.kind;
    assert RowEvolves(t0.sessions[id], t.sessions[id]);
    TimesDecide(t, id, now);
    EntriesSized(t, id, k);
    ExpectingIsProvisional(t0, id, k);
    if Holds(t, id, k) {
      HeldIsStored(t, id, k);
    } else if Expects(t, id, k) {
      ExpectingIsProvisional(t, id, k);
      NewlyStaged(t, id, k, e);
      StageIsStaged(t, id, k, e);
    }
    hide Inv, Evolves, InTime, Fresh, HasStaged, Staged, SomeAt;
  }

  /** A session that had no entries when it was read has none now. */
  lemma GoneStays(t0: Tables, t: Tables, id: SessionId)
    requires ReadBefore(t0, t, id) && EntriesOf(t0, id) == []
    ensures EntriesOf(t, id) == []
  {
    assert SessionEntriesOk(t0, id);
    EndedStays(t0, t, id);
  }

  // ---- the group claim ------------------------------------------------------------------------

  /** The session is selected with these pins and fifteen sealed effects; every other one has ended. */
  predicate HasClaimed(t: Tables, u: Tables, id: SessionId, pins: Pins)
    requires id in t.sessions
  {
    var d := t.sessions[id].descriptor;
    && u.worker == t.worker && u.manifests == t.manifests
    && u.selection == SelectionRow(COMPONENT_EFFECTS_SEALED, Some(id), Some(pins), None)
    && u.sessions.Keys == t.sessions.Keys
    && u.sessions[id] == t.sessions[id].(state := SELECTED)
    && (forall x :: x in t.sessions && x != id ==>
          u.sessions[x] == if t.sessions[x].state in {PROVISIONAL, STAGED} then t.sessions[x].(state := SUPERSEDED)
                           else t.sessions[x])
    && u.entries.Keys == {id}
    && |d.payloads| == |u.entries[id]| == ROSTER_SIZE
    && forall k :: 0 <= k < ROSTER_SIZE ==> u.entries[id][k] == SealedEntry(d, k, pins)
  }

  lemma StagedEnvelopes(t: Tables, id: SessionId)
    requires Inv(t) && id in t.sessions && t.sessions[id].state == STAGED
    ensures var s := Current(t, id);
            && |s.entries| == |Derived(s).envelopes| == |s.row.descriptor.payloads| == ROSTER_SIZE
            && AllIn(s.entries, {EntryStaged})
            && forall k :: 0 <= k < ROSTER_SIZE ==>
                 && s.entries[k] == StagedEntry(s.row.descriptor, k)
                 && Derived(s).envelopes[k] == Envelope(s.row.descriptor, k, s.row.descriptor.payloads[k])
  {
    var s := Current(t, id);
    assert SessionEntriesOk(t, id);
    forall k | 0 <= k < ROSTER_SIZE ensures s.entries[k] == StagedEntry(s.row.descriptor, k) {
      assert EntryOk(s.row.descriptor, k, s.entries[k], None);
    }
    ParsedEnvelopes(s.row.descriptor, s.entries, None);
  }

  predicate Claimable(t0: Tables, t: Tables, id: SessionId, pins: Pins, now: int)
    requires id in t0.sessions && id in t.sessions
  {
    && Unmoved(t0, t, id) && t.selection.phase == OPEN && t.sessions[id].state == STAGED
    && pins.executor != pins.observer && InTime(t.sessions[id], now)
  }

  predicate AlreadyClaimed(t: Tables, id: SessionId, pins: Pins) {
    && t.selection.phase == COMPONENT_EFFECTS_SEALED && t.selection.selected == Some(id)
    && t.selection.pins == Some(pins)
  }

  /**
   * A staged session is claimed exactly when nothing of it has moved since it was read, the journal is open, the
   * two services differ and it is in time. If it has been claimed with these very pins the call succeeds and
   * changes nothing.
   */
  lemma SealDecided(t0: Tables, t: Tables, id: SessionId, pins: Pins, now: int)
    requires ReadBefore(t0, t, id)
    ensures match SealStep(t, Current(t0, id), pins, now)
            case Aborted =>
              !Claimable(t0, t, id, pins, now) && !(t0.sessions[id].state == STAGED && AlreadyClaimed(t, id, pins))
            case Committed(u) =>
              if AlreadyClaimed(t, id, pins) then t0.sessions[id].state == STAGED && u == t
              else Claimable(t0, t, id, pins, now) && HasClaimed(t, u, id, pins)
  {
    hide Inv, Evolves, Fenced, Fresh, InTime, HasClaimed, SealStep, Claim, Derived;
    var s := Current(t0, id);
    FencedIsUnmoved(t0, t, id);
    ClaimedHasPins(t, id);
    if t0.sessions[id].state == STAGED {
      TimesDecide(t0, id, now);
      StagedEnvelopes(t0, id);
      SealCases(t, s, pins, now);
      if Claimable(t0, t, id, pins, now) {
        ClaimIsClaimed(t, id, pins);
      }
    } else {
      UnstagedAborts(t, s, pins, now);
    }
  }

  lemma FencedIsUnmoved(t0: Tables, t: Tables, id: SessionId)
    requires id in t0.sessions && id in t.sessions
    ensures Fenced(t, Current(t0, id)) <==> Unmoved(t0, t, id)
    ensures Unmoved(t0, t, id) ==> Current(t0, id) == Current(t, id)
  {
  }

  lemma UnstagedAborts(t: Tables, s: Snapshot, pins: Pins, now: int)
    requires s.row.state != STAGED
    ensures SealStep(t, s, pins, now) == Aborted
  {
  }

  lemma SealCases(t: Tables, s: Snapshot, pins: Pins, now: int)
    requires s.id in t.sessions && s.row.state == STAGED && AllIn(s.entries, {EntryStaged})
    requires |s.entries| == |Derived(s).envelopes| == ROSTER_SIZE
    ensures SealStep(t, s, pins, now) ==
              if pins.executor == pins.observer then Aborted
              else if t.selection.phase == COMPONENT_EFFECTS_SEALED && t.selection.selected == Some(s.id) then
                if t.selection.pins == Some(pins) then Committed(t) else Aborted
              else if !Fenced(t, s) || !Fresh(now, s.row.freshUntil) then Aborted
              else if t.selection.phase != OPEN || t.selection.selected.Some? then Aborted
              else Committed(Claim(t, s.id, Sealed(s.entries, Derived(s).envelopes, pins), pins))
  {
    hide Fenced, Fresh, Claim, AllIn;
  }

  lemma ClaimedHasPins(t: Tables, id: SessionId)
    requires Inv(t)
    ensures t.selection.phase == OPEN <==> t.selection.selected.None?
    ensures t.selection.pins.Some? ==> ValidPins(t.selection.pins.value)
  {
  }

  lemma ClaimIsClaimed(t: Tables, id: SessionId, pins: Pins)
    requires Inv(t) && id in t.sessions && t.sessions[id].state == STAGED && t.selection.phase == OPEN
    requires var s := Current(t, id); |Derived(s).envelopes| == |s.entries|
    ensures var s := Current(t, id);
            HasClaimed(t, Claim(t, id, Sealed(s.entries, Derived(s).envelopes, pins), pins), id, pins)
  {
    StagedEnvelopes(t, id);
    var s := Current(t, id);
    var u := Claim(t, id, Sealed(s.entries, Derived(s).envelopes, pins), pins);
    forall x | x in t.entries && x != id ensures x !in u.entries {
      assert SessionEntriesOk(t, x);
    }
    assert u.entries.Keys == {id};
  }

  // ---- confirmation ---------------------------------------------------------------------------

  /** Result bytes for this very effect, of an object kept long enough. */
  predicate Answers(r: ResultBytes, e: Effect, committedAt: int) {
    r.effect == e && IsStamp(r.worm.retentionUntil) && committedAt + RETENTION_MS <= r.worm.retentionUntil
  }

  predicate Selected(t: Tables, id: SessionId) {
    id in t.sessions && t.sessions[id].state == SELECTED
  }

  /** The effect of entry `k` under the pins of the claim. */
  predicate IsEffectOf(t: Tables, id: SessionId, k: int, e: Effect) {
    && id in t.sessions && 0 <= k < |t.sessions[id].descriptor.payloads| && t.selection.pins.Some?
    && e == ComponentEffect(Envelope(t.sessions[id].descriptor, k, t.sessions[id].descriptor.payloads[k]),
                            t.selection.pins.value)
  }

  function PlaceOf(e: Effect): int {
    if e.ComponentEffect? then e.envelope.kind else -1
  }

  predicate HasConfirmed(t: Tables, u: Tables, id: SessionId, k: nat, r: ResultBytes)
    requires id in t.entries && k < |t.entries[id]|
  {
    var confirmed := t.entries[id][k := t.entries[id][k].(result := Some(r), status := EntryConfirmed)];
    var complete := forall j :: 0 <= j < |confirmed| ==> confirmed[j].status == EntryConfirmed;
    && u.worker == t.worker && u.sessions == t.sessions && u.manifests == t.manifests
    && u.entries == t.entries[id := confirmed]
    && u.selection == t.selection.(phase := if complete then COMPONENTS_CONFIRMED else COMPONENT_EFFECTS_SEALED)
  }

  /** A selected session stays selected, with the same descriptor and pins, and its entries sealed or confirmed. */
  lemma SelectedStays(t0: Tables, t: Tables, id: SessionId)
    requires ReadBefore(t0, t, id) && t0.sessions[id].state == SELECTED
    ensures t.sessions == t0.sessions && t.selection.pins == t0.selection.pins
    ensures t.selection.selected == t0.selection.selected == Some(id)
    ensures id in t0.entries && id in t.entries && |t0.entries[id]| == |t.entries[id]| == ROSTER_SIZE
    ensures AllIn(t.entries[id], {EntrySealed, EntryConfirmed})
  {
    assert SessionEntriesOk(t0, id) && SessionEntriesOk(t, id);
  }

  lemma SelectedEntry(t: Tables, id: SessionId, k: nat)
    requires Inv(t) && Selected(t, id) && k < ROSTER_SIZE
    ensures id in t.entries && |t.entries[id]| == |t.sessions[id].descriptor.payloads| == ROSTER_SIZE
    ensures t.selection.pins.Some?
    ensures var row := t.entries[id][k];
            && row.(result := None, status := EntrySealed) ==
                 SealedEntry(t.sessions[id].descriptor, k, t.selection.pins.value)
            && (row.status == EntrySealed ==> row.result.None? && t.selection.phase == COMPONENT_EFFECTS_SEALED)
            && row.status in {EntrySealed, EntryConfirmed}
  {
    assert SessionEntriesOk(t, id);
    assert EntryOk(t.sessions[id].descriptor, k, t.entries[id][k], t.selection.pins);
  }

  lemma EffectFound(t: Tables, id: SessionId, e: Effect)
    requires Inv(t) && Selected(t, id)
    ensures var rows := EntriesOf(t, id);
            && IsEffectOf(t, id, PlaceOf(e), e) == FindEffect(rows, e).Some?
            && (FindEffect(rows, e).Some? ==> FindEffect(rows, e) == Some(PlaceOf(e)))
  {
    EffectsAligned(t, id);
    var rows := EntriesOf(t, id);
    var k := PlaceOf(e);
    if IsEffectOf(t, id, k, e) {
      SelectedEntry(t, id, k);
    }
    if FindEffect(rows, e).Some? {
      SelectedEntry(t, id, FindEffect(rows, e).value);
    }
  }

  predicate EntryAwaits(t: Tables, id: SessionId, k: int) {
    id in t.entries && 0 <= k < |t.entries[id]| && t.entries[id][k].status == EntrySealed
  }

  predicate EntryHas(t: Tables, id: SessionId, k: int, r: ResultBytes) {
    id in t.entries && 0 <= k < |t.entries[id]| && t.entries[id][k].result == Some(r)
  }

  /**
   * A result is stored exactly when the session had been claimed when it was read, the effect is that of a
   * sealed entry, and the result answers it. The same result again succeeds and changes nothing.
   */
  lemma ConfirmDecided(t0: Tables, t: Tables, id: SessionId, e: Effect, r: ResultBytes)
    requires ReadBefore(t0, t, id)
    ensures var k := PlaceOf(e);
            var fits := Selected(t0, id) && IsEffectOf(t0, id, k, e) && Answers(r, e, t.sessions[id].committedAt);
            match ConfirmStep(t, Current(t0, id), e, r)
            case Aborted => !fits || !(EntryAwaits(t, id, k) || EntryHas(t, id, k, r))
            case Committed(u) =>
              && fits && (EntryAwaits(t, id, k) || EntryHas(t, id, k, r))
              && if EntryAwaits(t, id, k) then HasConfirmed(t, u, id, k, r) else u == t
  {
    hide Inv, Evolves, ConfirmStep, HasConfirmed;
    if Selected(t0, id) {
      ConfirmSelectedDecided(t0, t, id, e, r);
    } else {
      assert ConfirmStep(t, Current(t0, id), e, r) == Aborted by {
        UnselectedAborts(t0, t, id, e, r);
      }
    }
  }

  lemma UnselectedAborts(t0: Tables, t: Tables, id: SessionId, e: Effect, r: ResultBytes)
    requires id in t0.sessions && !Selected(t0, id)
    ensures ConfirmStep(t, Current(t0, id), e, r) == Aborted
  {
  }

  /** The checks on the read come down to which effect it is and what answers it. */
  lemma ConfirmableDecided(t0: Tables, id: SessionId, e: Effect, r: ResultBytes)
    requires Inv(t0) && Selected(t0, id)
    ensures Confirmable(Current(t0, id), e, r) <==>
              IsEffectOf(t0, id, PlaceOf(e), e) && Answers(r, e, t0.sessions[id].committedAt)
  {
    assert SessionOk(t0.worker, t0.sessions, id);
    EffectsAligned(t0, id);
    EffectFound(t0, id, e);
  }

  lemma ConfirmSelectedDecided(t0: Tables, t: Tables, id: SessionId, e: Effect, r: ResultBytes)
    requires ReadBefore(t0, t, id) && Selected(t0, id)
    ensures var k := PlaceOf(e);
            var good := && IsEffectOf(t0, id, k, e) && Answers(r, e, t.sessions[id].committedAt)
                        && (EntryAwaits(t, id, k) || EntryHas(t, id, k, r));
            match ConfirmStep(t, Current(t0, id), e, r)
            case Aborted => !good
            case Committed(u) => good && if EntryAwaits(t, id, k) then HasConfirmed(t, u, id, k, r) else u == t
  {
    ConfirmableDecided(t0, id, e, r);
    SelectedStays(t0, t, id);
    EffectFound(t0, id, e);
    EffectFound(t, id, e);
    var k := PlaceOf(e);
    if IsEffectOf(t0, id, k, e) {
      SelectedEntry(t0, id, k);
      SelectedEntry(t, id, k);
      assert EntryAwaits(t, id, k) ==> t0.selection == t.selection && t0.entries[id][k] == t.entries[id][k] by {
        AwaitingIsUnmoved(t0, t, id, k);
      }
      assert AllIn(t.entries[id], {EntrySealed, EntryConfirmed});
    }
    hide Inv, Evolves, Confirmable, FindEffect, ConfirmStep, HasConfirmed, EntryAwaits, EntryHas;
    if Confirmable(Current(t0, id), e, r) {
      ConfirmRowDecided(t, Current(t0, id), k, e, r);
    } else {
      UnfitAborts(t, Current(t0, id), e, r);
    }
  }

  lemma UnfitAborts(t: Tables, s: Snapshot, e: Effect, r: ResultBytes)
    requires !Confirmable(s, e, r)
    ensures ConfirmStep(t, s, e, r) == Aborted
  {
  }

  lemma ConfirmRowDecided(t: Tables, s: Snapshot, k: nat, e: Effect, r: ResultBytes)
    requires Confirmable(s, e, r) && s.id in t.sessions && s.row == t.sessions[s.id]
    requires s.id in t.entries && k < |t.entries[s.id]| && FindEffect(t.entries[s.id], e) == Some(k)
    requires k < |s.entries| && FindEffect(s.entries, e) == Some(k)
    requires AllIn(t.entries[s.id], {EntrySealed, EntryConfirmed})
    requires t.entries[s.id][k].status == EntrySealed ==>
               && s.entries[k] == t.entries[s.id][k] && s.selection == t.selection
               && t.selection.phase == COMPONENT_EFFECTS_SEALED && t.entries[s.id][k].result.None?
    ensures match ConfirmStep(t, s, e, r)
            case Aborted => !EntryAwaits(t, s.id, k) && !EntryHas(t, s.id, k, r)
            case Committed(u) =>
              if EntryAwaits(t, s.id, k) then HasConfirmed(t, u, s.id, k, r) else EntryHas(t, s.id, k, r) && u == t
  {
    hide Confirmable, FindEffect;
    assert t.entries[s.id][k].status in {EntrySealed, EntryConfirmed};
    var confirmed := Confirmed(t.entries[s.id], k, r);
    assert SomeAt(confirmed, EntrySealed) <==>
           !(forall j :: 0 <= j < |confirmed| ==> confirmed[j].status == EntryConfirmed) by {
      forall j | 0 <= j < |confirmed| ensures confirmed[j].status in {EntrySealed, EntryConfirmed} {
      }
    }
  }

  lemma AwaitingIsUnmoved(t0: Tables, t: Tables, id: SessionId, k: nat)
    requires ReadBefore(t0, t, id) && Selected(t0, id) && k < ROSTER_SIZE
    ensures EntryAwaits(t, id, k) ==> t0.selection == t.selection && t0.entries[id][k] == t.entries[id][k]
  {
    SelectedStays(t0, t, id);
    SelectedEntry(t0, id, k);
    SelectedEntry(t, id, k);
    assert RosterEvolves(t0.entries[id], t.entries[id]);
    assert EntryEvolves(t0.entries[id][k], t.entries[id][k]);
  }

  // ---- the manifest ---------------------------------------------------------------------------

  predicate HasResults(rows: seq<EntryRow>) {
    forall k :: 0 <= k < |rows| ==> rows[k].result.Some?
  }

  /** Two components were written under one version identifier. */
  predicate Repeats(rows: seq<EntryRow>)
    requires HasResults(rows)
  {
    exists i, j :: 0 <= i < j < |rows| && rows[i].result.value.worm.version == rows[j].result.value.worm.version
  }

  /** The manifest of the confirmed objects, sealed; or the hold when two of them share a version. */
  predicate HasManifest(t: Tables, u: Tables, id: SessionId) {
    && id in t.sessions && id in t.entries && HasResults(t.entries[id]) && t.selection.pins.Some?
    && u.worker == t.worker && u.sessions == t.sessions && u.entries == t.entries
    && var rows := t.entries[id];
       var worms := seq(|rows|, k requires 0 <= k < |rows| => rows[k].result.value.worm);
       var m := Manifest(t.sessions[id].descriptor, worms);
       if Repeats(rows) then
         u.manifests == t.manifests && u.selection == t.selection.(phase := HOLD, holdCode := Some(WORM_VERSION_CONFLICT))
       else
         && u.manifests ==
              t.manifests[id := ManifestRow(m, ManifestEffect(m, t.selection.pins.value), None, None, ManifestSealed)]
         && u.selection == t.selection.(phase := MANIFEST_EFFECT_SEALED, holdCode := None)
  }

  lemma RepeatsDecide(rows: seq<EntryRow>)
    requires HasResults(rows)
    ensures HasDuplicateVersions(Worms(rows)) <==> Repeats(rows)
  {
    var vs := Versions(Worms(rows));
    SetSizeIsDistinct(vs);
    if Repeats(rows) {
      var i, j :| 0 <= i < j < |rows| && rows[i].result.value.worm.version == rows[j].result.value.worm.version;
      assert vs[i] == vs[j];
    } else {
      forall i, j | 0 <= i < j < |vs| ensures vs[i] != vs[j] {
        assert vs[i] == rows[i].result.value.worm.version && vs[j] == rows[j].result.value.worm.version;
      }
    }
  }

  /** From the moment every component is confirmed, entries and session never move again. */
  lemma ConfirmedStays(t0: Tables, t: Tables, id: SessionId)
    requires ReadBefore(t0, t, id) && Selected(t0, id) && t0.selection.phase == COMPONENTS_CONFIRMED
    ensures t.sessions == t0.sessions && id in t.entries && EntriesOf(t, id) == EntriesOf(t0, id)
    ensures t.selection.selected == Some(id) && t.selection.pins == t0.selection.pins && t.selection.pins.Some?
    ensures HasResults(t.entries[id])
    ensures t.selection.phase == COMPONENTS_CONFIRMED ==> t.selection == t0.selection
  {
    SelectedStays(t0, t, id);
    assert AllConfirmed(t0.entries[id]);
    assert RosterEvolves(t0.entries[id], t.entries[id]);
    forall k | 0 <= k < |t.entries[id]| ensures t.entries[id][k] == t0.entries[id][k] {
      assert EntryEvolves(t0.entries[id][k], t.entries[id][k]);
    }
  }

  /**
   * Once the components are confirmed the manifest is sealed, or the journal held, exactly once; a later call
   * for the same session succeeds and changes nothing, and so does a call made too early.
   */
  lemma ManifestSealDecided(t0: Tables, t: Tables, id: SessionId)
    requires ReadBefore(t0, t, id)
    ensures match ManifestSealStep(t, Current(t0, id))
            case Aborted => t0.selection.phase == COMPONENTS_CONFIRMED && !Selected(t0, id)
            case Committed(u) =>
              if t0.selection.phase != COMPONENTS_CONFIRMED then u == t
              else Selected(t0, id) && if t.selection.phase == COMPONENTS_CONFIRMED then HasManifest(t, u, id) else u == t
  {
    hide ManifestSealStep, HasManifest;
    var s := Current(t0, id);
    if t0.selection.phase != COMPONENTS_CONFIRMED {
      EarlySealStays(t, s);
    } else if Selected(t0, id) {
      ConfirmedComponents(t0, id);
      EffectsAligned(t0, id);
      ConfirmedStays(t0, t, id);
      LaterManifest(t, id);
      assert id in t.manifests ==> SameSeal(SealedManifest(s), t.manifests[id]);
      hide Inv, Evolves, HasDuplicateVersions, ComponentsConfirmed;
      SealRowsDecided(t, s);
    } else {
      UnselectedSealAborts(t, s);
    }
  }

  lemma EarlySealStays(t: Tables, s: Snapshot)
    requires s.selection.phase != COMPONENTS_CONFIRMED
    ensures ManifestSealStep(t, s) == Committed(t)
  {
  }

  lemma UnselectedSealAborts(t: Tables, s: Snapshot)
    requires s.selection.phase == COMPONENTS_CONFIRMED && s.row.state != SELECTED
    ensures ManifestSealStep(t, s) == Aborted
  {
  }

  lemma SealRowsDecided(t: Tables, s: Snapshot)
    requires s.selection.phase == COMPONENTS_CONFIRMED && ComponentsConfirmed(s) && SelectedPins(s)
    requires s.id in t.sessions && s.row == t.sessions[s.id] && s.id in t.entries && t.entries[s.id] == s.entries
    requires t.selection.selected == Some(s.id) && t.selection.pins == s.selection.pins && t.selection.pins.Some?
    requires HasResults(s.entries)
    requires t.selection.phase == COMPONENTS_CONFIRMED ==> t.selection == s.selection && t.manifests == map[]
    requires s.id in t.manifests ==>
               !HasDuplicateVersions(Worms(s.entries)) && SameSeal(SealedManifest(s), t.manifests[s.id])
    requires s.id !in t.manifests && t.selection.phase != COMPONENTS_CONFIRMED ==>
               && HasDuplicateVersions(Worms(s.entries))
               && t.selection.phase == HOLD && t.selection.holdCode == Some(WORM_VERSION_CONFLICT)
    ensures match ManifestSealStep(t, s)
            case Aborted => false
            case Committed(u) => if t.selection.phase == COMPONENTS_CONFIRMED then HasManifest(t, u, s.id) else u == t
  {
    RepeatsDecide(s.entries);
    assert Worms(s.entries) == seq(|s.entries|, k requires 0 <= k < |s.entries| => s.entries[k].result.value.worm);
    hide ComponentsConfirmed, HasDuplicateVersions, Repeats, HasResults;
  }

  /** What a journal beyond the component phase says about its manifest. */
  lemma LaterManifest(t: Tables, id: SessionId)
    requires Inv(t) && Selected(t, id) && t.selection.selected == Some(id)
    requires t.selection.phase !in {OPEN, COMPONENT_EFFECTS_SEALED}
    ensures id in t.entries && HasResults(t.entries[id]) && t.selection.pins.Some?
    ensures id in t.manifests ==>
              && !HasDuplicateVersions(Worms(t.entries[id]))
              && t.manifests[id].manifest == Manifest(t.sessions[id].descriptor, Worms(t.entries[id]))
              && t.manifests[id].effect == ManifestEffect(t.manifests[id].manifest, t.selection.pins.value)
    ensures id !in t.manifests && t.selection.phase != COMPONENTS_CONFIRMED ==>
              && HasDuplicateVersions(Worms(t.entries[id]))
              && t.selection.phase == HOLD && t.selection.holdCode == Some(WORM_VERSION_CONFLICT)
    ensures t.selection.phase == COMPONENTS_CONFIRMED ==> t.manifests == map[] && t.selection.holdCode.None?
  {
    assert SessionEntriesOk(t, id);
  }

  /** The result with its pointer, or without one when the version is already that of a component. */
  predicate HasResult(t: Tables, u: Tables, id: SessionId, r: ResultBytes) {
    && id in t.entries && HasResults(t.entries[id]) && id in t.manifests
    && u.worker == t.worker && u.sessions == t.sessions && u.entries == t.entries
    && var clash := exists k :: 0 <= k < |t.entries[id]| && t.entries[id][k].result.value.worm.version == r.worm.version;
       && u.manifests ==
            t.manifests[id := t.manifests[id].(
              result := Some(r), pointer := if clash then None else Some(Pointer(t.manifests[id].manifest, r.worm)),
              status := if clash then ManifestResultConfirmed else ManifestConfirmed)]
       && u.selection == t.selection.(phase := if clash then HOLD else CONFIRMED,
                                      holdCode := if clash then Some(MANIFEST_VERSION_CONFLICT) else None)
  }

  lemma ClashDecides(rows: seq<EntryRow>, w: Worm)
    requires HasResults(rows)
    ensures Collides(Worms(rows), w) <==> exists k :: 0 <= k < |rows| && rows[k].result.value.worm.version == w.version
  {
    var vs := Versions(Worms(rows));
    if k :| 0 <= k < |rows| && rows[k].result.value.worm.version == w.version {
      assert vs[k] == w.version;
    }
    if w.version in vs {
      var k :| 0 <= k < |vs| && vs[k] == w.version;
      assert rows[k].result.value.worm.version == w.version;
    }
  }

  /** Beyond the sealed manifest nothing but its answer moves. */
  lemma ManifestStays(t0: Tables, t: Tables, id: SessionId)
    requires ReadBefore(t0, t, id) && id in t0.manifests
    ensures Selected(t0, id) && t.sessions == t0.sessions && EntriesOf(t, id) == EntriesOf(t0, id)
    ensures id in t.entries && HasResults(t.entries[id])
    ensures id in t.manifests && SameSeal(t0.manifests[id], t.manifests[id])
    ensures t0.manifests[id].status != ManifestSealed ==> t.manifests == t0.manifests
    ensures t.manifests[id].status == ManifestSealed ==>
              t.selection == t0.selection && t0.manifests[id].status == ManifestSealed
    ensures t.selection.selected == Some(id)
  {
    ManifestEntriesStay(t0, t, id);
    assert ManifestEvolves(t0.manifests[id], t.manifests[id]);
    hide EntriesOk, SessionsOk, HasResults;
  }

  lemma ManifestEntriesStay(t0: Tables, t: Tables, id: SessionId)
    requires ReadBefore(t0, t, id) && id in t0.manifests
    ensures Selected(t0, id) && EntriesOf(t, id) == EntriesOf(t0, id)
    ensures id in t.entries && HasResults(t.entries[id])
  {
    assert SessionEntriesOk(t0, id) && SessionEntriesOk(t, id);
    assert RosterEvolves(t0.entries[id], t.entries[id]);
    assert AllConfirmed(t0.entries[id]);
    forall k | 0 <= k < |t.entries[id]| ensures t.entries[id][k] == t0.entries[id][k] {
      assert EntryEvolves(t0.entries[id][k], t.entries[id][k]);
    }
  }

  /**
   * The manifest is answered exactly when these bytes answer its effect and nothing has answered it before. The
   * same bytes again succeed and change nothing; any others fail.
   */
  lemma ManifestResultDecided(t0: Tables, t: Tables, id: SessionId, e: Effect, r: ResultBytes)
    requires ReadBefore(t0, t, id) && id in t0.manifests
    ensures id in t.manifests
    ensures var m := t.manifests[id];
            var fits := e == m.effect && Answers(r, e, t.sessions[id].committedAt);
            match ManifestResultStep(t, Current(t0, id), t0.manifests[id], e, r)
            case Aborted => !fits || !(m.status == ManifestSealed || m.result == Some(r))
            case Committed(u) =>
              && fits && (m.status == ManifestSealed || m.result == Some(r))
              && if m.status == ManifestSealed then HasResult(t, u, id, r) else u == t
  {
    hide ManifestResultStep, HasResult, Answers;
    ManifestReaderAccepts(t0);
    ManifestReaderAccepts(t);
    ManifestStays(t0, t, id);
    AnswersDecide(t, id, e, r);
    StoredAnswers(t, id);
    hide Inv, Evolves, ComponentsConfirmed, HasDuplicateVersions, ManifestReadable;
    ResultRowsDecided(t, Current(t0, id), t0.manifests[id], e, r);
  }

  lemma AnswersDecide(t: Tables, id: SessionId, e: Effect, r: ResultBytes)
    requires Inv(t) && id in t.sessions && id in t.manifests
    ensures e == t.manifests[id].effect ==>
              (Answers(r, e, t.sessions[id].committedAt) <==> ParseResult(r, e).Some?)
  {
    assert SessionOk(t.worker, t.sessions, id);
    assert SessionEntriesOk(t, id);
  }

  lemma StoredAnswers(t: Tables, id: SessionId)
    requires Inv(t) && id in t.sessions && id in t.manifests
    ensures var m := t.manifests[id];
            && id in t.entries && HasResults(t.entries[id])
            && (m.status == ManifestSealed ==> m.result.None? && t.selection.phase == MANIFEST_EFFECT_SEALED)
            && (m.status != ManifestSealed ==>
                  && m.result.Some? && ParseResult(m.result.value, m.effect).Some?
                  && m.pointer == if Collides(Worms(t.entries[id]), m.result.value.worm) then None
                                  else Some(Pointer(m.manifest, m.result.value.worm)))
  {
    assert SessionEntriesOk(t, id);
  }

  lemma ResultRowsDecided(t: Tables, s: Snapshot, m: ManifestRow, e: Effect, r: ResultBytes)
    requires ManifestReadable(s, m) && s.id in t.sessions && s.id in t.manifests && SameSeal(m, t.manifests[s.id])
    requires s.row == t.sessions[s.id] && EntriesOf(t, s.id) == s.entries && s.id in t.entries && HasResults(s.entries)
    requires t.selection.selected == Some(s.id)
    requires m.status != ManifestSealed ==> t.manifests[s.id] == m
    requires var n := t.manifests[s.id];
             if n.status == ManifestSealed then
               && m.status == ManifestSealed && n.result.None?
               && t.selection == s.selection && t.selection.phase == MANIFEST_EFFECT_SEALED
             else
               && n.result.Some? && ParseResult(n.result.value, n.effect).Some?
               && n.pointer == if Collides(Worms(s.entries), n.result.value.worm) then None
                               else Some(Pointer(n.manifest, n.result.value.worm))
    ensures var n := t.manifests[s.id];
            var fits := e == n.effect && ParseResult(r, e).Some? && (n.status == ManifestSealed || n.result == Some(r));
            match ManifestResultStep(t, s, m, e, r)
            case Aborted => !fits
            case Committed(u) => fits && if n.status == ManifestSealed then HasResult(t, u, s.id, r) else u == t
  {
    ClashDecides(s.entries, r.worm);
    hide ManifestReadable, Collides, HasResults;
  }

  // ---- reading the manifest -------------------------------------------------------------------

  predicate Clashes(rows: seq<EntryRow>, w: Worm)
    requires HasResults(rows)
  {
    exists k :: 0 <= k < |rows| && rows[k].result.value.worm.version == w.version
  }

  /** The manifest is that of the fifteen confirmed objects, and its answer agrees with the phase of the journal. */
  predicate ManifestCoherent(t: Tables, id: SessionId)
    requires id in t.sessions && id in t.manifests
  {
    var rows, m, sel := EntriesOf(t, id), t.manifests[id], t.selection;
    && t.sessions[id].state == SELECTED && sel.pins.Some?
    && Holding(rows, EntryConfirmed, EntryConfirmed) && HasResults(rows) && !Repeats(rows)
    && m.manifest == Manifest(t.sessions[id].descriptor, seq(|rows|, k requires 0 <= k < |rows| => rows[k].result.value.worm))
    && m.effect == ManifestEffect(m.manifest, sel.pins.value)
    && (m.status != ManifestSealed ==> m.result.Some? && Answers(m.result.value, m.effect, t.sessions[id].committedAt))
    && match m.status
       case ManifestSealed => m.result.None? && m.pointer.None? && sel.phase == MANIFEST_EFFECT_SEALED
       case ManifestResultConfirmed =>
         && Clashes(rows, m.result.value.worm) && m.pointer.None?
         && sel.phase == HOLD && sel.holdCode == Some(MANIFEST_VERSION_CONFLICT)
       case ManifestConfirmed =>
         && !Clashes(rows, m.result.value.worm) && m.pointer == Some(Pointer(m.manifest, m.result.value.worm))
         && sel.phase == CONFIRMED
  }

  lemma ReadComponents(t: Tables, id: SessionId)
    requires id in t.sessions && Load(t, id).Some? && ColumnsOk(EntriesOf(t, id))
    requires t.sessions[id].state == SELECTED && Holding(EntriesOf(t, id), EntryConfirmed, EntryConfirmed)
    ensures ComponentsConfirmed(Current(t, id)) && SelectedPins(Current(t, id)) && HasResults(EntriesOf(t, id))
  {
    ReaderDecides(t, id);
    hide Readable, Load;
    var s := Current(t, id);
    forall k: nat | k < 15 ensures EntryOk(s.row.descriptor, k, s.entries[k], s.selection.pins) {
      EntryCoherentIs(s.row.descriptor, k, s.entries[k], s.selection.pins);
    }
    ParsedEffects(s.row.descriptor, s.entries, s.selection.pins);
  }

  /** What the reader of the manifest accepts, of a session that can be read. */
  lemma ManifestReaderDecides(t: Tables, id: SessionId)
    requires id in t.sessions && Load(t, id).Some? && ColumnsOk(EntriesOf(t, id))
    requires id in t.manifests
    ensures ManifestReadable(Current(t, id), t.manifests[id]) <==> ManifestCoherent(t, id)
  {
    var s, m := Current(t, id), t.manifests[id];
    if s.row.state == SELECTED && Holding(s.entries, EntryConfirmed, EntryConfirmed) {
      ReadComponents(t, id);
      RepeatsDecide(s.entries);
      if m.result.Some? {
        ClashDecides(s.entries, m.result.value.worm);
      }
      ReaderDecides(t, id);
      hide Readable, Load, HasDuplicateVersions, Repeats, Collides, Clashes, ComponentsConfirmed, Holding;
      assert Worms(s.entries) == seq(|s.entries|, k requires 0 <= k < |s.entries| => s.entries[k].result.value.worm);
    }
  }

  /** A held journal is read as held exactly when its code names what the stored versions show. */
  lemma HoldReaderDecides(t: Tables, id: SessionId)
    requires id in t.sessions && Load(t, id).Some? && ColumnsOk(EntriesOf(t, id))
    ensures HoldReadable(t, id) <==>
              && t.selection.phase == HOLD && t.sessions[id].state == SELECTED
              && Holding(EntriesOf(t, id), EntryConfirmed, EntryConfirmed) && HasResults(EntriesOf(t, id))
              && match t.selection.holdCode
                 case None => false
                 case Some(WORM_VERSION_CONFLICT) => Repeats(EntriesOf(t, id)) && id !in t.manifests
                 case Some(MANIFEST_VERSION_CONFLICT) =>
                   id in t.manifests && ManifestCoherent(t, id) && t.manifests[id].status == ManifestResultConfirmed
  {
    var s := Current(t, id);
    if id in t.manifests {
      ManifestReaderDecides(t, id);
    }
    ReaderDecides(t, id);
    if s.row.state == SELECTED && Holding(s.entries, EntryConfirmed, EntryConfirmed) {
      ReadComponents(t, id);
      RepeatsDecide(s.entries);
    }
    hide Readable, HasDuplicateVersions, Repeats, ManifestReadable, ManifestCoherent;
  }

  // ---- admission ------------------------------------------------------------------------------

  /** The session that an admission would repeat. */
  predicate Repeated(t: Tables, input: Admission, id: SessionId) {
    && id in t.sessions
    && if input.predecessor.None?
       then && t.sessions[id].setId == SetId(input.descriptor.worker, input.descriptor.payloads)
            && t.sessions[id].generation == 1
       else t.sessions[id].predecessor == input.predecessor
  }

  predicate Ongoing(row: SessionRow, now: int) {
    row.state in {PROVISIONAL, STAGED} && !Over(row, now)
  }

  predicate Lapses(row: SessionRow, now: int) {
    row.state in {PROVISIONAL, STAGED} && Over(row, now)
  }

  /** The sessions that still count at `now`. */
  function OngoingSessions(t: Tables, now: int): set<SessionId> {
    set id | id in t.sessions && Ongoing(t.sessions[id], now)
  }

  predicate HasRoom(t: Tables, now: int) {
    t.selection.phase == OPEN && IsDate(now) && |OngoingSessions(t, now)| < 4 && |t.sessions| < 8
  }

  /** The deadline of the new session has not passed, as comparing the texts tells. */
  predicate StillFresh(committedAt: int, now: int) {
    var deadline := committedAt + TTL_MS;
    IsDate(now) && if deadline <= STAMP_MAX then now <= deadline || now > STAMP_MAX else STAMP_MAX < now <= deadline
  }

  /** The session named as predecessor is of this set, one generation lower, abandoned or lapsed, and over before. */
  predicate Follows(t: Tables, input: Admission, now: int) {
    match input.predecessor
    case None => true
    case Some(p) =>
      && p in t.sessions
      && t.sessions[p].setId == SetId(input.descriptor.worker, input.descriptor.payloads)
      && t.sessions[p].generation == input.generation - 1
      && (t.sessions[p].state == ABANDONED || Lapses(t.sessions[p], now))
      && t.sessions[p].committedAt + TTL_MS < input.descriptor.committedAt
  }

  /** Lapsed sessions are abandoned, without their entries. */
  predicate IsExpiryOf(t: Tables, u: Tables, now: int) {
    && u.worker == t.worker && u.selection == t.selection && u.manifests == t.manifests
    && u.sessions.Keys == t.sessions.Keys
    && (forall x :: x in t.sessions ==>
          u.sessions[x] == if Lapses(t.sessions[x], now) then t.sessions[x].(state := ABANDONED) else t.sessions[x])
    && u.entries == map x | x in t.entries && x in t.sessions && !Lapses(t.sessions[x], now) :: t.entries[x]
  }

  function NewId(t: Tables, input: Admission): SessionId {
    SessionId(input.descriptor, input.generation, |t.sessions| + 1, input.predecessor)
  }

  /** Lapsed sessions are abandoned, and the new one is there with fifteen expected entries. */
  predicate HasAdmitted(t: Tables, u: Tables, input: Admission, now: int) {
    var id := NewId(t, input);
    var d := input.descriptor;
    && id !in t.sessions && id in u.sessions
    && IsExpiryOf(t, u.(sessions := u.sessions - {id}, entries := u.entries - {id}), now)
    && u.sessions[id] == SessionRow(|t.sessions| + 1, input.generation, input.predecessor, SetId(d.worker, d.payloads),
                                    d.worker, d, d.committedAt, d.committedAt + TTL_MS, PROVISIONAL)
    && id in u.entries && |u.entries[id]| == |d.payloads| == ROSTER_SIZE
    && forall k :: 0 <= k < ROSTER_SIZE ==> u.entries[id][k] == EntryRow(d.payloads[k], None, None, None, EntryExpected)
  }

  predicate Admissible(t: Tables, input: Admission, nowExpire: int, nowFresh: int) {
    && HasRoom(t, nowExpire) && StillFresh(input.descriptor.committedAt, nowFresh)
    && Follows(t, input, nowExpire) && input.descriptor.committedAt + TTL_MS <= STAMP_MAX
  }

  lemma LapseDecides(t: Tables, now: int)
    requires Inv(t) && IsDate(now)
    ensures forall id :: id in t.sessions ==>
              && ExpireStale(t, now).sessions[id] ==
                   (if Lapses(t.sessions[id], now) then t.sessions[id].(state := ABANDONED) else t.sessions[id])
              && t.sessions[id].freshUntil == t.sessions[id].committedAt + TTL_MS
    ensures LiveSessions(ExpireStale(t, now).sessions) == OngoingSessions(t, now)
    ensures ExpireStale(t, now).sessions.Keys == t.sessions.Keys
  {
    forall id | id in t.sessions
      ensures ExpireStale(t, now).sessions[id] ==
                (if Lapses(t.sessions[id], now) then t.sessions[id].(state := ABANDONED) else t.sessions[id])
      ensures t.sessions[id].freshUntil == t.sessions[id].committedAt + TTL_MS
    {
      assert SessionOk(t.worker, t.sessions, id);
    }
  }

  lemma ExpiryIsExpiry(t: Tables, now: int)
    requires Inv(t) && IsDate(now) && t.selection.phase == OPEN
    ensures IsExpiryOf(t, ExpireStale(t, now), now)
    ensures |ExpireStale(t, now).sessions| == |t.sessions| && NextOrdinal(ExpireStale(t, now)) == |t.sessions| + 1
  {
    LapseDecides(t, now);
    ExpireKeepsNext(t, now);
    forall id | id in t.entries ensures t.sessions[id].state != ABANDONED {
      assert SessionEntriesOk(t, id);
    }
  }

  lemma FollowsDecides(t: Tables, input: Admission, now: int)
    requires Inv(t) && IsDate(now)
    ensures PredecessorAdmits(ExpireStale(t, now), input, |t.sessions| + 1) <==> Follows(t, input, now)
  {
    LapseDecides(t, now);
    if input.predecessor.Some? && input.predecessor.value in t.sessions {
      OrdinalsBelow(t, input.predecessor.value, |t.sessions| + 1);
    }
  }

  lemma InsertIsAdmitted(t: Tables, input: Admission, now: int)
    requires Inv(t) && IsDate(now) && t.selection.phase == OPEN && ValidDescriptor(input.descriptor)
    ensures HasAdmitted(t, Insert(ExpireStale(t, now), input, |t.sessions| + 1), input, now)
  {
    hide Inv, ExpireStale, Insert, IsExpiryOf;
    NewIdFree(t, input);
    ExpiryIsExpiry(t, now);
    var e := ExpireStale(t, now);
    ExpiryAddsNothing(t, e, now, NewId(t, input));
    InsertIsNew(e, input, |t.sessions| + 1);
  }

  lemma ExpiryAddsNothing(t: Tables, e: Tables, now: int, id: SessionId)
    requires IsExpiryOf(t, e, now) && id !in t.sessions && id !in t.entries
    ensures id !in e.sessions && id !in e.entries
  {
  }

  lemma NewIdFree(t: Tables, input: Admission)
    requires Inv(t)
    ensures NewId(t, input) !in t.sessions && NewId(t, input) !in t.entries
  {
    var id := NewId(t, input);
    forall x | x in t.sessions ensures x != id {
      OrdinalsBelow(t, x, |t.sessions| + 1);
    }
  }

  lemma InsertIsNew(e: Tables, input: Admission, ordinal: int)
    requires ValidDescriptor(input.descriptor)
    requires AdmittedId(input, ordinal) !in e.sessions && AdmittedId(input, ordinal) !in e.entries
    ensures var u := Insert(e, input, ordinal);
            var id := SessionId(input.descriptor, input.generation, ordinal, input.predecessor);
            var d := input.descriptor;
            && id in u.sessions && id in u.entries
            && u.sessions[id] == SessionRow(ordinal, input.generation, input.predecessor, SetId(d.worker, d.payloads),
                                            d.worker, d, d.committedAt, d.committedAt + TTL_MS, PROVISIONAL)
            && u.(sessions := u.sessions - {id}, entries := u.entries - {id}) == e
            && |u.entries[id]| == |d.payloads| == ROSTER_SIZE
            && forall k :: 0 <= k < ROSTER_SIZE ==>
                 u.entries[id][k] == EntryRow(d.payloads[k], None, None, None, EntryExpected)
  {
    var u := Insert(e, input, ordinal);
    var id := AdmittedId(input, ordinal);
    assert u.sessions - {id} == e.sessions;
    assert u.entries - {id} == e.entries;
  }

  /**
   * A session is admitted exactly when there is room once lapsed sessions are set aside, its deadline has not
   * passed and can be stored, and the predecessor it names, if any, is the one that it may follow. A repeat gives
   * the session there is. Only a lost ordinal keeps the expiry without a session.
   */
  lemma AdmitDecided(t: Tables, input: Admission, ordinal: int, nowExpire: int, nowFresh: int)
    requires Inv(t) && WellFormed(t.worker, input)
    ensures var room := HasRoom(t, nowExpire) && StillFresh(input.descriptor.committedAt, nowFresh);
            var fits := Follows(t, input, nowExpire) && input.descriptor.committedAt + TTL_MS <= STAMP_MAX;
            if exists x :: Repeated(t, input, x) then
              var o := AdmitStep(t, input, ordinal, nowExpire, nowFresh);
              o.AdmitResolved? && o.tables == t && Repeated(t, input, o.id)
            else match AdmitStep(t, input, ordinal, nowExpire, nowFresh)
              case AdmitAborted => !room || (ordinal == |t.sessions| + 1 && !fits)
              case AdmitRetry(u) => room && ordinal != |t.sessions| + 1 && IsExpiryOf(t, u, nowExpire)
              case AdmitResolved(u, id) =>
                room && ordinal == |t.sessions| + 1 && fits && id == NewId(t, input) && HasAdmitted(t, u, input, nowExpire)
  {
    RepeatDecides(t, input);
    if (forall x :: !Repeated(t, input, x)) && t.selection.phase == OPEN && IsDate(nowExpire) {
      NewAdmissionDecided(t, input, ordinal, nowExpire, nowFresh);
    }
    hide Inv, Repeated, IsExisting, ExpireStale, PredecessorAdmits, Follows, HasAdmitted, IsExpiryOf;
  }

  lemma RepeatDecides(t: Tables, input: Admission)
    ensures forall x :: Repeated(t, input, x) <==> IsExisting(t, input, x)
  {
  }

  lemma NewAdmissionDecided(t: Tables, input: Admission, ordinal: int, nowExpire: int, nowFresh: int)
    requires Inv(t) && WellFormed(t.worker, input) && t.selection.phase == OPEN && IsDate(nowExpire)
    requires forall x :: !Repeated(t, input, x)
    ensures var room := HasRoom(t, nowExpire) && StillFresh(input.descriptor.committedAt, nowFresh);
            var fits := Follows(t, input, nowExpire) && input.descriptor.committedAt + TTL_MS <= STAMP_MAX;
            match AdmitStep(t, input, ordinal, nowExpire, nowFresh)
            case AdmitAborted => !room || (ordinal == |t.sessions| + 1 && !fits)
            case AdmitRetry(u) => room && ordinal != |t.sessions| + 1 && IsExpiryOf(t, u, nowExpire)
            case AdmitResolved(u, id) =>
              room && ordinal == |t.sessions| + 1 && fits && id == NewId(t, input) && HasAdmitted(t, u, input, nowExpire)
  {
    RepeatDecides(t, input);
    OpenIsUnsealed(t);
    LapseDecides(t, nowExpire);
    ExpiryIsExpiry(t, nowExpire);
    FollowsDecides(t, input, nowExpire);
    InsertIsAdmitted(t, input, nowExpire);
    FreshDecides(input.descriptor.committedAt, nowFresh);
    AdmitCases(t, input, ordinal, nowExpire, nowFresh);
    hide Inv, ExpireStale, Repeated, PredecessorAdmits, Follows, HasAdmitted, IsExpiryOf, AdmitStep,
      FreshFor, StillFresh, Insert, OngoingSessions, LiveSessions, WellFormed, NextOrdinal;
  }

  lemma FreshDecides(committedAt: int, now: int)
    ensures FreshFor(now, committedAt + TTL_MS) && IsStamp(committedAt) ==> StillFresh(committedAt, now)
    ensures StillFresh(committedAt, now) && IsStamp(committedAt) ==> FreshFor(now, committedAt + TTL_MS)
  {
  }

  lemma AdmitCases(t: Tables, input: Admission, ordinal: int, nowExpire: int, nowFresh: int)
    requires OpenUnsealed(t) && IsDate(nowExpire) && forall x :: !IsExisting(t, input, x)
    ensures var e := ExpireStale(t, nowExpire);
            var deadline := input.descriptor.committedAt + TTL_MS;
            AdmitStep(t, input, ordinal, nowExpire, nowFresh) ==
              if |LiveSessions(e.sessions)| >= 4 || |e.sessions| >= 8 || !FreshFor(nowFresh, deadline) then AdmitAborted
              else if NextOrdinal(e) != ordinal then AdmitRetry(e)
              else if !PredecessorAdmits(e, input, ordinal) || !IsStamp(deadline) then AdmitAborted
              else AdmitResolved(Insert(e, input, ordinal), AdmittedId(input, ordinal))
  {
    hide ExpireStale, LiveSessions, FreshFor, NextOrdinal, PredecessorAdmits, Insert, OpenUnsealed, IsExisting;
  }
}
