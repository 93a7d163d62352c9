/**
 * Deliveries of results, in whatever order, however often and from however stale a snapshot, and mixed
 * with any other calls, lead to one and the same final state.
 */
module ComponentConfluence {
  import opened Foundation
  import opened ComponentTypes
  import opened ComponentReader
  import opened ComponentSteps
  import opened ComponentInvariant
  import opened ComponentSafety
  import opened ComponentRuns
  import opened ComponentReads

  /** What the outside world answers: one result per component, and one for the manifest. */
  datatype Answers = Answers(components: seq<ResultBytes>, manifest: ResultBytes)

  predicate ClaimStands(t: Tables) {
    && t.selection.phase == COMPONENT_EFFECTS_SEALED
    && t.selection.selected.Some? && t.selection.pins.Some?
    && t.selection.selected.value in t.sessions
  }

  function Claimed(t: Tables): SessionId
    requires t.selection.selected.Some?
  {
    t.selection.selected.value
  }

  function EffectAt(t: Tables, k: int): Effect
    requires ClaimStands(t) && 0 <= k < |t.sessions[Claimed(t)].descriptor.payloads|
  {
    var d := t.sessions[Claimed(t)].descriptor;
    ComponentEffect(Envelope(d, k, d.payloads[k]), t.selection.pins.value)
  }

  predicate Agrees(row: EntryRow, r: ResultBytes) {
    row.status == EntryConfirmed ==> row.result == Some(r)
  }

  /** The journal has just been claimed; whatever is already confirmed agrees with the answers. */
  predicate Start(t: Tables, a: Answers) {
    && Inv(t) && ClaimStands(t)
    && |a.components| == |EntriesOf(t, Claimed(t))| == ROSTER_SIZE
    && forall k :: 0 <= k < ROSTER_SIZE ==> Agrees(EntriesOf(t, Claimed(t))[k], a.components[k])
  }

  /** Every delivery in the call carries the answer of its effect; other calls are unrestricted. */
  predicate Delivers(t0: Tables, a: Answers, op: Op)
    requires Start(t0, a)
  {
    match op
    case ConfirmOp(s, e, r) =>
      |t0.sessions[Claimed(t0)].descriptor.payloads| == ROSTER_SIZE &&
      forall k :: 0 <= k < ROSTER_SIZE && e == EffectAt(t0, k) ==> r == a.components[k]
    case ManifestResultOp(_, _, _, r) => r == a.manifest
    case _ => true
  }

  function WithAnswer(row: EntryRow, r: ResultBytes): EntryRow {
    row.(result := Some(r), status := EntryConfirmed)
  }

  /** A state on the way from `t0`: each entry is as it was, or confirmed with its own answer. */
  predicate Toward(t0: Tables, a: Answers, t: Tables)
    requires Start(t0, a)
  {
    var c := Claimed(t0);
    && t.worker == t0.worker && t.sessions == t0.sessions
    && t.selection.selected == t0.selection.selected && t.selection.pins == t0.selection.pins
    && t.entries.Keys == t0.entries.Keys
    && |EntriesOf(t, c)| == |EntriesOf(t0, c)| == ROSTER_SIZE
    && (forall k :: 0 <= k < ROSTER_SIZE ==>
          || EntriesOf(t, c)[k] == EntriesOf(t0, c)[k]
          || EntriesOf(t, c)[k] == WithAnswer(EntriesOf(t0, c)[k], a.components[k]))
    && ResultsAmong(t.manifests, a.manifest)
  }

  lemma ClosedStage(t: Tables, s: Snapshot, e: Envelope, now: int)
    requires EntriesOk(t) && SelectionOk(t) && t.selection.phase != OPEN
    ensures Settle(t, StageStep(t, s, e, now)).entries == t.entries
  {
    if s.id in t.sessions {
      assert SessionEntriesOk(t, s.id);
    }
  }

  /** After the claim only confirmations touch entries. */
  lemma ClosedEntries(t: Tables, op: Op)
    requires EntriesOk(t) && SelectionOk(t) && t.selection.phase != OPEN && !op.ConfirmOp?
    ensures Apply(t, op).entries == t.entries
  {
    hide EntriesOk, SelectionOk, StageStep;
    match op
    case StageOp(s, e, now) => ClosedStage(t, s, e, now);
    case AbandonOp(s, now) =>
    case RejectOp(s) =>
    case SealOp(s, pins, now) =>
    case AdmitOp(input, ordinal, a, b) =>
    case ManifestSealOp(s) =>
    case ManifestResultOp(s, m, e, r) =>
  }

  predicate ResultsAmong(manifests: map<SessionId, ManifestRow>, r: ResultBytes) {
    forall id :: id in manifests ==> manifests[id].result.None? || manifests[id].result == Some(r)
  }

  /** Only a manifest result adds a result to the manifest row, and it adds its own. */
  lemma ClosedManifests(t: Tables, op: Op, r: ResultBytes)
    requires ResultsAmong(t.manifests, r) && (op.ManifestResultOp? ==> op.result == r)
    ensures ResultsAmong(Apply(t, op).manifests, r)
  {
    match op
    case StageOp(s, e, now) =>
    case AbandonOp(s, now) =>
    case RejectOp(s) =>
    case SealOp(s, pins, now) =>
    case ConfirmOp(s, e, q) =>
    case AdmitOp(input, ordinal, a, b) =>
    case ManifestSealOp(s) =>
    case ManifestResultOp(s, m, e, q) =>
  }

  lemma ClosedFixed(t: Tables, op: Op)
    requires Inv(t) && t.selection.phase != OPEN
    ensures var u := Apply(t, op);
            && u.worker == t.worker && u.sessions == t.sessions
            && u.selection.selected == t.selection.selected && u.selection.pins == t.selection.pins
            && u.selection.phase != OPEN
  {
    ApplyEvolves(t, op);
  }

  lemma ConfirmToward(t0: Tables, a: Answers, t: Tables, op: Op)
    requires Start(t0, a) && Inv(t) && t.selection.phase != OPEN && Toward(t0, a, t)
    requires op.ConfirmOp? && Delivers(t0, a, op)
    ensures Toward(t0, a, Apply(t, op))
  {
    hide SessionsOk, SelectionOk;
    var u := Apply(t, op);
    if u != t {
      var c := Claimed(t0);
      assert op.s.id == c;
      var k := FindEffect(EntriesOf(t, c), op.effect).value;
      assert SessionEntriesOk(t, c) && SessionEntriesOk(t0, c);
      assert EntryOk(t.sessions[c].descriptor, k, EntriesOf(t, c)[k], t.selection.pins);
      assert op.effect == EffectAt(t0, k);
      assert op.result == a.components[k];
      assert EntriesOf(t, c)[k] == EntriesOf(t0, c)[k];
    }
  }

  lemma ApplyToward(t0: Tables, a: Answers, t: Tables, op: Op)
    requires Start(t0, a) && Inv(t) && t.selection.phase != OPEN && Toward(t0, a, t) && Delivers(t0, a, op)
    ensures Toward(t0, a, Apply(t, op))
  {
    if op.ConfirmOp? {
      ConfirmToward(t0, a, t, op);
    } else {
      ClosedFixed(t, op);
      ClosedEntries(t, op);
      ClosedManifests(t, op, a.manifest);
    }
  }

  lemma {:induction false} RunToward(t0: Tables, a: Answers, t: Tables, ops: seq<Op>)
    requires Start(t0, a) && Inv(t) && t.selection.phase != OPEN && Toward(t0, a, t)
    requires forall i :: 0 <= i < |ops| ==> Delivers(t0, a, ops[i])
    ensures Toward(t0, a, Run(t, ops))
    decreases |ops|
  {
    hide SessionsOk, EntriesOk, SelectionOk;
    if ops != [] {
      ApplyToward(t0, a, t, ops[0]);
      ApplyKeepsInv(t, ops[0]);
      ClosedFixed(t, ops[0]);
      RunToward(t0, a, Apply(t, ops[0]), ops[1..]);
    }
  }

  // ---- the one final state --------------------------------------------------------------------

  function AnswerWorms(a: Answers): seq<Worm> {
    seq(|a.components|, k requires 0 <= k < |a.components| => a.components[k].worm)
  }

  function FinalRows(t0: Tables, a: Answers): seq<EntryRow>
    requires Start(t0, a)
  {
    var rows := EntriesOf(t0, Claimed(t0));
    seq(ROSTER_SIZE, k requires 0 <= k < ROSTER_SIZE => WithAnswer(rows[k], a.components[k]))
  }

  /** Written down from the start and the answers alone: no order of events appears in it. */
  function Final(t0: Tables, a: Answers): Tables
    requires Start(t0, a)
  {
    var c := Claimed(t0);
    var worms := AnswerWorms(a);
    var manifest := Manifest(t0.sessions[c].descriptor, worms);
    var collision := Collides(worms, a.manifest.worm);
    var t := t0.(entries := t0.entries[c := FinalRows(t0, a)]);
    if HasDuplicateVersions(worms) then
      t.(selection := t.selection.(phase := HOLD, holdCode := Some(WORM_VERSION_CONFLICT)))
    else
      t.(selection := Answer(t.selection, collision),
         manifests := map[c := Answered(ManifestRow(manifest, ManifestEffect(manifest, t0.selection.pins.value),
                                                    None, None, ManifestSealed), a.manifest, collision)])
  }

  lemma FinalEntries(t0: Tables, a: Answers, t: Tables)
    requires Start(t0, a) && Toward(t0, a, t) && Inv(t) && Rank(t.selection.phase) == 4
    ensures EntriesOf(t, Claimed(t0)) == FinalRows(t0, a)
    ensures Worms(FinalRows(t0, a)) == AnswerWorms(a)
    ensures t.entries == t0.entries[Claimed(t0) := FinalRows(t0, a)]
  {
    var c := Claimed(t0);
    var rows, rows0 := EntriesOf(t, c), EntriesOf(t0, c);
    assert AllConfirmed(rows);
    assert SessionEntriesOk(t0, c) && SessionEntriesOk(t, c);
    forall k | 0 <= k < ROSTER_SIZE ensures rows[k] == FinalRows(t0, a)[k] {
      assert rows[k].status == EntryConfirmed;
    }
    forall id | id in t.entries ensures id == c {
      assert SessionEntriesOk(t, id);
    }
  }

  /** At the end the selection and the manifest row follow from the entries and the answer. */
  lemma FinalManifest(t0: Tables, a: Answers, t: Tables)
    requires Start(t0, a) && SelectionOk(t) && Rank(t.selection.phase) == 4 && ResultsAmong(t.manifests, a.manifest)
    requires t.sessions == t0.sessions
    requires t.selection.selected == t0.selection.selected && t.selection.pins == t0.selection.pins
    requires EntriesOf(t, Claimed(t0)) == FinalRows(t0, a)
    requires Worms(FinalRows(t0, a)) == AnswerWorms(a)
    ensures t.selection == Final(t0, a).selection
    ensures t.manifests == Final(t0, a).manifests
  {
    var c := Claimed(t0);
    if t.selection.holdCode != Some(WORM_VERSION_CONFLICT) {
      assert t.manifests.Keys == {c};
      assert t.manifests == map[c := t.manifests[c]];
    }
  }

  /** Any two histories of the same answers that reach the end reach the same tables. */
  lemma DeliveryOrderIrrelevant(t0: Tables, a: Answers, ops: seq<Op>)
    requires Start(t0, a)
    requires forall i :: 0 <= i < |ops| ==> Delivers(t0, a, ops[i])
    requires Rank(Run(t0, ops).selection.phase) == 4
    ensures Run(t0, ops) == Final(t0, a)
  {
    var t := Run(t0, ops);
    RunToward(t0, a, t0, ops);
    RunKeeps(t0, ops);
    FinalEntries(t0, a, t);
    FinalManifest(t0, a, t);
  }

  /** Which of the three ends it is depends on the version identifiers alone. */
  lemma EndClassified(t0: Tables, a: Answers)
    requires Start(t0, a)
    ensures var versions := Versions(AnswerWorms(a));
            var end := Final(t0, a).selection;
            && (end.phase == CONFIRMED <==> Distinct(versions + [a.manifest.worm.version]))
            && (end.phase == HOLD && end.holdCode == Some(WORM_VERSION_CONFLICT) <==> !Distinct(versions))
            && (end.phase == HOLD && end.holdCode == Some(MANIFEST_VERSION_CONFLICT) <==>
                  Distinct(versions) && a.manifest.worm.version in versions)
  {
    SetSizeIsDistinct(Versions(AnswerWorms(a)));
    DistinctSnoc(Versions(AnswerWorms(a)), a.manifest.worm.version);
  }

  // ---- the end is always in reach -------------------------------------------------------------

  /** All results parse against the effects they answer. */
  predicate Acceptable(t0: Tables, a: Answers)
    requires Start(t0, a)
  {
    var c := Claimed(t0);
    var manifest := Manifest(t0.sessions[c].descriptor, AnswerWorms(a));
    && |t0.sessions[c].descriptor.payloads| == ROSTER_SIZE
    && (forall k :: 0 <= k < ROSTER_SIZE ==> ParseResult(a.components[k], EffectAt(t0, k)).Some?)
    && ParseResult(a.manifest, ManifestEffect(manifest, t0.selection.pins.value)).Some?
  }

  /** Confirm each listed component from a fresh read. */
  ghost function DeliverEach(t0: Tables, a: Answers, t: Tables, order: seq<int>): Tables
    requires Start(t0, a) && Acceptable(t0, a)
    requires forall i :: 0 <= i < |order| ==> 0 <= order[i] < ROSTER_SIZE
    requires Claimed(t0) in t.sessions
    decreases |order|
  {
    if order == [] then t
    else
      var k := order[0];
      var u := Apply(t, ConfirmOp(Current(t, Claimed(t0)), EffectAt(t0, k), a.components[k]));
      if Claimed(t0) in u.sessions then DeliverEach(t0, a, u, order[1..]) else u
  }

  predicate ConfirmedAt(t0: Tables, t: Tables, k: int)
    requires t0.selection.selected.Some?
  {
    0 <= k < |EntriesOf(t, Claimed(t0))| && EntriesOf(t, Claimed(t0))[k].status == EntryConfirmed
  }

  /** A fresh read of the claimed session may confirm any of its effects. */
  lemma FreshlyConfirmable(t: Tables, c: SessionId, k: int, e: Effect, r: ResultBytes)
    requires Inv(t) && Rank(t.selection.phase) in {1, 2} && t.selection.selected == Some(c)
    requires 0 <= k < |EntriesOf(t, c)| && EntriesOf(t, c)[k].effect == Some(e) && ParseResult(r, e).Some?
    ensures c in t.sessions && c in t.entries
    ensures Confirmable(Current(t, c), e, r) && FindEffect(EntriesOf(t, c), e) == Some(k)
    ensures EntriesOf(t, c)[k].status in {EntrySealed, EntryConfirmed}
    ensures EntriesOf(t, c)[k].status == EntrySealed ==> t.selection.phase == COMPONENT_EFFECTS_SEALED
  {
    hide SessionsOk, ParseEntries;
    assert SessionEntriesOk(t, c);
    EffectsAligned(t, c);
    assert Derived(Current(t, c)).effects[k] == e;
  }

  lemma ConfirmCommits(t: Tables, c: SessionId, k: int, e: Effect, r: ResultBytes)
    requires Inv(t) && Rank(t.selection.phase) in {1, 2} && t.selection.selected == Some(c)
    requires 0 <= k < |EntriesOf(t, c)| && EntriesOf(t, c)[k].effect == Some(e) && ParseResult(r, e).Some?
    requires Agrees(EntriesOf(t, c)[k], r)
    ensures c in t.sessions
    ensures var u := Apply(t, ConfirmOp(Current(t, c), e, r));
            && Rank(u.selection.phase) in {1, 2}
            && |EntriesOf(u, c)| == |EntriesOf(t, c)|
            && EntriesOf(u, c)[k].status == EntryConfirmed
            && forall j :: 0 <= j < |EntriesOf(t, c)| && EntriesOf(t, c)[j].status == EntryConfirmed ==>
                 EntriesOf(u, c)[j].status == EntryConfirmed
  {
    hide Inv, Confirmable, FindEffect;
    FreshlyConfirmable(t, c, k, e, r);
  }

  lemma DeliverOne(t0: Tables, a: Answers, t: Tables, k: int)
    requires Start(t0, a) && Acceptable(t0, a) && Toward(t0, a, t) && Inv(t) && Rank(t.selection.phase) in {1, 2}
    requires 0 <= k < ROSTER_SIZE
    ensures var u := Apply(t, ConfirmOp(Current(t, Claimed(t0)), EffectAt(t0, k), a.components[k]));
            && Toward(t0, a, u) && Inv(u) && Rank(u.selection.phase) in {1, 2}
            && ConfirmedAt(t0, u, k)
            && forall j :: ConfirmedAt(t0, t, j) ==> ConfirmedAt(t0, u, j)
  {
    hide SessionsOk;
    var c := Claimed(t0);
    var op := ConfirmOp(Current(t, c), EffectAt(t0, k), a.components[k]);
    assert SessionEntriesOk(t, c);
    assert EntryOk(t.sessions[c].descriptor, k, EntriesOf(t, c)[k], t.selection.pins);
    assert Agrees(EntriesOf(t0, c)[k], a.components[k]);
    ConfirmCommits(t, c, k, op.effect, op.result);
    assert Delivers(t0, a, op);
    ApplyToward(t0, a, t, op);
    ApplyKeepsInv(t, op);
  }

  lemma {:induction false} DeliverMany(t0: Tables, a: Answers, t: Tables, order: seq<int>)
    requires Start(t0, a) && Acceptable(t0, a) && Toward(t0, a, t) && Inv(t) && Rank(t.selection.phase) in {1, 2}
    requires forall i :: 0 <= i < |order| ==> 0 <= order[i] < ROSTER_SIZE
    ensures var u := DeliverEach(t0, a, t, order);
            && Toward(t0, a, u) && Inv(u) && Rank(u.selection.phase) in {1, 2}
            && (forall k :: k in order ==> ConfirmedAt(t0, u, k))
            && forall j :: ConfirmedAt(t0, t, j) ==> ConfirmedAt(t0, u, j)
    decreases |order|
  {
    if order != [] {
      DeliverOne(t0, a, t, order[0]);
      var u := Apply(t, ConfirmOp(Current(t, Claimed(t0)), EffectAt(t0, order[0]), a.components[order[0]]));
      DeliverMany(t0, a, u, order[1..]);
      assert forall k :: k in order ==> k == order[0] || k in order[1..];
    }
  }

  /** Seal the manifest and deliver its answer, each from a fresh read. */
  ghost function Finish(t0: Tables, a: Answers, t: Tables): Tables
    requires Start(t0, a) && Claimed(t0) in t.sessions
  {
    var c := Claimed(t0);
    var u := Apply(t, ManifestSealOp(Current(t, c)));
    if c in u.sessions && c in u.manifests
    then Apply(u, ManifestResultOp(Current(u, c), u.manifests[c], u.manifests[c].effect, a.manifest))
    else u
  }

  lemma AnswerEnds(t0: Tables, a: Answers, t: Tables)
    requires Start(t0, a) && Acceptable(t0, a) && Toward(t0, a, t) && Inv(t)
    requires t.selection.phase == MANIFEST_EFFECT_SEALED
    ensures var c := Claimed(t0);
            && c in t.sessions && c in t.manifests
            && var op := ManifestResultOp(Current(t, c), t.manifests[c], t.manifests[c].effect, a.manifest);
               Rank(Apply(t, op).selection.phase) == 4
  {
    hide SessionsOk, EntriesOk;
    ManifestReaderAccepts(t);
    AllAnswered(t0, a, t);
  }

  lemma SealOrHold(t: Tables, c: SessionId)
    requires Inv(t) && t.selection.phase == COMPONENTS_CONFIRMED && t.selection.selected == Some(c) && c in t.sessions
    ensures var u := Apply(t, ManifestSealOp(Current(t, c)));
            u.selection.phase == MANIFEST_EFFECT_SEALED || (u.selection.phase == HOLD && c !in u.manifests)
  {
    hide SessionsOk, EntriesOk;
    ConfirmedComponents(t, c);
  }

  lemma FinishEnds(t0: Tables, a: Answers, t: Tables)
    requires Start(t0, a) && Acceptable(t0, a) && Toward(t0, a, t) && Inv(t)
    requires t.selection.phase == COMPONENTS_CONFIRMED
    ensures Rank(Finish(t0, a, t).selection.phase) == 4
  {
    var c := Claimed(t0);
    assert c in t.sessions && t.selection.selected == Some(c);
    hide Inv, Toward, Acceptable, Apply;
    var op := ManifestSealOp(Current(t, c));
    SealOrHold(t, c);
    ApplyToward(t0, a, t, op);
    ApplyKeepsInv(t, op);
    hide Start;
    if Apply(t, op).selection.phase == MANIFEST_EFFECT_SEALED {
      AnswerEnds(t0, a, Apply(t, op));
    }
  }

  lemma AllAnswered(t0: Tables, a: Answers, t: Tables)
    requires Start(t0, a) && Toward(t0, a, t) && AllConfirmed(EntriesOf(t, Claimed(t0)))
    ensures Worms(EntriesOf(t, Claimed(t0))) == AnswerWorms(a)
  {
    var rows := EntriesOf(t, Claimed(t0));
    forall k | 0 <= k < ROSTER_SIZE ensures rows[k].result == Some(a.components[k]) {
    }
  }

  /** Once every component has been delivered, in any order, two more calls reach the final state. */
  lemma EndReached(t0: Tables, a: Answers, order: seq<int>)
    requires Start(t0, a) && Acceptable(t0, a)
    requires forall i :: 0 <= i < |order| ==> 0 <= order[i] < ROSTER_SIZE
    requires forall k :: 0 <= k < ROSTER_SIZE ==> k in order
    ensures var t := DeliverEach(t0, a, t0, order);
            && Claimed(t0) in t.sessions
            && Rank(Finish(t0, a, t).selection.phase) == 4
  {
    assert SessionEntriesOk(t0, Claimed(t0));
    hide SessionsOk, EntriesOk, Acceptable;
    DeliverMany(t0, a, t0, order);
    var t := DeliverEach(t0, a, t0, order);
    forall k | 0 <= k < ROSTER_SIZE ensures EntriesOf(t, Claimed(t0))[k].status == EntryConfirmed {
      assert ConfirmedAt(t0, t, k);
    }
    assert t.selection.phase == COMPONENTS_CONFIRMED;
    hide Inv, Toward, Finish;
    FinishEnds(t0, a, t);
  }
}
