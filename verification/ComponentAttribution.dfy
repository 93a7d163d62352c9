/** Which call, under which clock, may bring about each kind of change. */
module ComponentAttribution {
  import opened Clock
  import opened ComponentTypes
  import opened ComponentReader
  import opened ComponentSteps
  import opened ComponentInvariant
  import opened ComponentSafety
  import opened ComponentReads

  /** Who may end, stage, select or admit a session. */
  predicate Licensed(t: Tables, op: Op, id: SessionId, before: SessionRow, after: SessionState) {
    match after
    case ABANDONED =>
      || (op.AbandonOp? && op.s.id == id && Expired(op.now, before.freshUntil))
      || (op.AdmitOp? && Expired(op.nowExpire, before.freshUntil))
    case REJECTED => op.RejectOp? && op.s.id == id && before.state == STAGED
    case SUPERSEDED => op.SealOp? && op.s.id != id && Live(before.state)
    case STAGED => op.StageOp? && op.s.id == id && Fresh(op.now, before.freshUntil)
    case SELECTED =>
      && op.SealOp? && op.s.id == id && before.state == STAGED && Fresh(op.now, before.freshUntil)
      && ValidPins(op.pins)
    case PROVISIONAL => false
  }

  lemma ChangeLicensed(t: Tables, op: Op, id: SessionId)
    requires Inv(t) && id in t.sessions && id in Apply(t, op).sessions
    ensures Apply(t, op).sessions[id].state != t.sessions[id].state ==>
              Licensed(t, op, id, t.sessions[id], Apply(t, op).sessions[id].state)
  {
    hide Inv;
    match op
    case AdmitOp(input, ordinal, a, b) =>
      if WellFormed(t.worker, input) {
        AdmissionLicensed(t, input, ordinal, a, b, id);
      }
    case AbandonOp(s, now) =>
    case StageOp(s, e, now) =>
    case RejectOp(s) =>
    case SealOp(s, pins, now) =>
    case ConfirmOp(s, e, r) =>
    case ManifestSealOp(s) =>
    case ManifestResultOp(s, m, e, r) =>
  }

  /** Nothing, the expiry, or the expiry and a session that was not there. */
  lemma AdmitShape(t: Tables, input: Admission, ordinal: int, nowExpire: int, nowFresh: int)
    requires Inv(t) && WellFormed(t.worker, input)
    ensures var u := SettleAdmission(t, AdmitStep(t, input, ordinal, nowExpire, nowFresh));
            var e := ExpireStale(t, nowExpire);
            || u == t
            || (IsDate(nowExpire) && u == e)
            || (IsDate(nowExpire) && AdmittedId(input, ordinal) !in e.sessions && u == Insert(e, input, ordinal))
  {
    if SettleAdmission(t, AdmitStep(t, input, ordinal, nowExpire, nowFresh)) != t {
      ExpireKeepsExisting(t, input, nowExpire);
      var e := ExpireStale(t, nowExpire);
      ExpireRetires(t, nowExpire);
      RetireKeepsInv(t, e);
      hide Inv, Retires, IsExisting, ExpireStale;
      if AdmitStep(t, input, ordinal, nowExpire, nowFresh).AdmitResolved? {
        InsertKeepsInv(e, input, ordinal);
      }
    }
  }

  lemma AdmissionLicensed(t: Tables, input: Admission, ordinal: int, nowExpire: int, nowFresh: int, id: SessionId)
    requires Inv(t) && WellFormed(t.worker, input) && id in t.sessions
    ensures var u := SettleAdmission(t, AdmitStep(t, input, ordinal, nowExpire, nowFresh));
            && id in u.sessions
            && (u.sessions[id] == t.sessions[id]
                || (u.sessions[id] == t.sessions[id].(state := ABANDONED) && Expired(nowExpire, t.sessions[id].freshUntil)))
  {
    AdmitShape(t, input, ordinal, nowExpire, nowFresh);
    hide Inv, AdmitStep, ExpireStale, WellFormed;
    ExpireShape(t, nowExpire, id);
  }

  lemma OthersAdmitNothing(t: Tables, op: Op)
    requires SelectionOk(t) && !op.AdmitOp?
    ensures Apply(t, op).sessions.Keys == t.sessions.Keys
  {
    match op
    case AbandonOp(s, now) =>
    case StageOp(s, e, now) =>
    case RejectOp(s) =>
    case SealOp(s, pins, now) =>
    case ConfirmOp(s, e, r) =>
    case ManifestSealOp(s) =>
    case ManifestResultOp(s, m, e, r) =>
  }

  lemma AdmissionInserts(t: Tables, input: Admission, ordinal: int, nowExpire: int, nowFresh: int, id: SessionId)
    requires Inv(t) && id !in t.sessions
    requires id in SettleAdmission(t, AdmitStep(t, input, ordinal, nowExpire, nowFresh)).sessions
    ensures t.selection.phase == OPEN && id == AdmittedId(input, |t.sessions| + 1)
    ensures Fresh(nowFresh, input.descriptor.committedAt + TTL_MS)
    ensures var u := SettleAdmission(t, AdmitStep(t, input, ordinal, nowExpire, nowFresh));
            u.sessions[id].state == PROVISIONAL && AllIn(EntriesOf(u, id), {EntryExpected})
  {
    ExpireKeepsNext(t, nowExpire);
  }

  /** A session appears only by an admission that is still fresh, with the next free ordinal and no entry staged. */
  lemma OnlyAdmissionAdmits(t: Tables, op: Op, id: SessionId)
    requires Inv(t) && id !in t.sessions && id in Apply(t, op).sessions
    ensures op.AdmitOp? && t.selection.phase == OPEN && id == AdmittedId(op.input, |t.sessions| + 1)
    ensures Fresh(op.nowFresh, op.input.descriptor.committedAt + TTL_MS)
    ensures Apply(t, op).sessions[id].state == PROVISIONAL
    ensures AllIn(EntriesOf(Apply(t, op), id), {EntryExpected})
  {
    if !op.AdmitOp? {
      OthersAdmitNothing(t, op);
    } else {
      AdmissionInserts(t, op.input, op.ordinal, op.nowExpire, op.nowFresh, id);
    }
  }
}
