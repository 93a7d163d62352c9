/**
 * The head journal, the effect store, the ledger and their coordinator as objects that change in place.
 *
 * A ghost trace records every event, and the tables are at all times what that trace leads to, so
 * everything proved about runs holds of the objects. At each wait other callers may add events of their
 * own, and the process may stop. A call returns only when the trace has ended it, with what that gave.
 */
module AuthorityStore {
  import opened Foundation
  import opened Clock
  import opened AuthorityTypes
  import opened AuthoritySteps
  import opened AuthorityCalls
  import opened AuthorityFlights
  import opened AuthorityRuns
  import opened AuthorityOutcomes

  /** The event starts, continues or ends a call on `id`. */
  predicate IsCallOn(e: Event, id: ReservationId) {
    match e
    case StartDispatch(x, _, _, _) => x == id
    case StartConfirm(x, _, _, _, _) => x == id
    case Resume(x, _, _) => x == id
    case Crash(x) => x == id
    case _ => false
  }

  class AuthorityJournal {
    var heads: seq<HeadRow>
    var effects: map<ReservationId, EffectRow>
    var ledger: map<Name, LedgerRow>
    ghost var consumed: set<Binding>
    ghost var flights: map<ReservationId, Flight>
    ghost var trace: seq<Event>
    ghost var latest: Option<EffectRow>

    constructor ()
      ensures Valid() && trace == [] && flights == map[] && Contents() == NEW_WORLD
    {
      heads, effects, ledger, consumed, flights, trace, latest := [], map[], map[], {}, map[], [], None;
    }

    ghost function Contents(): World
      reads this
    {
      World(heads, effects, ledger, consumed)
    }

    ghost function Whole(): System
      reads this
    {
      System(Contents(), flights)
    }

    /** `latest` is what the last event answered. */
    ghost predicate LatestIsLast()
      reads this
    {
      trace != [] ==>
        var n := |trace| - 1;
        latest == Perform(Run(NEW_SYSTEM, trace[..n]), trace[n]).answer
    }

    /** The tables and the calls in flight are exactly what the recorded events lead to. */
    ghost predicate Valid()
      reads this
    {
      Whole() == Run(NEW_SYSTEM, trace) && LatestIsLast()
    }

    /** Since the trace had length `from` the call on `id` has come to its end, and that gave `answer`. */
    ghost predicate Ended(from: nat, id: ReservationId, answer: Option<EffectRow>)
      reads this
    {
      from < |trace| && IsCallOn(trace[|trace| - 1], id) && id !in flights && answer == latest
    }

    // ---- what happens around a step -------------------------------------------------------------

    method ClockNow() returns (ms: int) {
      ms := *;
    }

    /** The step just taken in the tables is recorded. */
    ghost method Record(s: System, e: Event)
      requires s == Run(NEW_SYSTEM, trace) && Contents() == Perform(s, e).system.world
      modifies this`flights, this`trace, this`latest
      ensures Valid() && trace == old(trace) + [e]
      ensures flights == Perform(s, e).system.flights && latest == Perform(s, e).answer
    {
      RunMore(NEW_SYSTEM, trace, e);
      assert (trace + [e])[..|trace|] == trace;
      trace, flights, latest := trace + [e], Perform(s, e).system.flights, Perform(s, e).answer;
    }

    /**
     * The call on `id` waits. Whatever the others do meanwhile, its row, its tombstones and its place are
     * framed; and the process may stop.
     */
    method Await(id: ReservationId) returns (stopped: bool)
      requires Valid()
      modifies this
      ensures Valid() && old(trace) <= trace
      ensures Frame(old(Contents()), Contents(), id)
      ensures stopped ==> Ended(old(|trace|), id, None)
      ensures !stopped ==> Elsewhere(old(Whole()), trace[|old(trace)|..], id)
      ensures !stopped && id in old(flights) ==> id in flights && flights[id] == old(flights)[id]
    {
      SameWorldFrames(Contents(), id);
      stopped := *;
      if stopped {
        Record(Whole(), Crash(id));
      }
    }

    // ---- queries --------------------------------------------------------------------------------

    method FindByRequest(request: Name) returns (r: Option<nat>)
      ensures r == FindRequest(heads, request)
    {
      var i := 0;
      while i < |heads|
        invariant 0 <= i <= |heads|
        invariant FindRequest(heads, request) ==
                    match FindRequest(heads[i..], request) { case None => None case Some(k) => Some(k + i) }
      {
        if heads[i].request == request {
          return Some(i);
        }
        assert heads[i..][1..] == heads[i + 1..];
        i := i + 1;
      }
      r := None;
    }

    method Find(g: int) returns (r: Option<nat>)
      ensures r == FindGeneration(heads, g)
    {
      var i := 0;
      while i < |heads|
        invariant 0 <= i <= |heads|
        invariant FindGeneration(heads, g) ==
                    match FindGeneration(heads[i..], g) { case None => None case Some(k) => Some(k + i) }
      {
        if heads[i].generation == g {
          return Some(i);
        }
        assert heads[i..][1..] == heads[i + 1..];
        i := i + 1;
      }
      r := None;
    }

    /** `ORDER BY generation DESC LIMIT 1` over the confirmed rows. */
    method Current() returns (r: Option<HeadRow>)
      ensures r == CurrentHead(heads)
    {
      r := None;
      for i := 0 to |heads|
        invariant r == CurrentHead(heads[..i])
      {
        assert heads[..i + 1][..i] == heads[..i];
        if heads[i].mirror == MirrorConfirmed && (r.None? || r.value.generation < heads[i].generation) {
          r := Some(heads[i]);
        }
      }
      assert heads[..|heads|] == heads;
    }

    // ---- head store -----------------------------------------------------------------------------

    method ReserveHead(input: HeadInput, now: int) returns (ok: bool)
      requires Valid()
      modifies this
      ensures Valid() && trace == old(trace) + [Event.ReserveHead(input, now)]
      ensures ok <==> ReserveHeadStep(old(Contents()), input, now).Done?
    {
      ghost var s := Whole();
      ok := AppendHead(input, now);
      Record(s, Event.ReserveHead(input, now));
    }

    method AppendHead(input: HeadInput, now: int) returns (ok: bool)
      modifies this`heads, this`effects
      ensures Contents() == Commit(old(Contents()), ReserveHeadStep(old(Contents()), input, now))
      ensures ok <==> ReserveHeadStep(old(Contents()), input, now).Done?
    {
      ok := false;
      if !BoundInput(input) {
        return;
      }
      var same := FindByRequest(input.request);
      if same.Some? {
        ok := SameReserved(heads[same.value], input);
        return;
      }
      var saved := effects;
      effects := ExpireForHead(effects, now);
      var current := Current();
      if HasPending(heads) || HasNonterminalEffect(effects) || Recurs(heads, input)
         || input.generation != (if current.None? then 0 else current.value.generation) + 1
         || !LinksTo(input.head.previous, current) {
        effects := saved;
        return;
      }
      heads := heads + [NewHead(input)];
      ok := true;
    }

    method MarkDispatched(g: int) returns (ok: bool)
      requires Valid()
      modifies this
      ensures Valid() && trace == old(trace) + [MarkHead(g)]
      ensures ok <==> exists i :: 0 <= i < |heads| && heads[i].generation == g
    {
      ghost var s := Whole();
      var i := Find(g);
      ok := i.Some?;
      if ok && heads[i.value].mirror == MirrorPrepared {
        heads := heads[i.value := heads[i.value].(mirror := MirrorDispatched)];
      }
      assert ok ==> heads[i.value].generation == g;
      Record(s, MarkHead(g));
    }

    method ConfirmHead(g: int, worm: HeadWorm) returns (ok: bool)
      requires Valid()
      modifies this
      ensures Valid() && trace == old(trace) + [Event.ConfirmHead(g, worm)]
      ensures ok <==> ConfirmHeadStep(old(Contents()), g, worm).Done?
    {
      ghost var s := Whole();
      ok := false;
      var i := Find(g);
      if i.Some? {
        var row := heads[i.value];
        if ParsesHead(row.head) && worm.key == HeadKey(row.head.generation, row.head)
           && IsStamp(worm.retentionUntil) && worm.retentionUntil >= row.committedAt + RETENTION_MS {
          if row.mirror == MirrorConfirmed {
            ok := row.recordSha == worm.digest && row.worm == Some(worm);
          } else if row.mirror == MirrorDispatched && row.recordSha == worm.digest {
            heads := heads[i.value := row.(mirror := MirrorConfirmed, worm := Some(worm))];
            ok := true;
          }
        }
      }
      Record(s, Event.ConfirmHead(g, worm));
    }

    // ---- effect store ---------------------------------------------------------------------------

    method Replace(id: ReservationId, r: Reservation) returns (ok: bool)
      requires id in effects
      modifies this`effects
      ensures Contents() == Commit(old(Contents()), ReplaceStep(old(Contents()), id, r))
      ensures ok <==> ReplaceStep(old(Contents()), id, r).Done?
    {
      ok := effects[id].head == r.head && !RequestTaken(effects, r.requestId, id);
      if ok {
        effects := effects[id := Rearmed(effects[id], r)];
      }
    }

    method ReserveEffect(r: Reservation, now: int) returns (ok: bool)
      modifies this`effects
      ensures Contents() == Commit(old(Contents()), EffectReserveStep(old(Contents()), r, now))
      ensures ok <==> EffectReserveStep(old(Contents()), r, now).Done?
      ensures ok ==> IdOf(r) in effects
    {
      ok := false;
      if !ValidReservation(r) {
        return;
      }
      var saved := effects;
      effects := ExpireUndispatched(effects, now);
      var id := IdOf(r);
      if id in effects {
        if effects[id].head == r.head && effects[id].intent == r.intent {
          if effects[id].status in {EffectReserved, EffectExpired, EffectCancelled} {
            ok := Replace(id, r);
          } else {
            ok := true;
          }
        }
      } else {
        var current := Current();
        if !HasPending(heads) && current.Some?
           && r.head == HeadRef(current.value.generation, current.value.recordId, current.value.recordSha)
           && !IntentTaken(effects, r.intent) && !RequestTaken(effects, r.requestId, id) {
          effects := effects[id := EffectRow(r, r.head, r.intent, r.requestId, r.createdAt, r.expiresAt,
                                             EffectReserved, None)];
          ok := true;
        }
      }
      if !ok {
        effects := saved;
      }
    }

    method Seal(id: ReservationId, result: Name) returns (ok: bool)
      modifies this`effects
      ensures Contents() == Commit(old(Contents()), SealStep(old(Contents()), id, result))
      ensures ok <==> SealStep(old(Contents()), id, result).Done?
    {
      ok := false;
      if id !in effects {
        return;
      }
      if HasResult(effects[id].status) {
        ok := effects[id].result == Some(result);
      } else if effects[id].status == EffectReserved {
        effects := effects[id := effects[id].(status := EffectSealed, result := Some(result))];
        ok := true;
      }
    }

    /** The expiry is committed although the call then reports that the row cannot be dispatched. */
    method DispatchEffect(id: ReservationId, now: int) returns (ok: bool)
      modifies this`effects
      ensures Contents() == Commit(old(Contents()), DispatchStep(old(Contents()), id, now))
      ensures ok <==> id in effects && effects[id].status in {EffectHold, EffectConfirmed}
    {
      if id !in effects {
        return false;
      }
      var row := effects[id];
      if row.status != EffectHold && row.status != EffectConfirmed {
        if row.status != EffectSealed || row.expiresAt < now {
          if row.status in {EffectReserved, EffectSealed} {
            effects := effects[id := Lapse(row)];
          }
        } else {
          effects := effects[id := row.(status := EffectHold)];
        }
      }
      ok := effects[id].status in {EffectHold, EffectConfirmed};
    }

    method ConfirmEffect(id: ReservationId, result: Name) returns (ok: bool)
      modifies this`effects
      ensures Contents() == Commit(old(Contents()), ConfirmStep(old(Contents()), id, result))
      ensures ok <==> ConfirmStep(old(Contents()), id, result).Done?
    {
      ok := false;
      if id !in effects {
        return;
      }
      if effects[id].status == EffectConfirmed {
        ok := effects[id].result == Some(result);
      } else if effects[id].status == EffectHold && effects[id].result == Some(result) {
        effects := effects[id := effects[id].(status := EffectConfirmed)];
        ok := true;
      }
    }

    method CancelUndispatched(id: ReservationId) returns (ok: bool)
      modifies this`effects
      ensures Contents() == Commit(old(Contents()), CancelStep(old(Contents()), id))
      ensures ok <==> CancelStep(old(Contents()), id).Done?
    {
      ok := false;
      if id !in effects {
        return;
      }
      if effects[id].status == EffectCancelled {
        ok := true;
      } else if effects[id].status == EffectReserved || effects[id].status == EffectSealed {
        effects := effects[id := effects[id].(status := EffectCancelled, result := None)];
        ok := true;
      }
    }

    method Rearm(id: ReservationId, r: Reservation) returns (ok: bool)
      modifies this`effects
      ensures Contents() == Commit(old(Contents()), RearmStep(old(Contents()), id, r))
      ensures ok <==> RearmStep(old(Contents()), id, r).Done?
    {
      if !ValidReservation(r) || id !in effects || effects[id].status != EffectHold || IdOf(r) != id
         || r.intent != effects[id].intent {
        return false;
      }
      ok := Replace(id, r);
    }

    // ---- ledger ---------------------------------------------------------------------------------

    method Prepare(b: Binding, now: int, taken: bool) returns (ok: bool)
      modifies this`ledger
      ensures Contents() == Commit(old(Contents()), PrepareStep(old(Contents()), b, now, taken))
      ensures ok <==> PrepareStep(old(Contents()), b, now, taken).Done?
    {
      ok := false;
      if b.expiresAt * 1000 <= now {
        return;
      }
      var saved := ledger;
      ledger := Prune(ledger, now);
      if !taken {
        if !Unseen(ledger, b) {
          ok := Exact(ledger, b) && ledger[b.jti].state == LedgerPrepared;
        } else if |ledger| < LEDGER_MAX_ROWS {
          ledger := ledger[b.jti := LedgerRow(b, LedgerPrepared, None)];
          ok := true;
        }
      }
      if !ok {
        ledger := saved;
      }
    }

    method Settle(b: Binding, to: LedgerState) returns (ok: bool)
      requires to != LedgerPrepared
      modifies this`ledger, this`consumed
      ensures Contents() == Commit(old(Contents()), SettleStep(old(Contents()), b, to))
      ensures ok <==> SettleStep(old(Contents()), b, to).Done?
    {
      if !Exact(ledger, b) {
        return false;
      }
      if ledger[b.jti].state == to {
        return true;
      }
      ok := ledger[b.jti].state == LedgerPrepared;
      if ok {
        ledger := ledger[b.jti := ledger[b.jti].(state := to)];
        consumed := if to == LedgerConsumed then consumed + {b} else consumed;
      }
    }

    method MarkTerminal(b: Binding, now: int) returns (ok: bool)
      modifies this`ledger
      ensures Contents() == Commit(old(Contents()), MarkStep(old(Contents()), b, now))
      ensures ok <==> MarkStep(old(Contents()), b, now).Done?
    {
      ok := Exact(ledger, b) && ledger[b.jti].state != LedgerPrepared;
      if ok && ledger[b.jti].journalTerminalAt.None? {
        ledger := ledger[b.jti := ledger[b.jti].(journalTerminalAt := Some(now))];
      }
    }

    // ---- the steps of a call --------------------------------------------------------------------

    /** The ledger marks the tombstone, and only then is the row answered. */
    method MarkAndAnswer(id: ReservationId, b: Binding, row: EffectRow) returns (answer: Option<EffectRow>)
      requires Valid() && id in flights && flights[id] == Marking(b, row) && id in effects && effects[id] == row
      modifies this
      ensures Valid() && old(trace) <= trace && Ended(old(|trace|), id, answer)
      ensures answer.Some? ==> answer == Some(row) && id in effects && RowFrame(row, effects[id])
    {
      hide LatestIsLast, Run, Elsewhere;
      var stopped := Await(id);
      if stopped {
        return None;
      }
      var now := ClockNow();
      ghost var s := Whole();
      var ok := MarkTerminal(b, now);
      Record(s, Resume(id, now, false));
      answer := if ok then Some(row) else None;
    }

    method RearmAndAnswer(id: ReservationId, row: EffectRow, r: Reservation, mark: bool) returns (answer: Option<EffectRow>)
      requires Valid() && id in flights && flights[id] == Rearming(row, r, mark)
      modifies this
      ensures Valid() && old(trace) <= trace && Ended(old(|trace|), id, answer)
      ensures answer.Some? ==>
                && answer.value.status == EffectReserved && answer.value.requestId == r.requestId
                && id in effects && RowFrame(answer.value, effects[id])
    {
      hide LatestIsLast, Run, Elsewhere;
      var stopped := Await(id);
      if stopped {
        return None;
      }
      var now := ClockNow();
      ghost var s := Whole();
      var ok := Rearm(id, r);
      Record(s, Resume(id, now, false));
      if !ok {
        return None;
      }
      if mark {
        answer := MarkAndAnswer(id, BindingOf(row), effects[id]);
      } else {
        answer := Some(effects[id]);
      }
    }

    method CancelInLedger(id: ReservationId, row: EffectRow, r: Reservation) returns (ok: bool)
      requires Valid() && id in flights && flights[id] == Cancelling(row, r)
      modifies this
      ensures Valid() && old(trace) <= trace
      ensures ok ==> id in flights && flights[id] == Rearming(row, r, true)
      ensures !ok ==> Ended(old(|trace|), id, None)
    {
      hide LatestIsLast, Run, Elsewhere;
      var stopped := Await(id);
      if stopped {
        return false;
      }
      var now := ClockNow();
      ghost var s := Whole();
      ok := Settle(BindingOf(row), LedgerCancelled);
      Record(s, Resume(id, now, false));
    }

    /** The ledger has consumed the binding: the journal follows. */
    method ConfirmRow(id: ReservationId, row: EffectRow, result: Name) returns (ok: bool)
      requires Valid() && id in flights
      requires flights[id] == Confirming(row, result) || (flights[id] == Healing(row) && row.result == Some(result))
      modifies this
      ensures Valid() && old(trace) <= trace
      ensures ok ==>
                && id in effects && effects[id].status == EffectConfirmed && effects[id].result == Some(result)
                && id in flights && flights[id] == Marking(BindingOf(row), effects[id])
      ensures !ok ==> Ended(old(|trace|), id, None)
    {
      hide LatestIsLast, Run, Elsewhere, Frame;
      var stopped := Await(id);
      if stopped {
        return false;
      }
      var now := ClockNow();
      ghost var s := Whole();
      ok := ConfirmEffect(id, result);
      Record(s, Resume(id, now, false));
    }

    /** The row is confirmed and then its tombstone marked. */
    method ConfirmInJournal(id: ReservationId, row: EffectRow, result: Name) returns (answer: Option<EffectRow>)
      requires Valid() && id in flights
      requires flights[id] == Confirming(row, result) || (flights[id] == Healing(row) && row.result == Some(result))
      modifies this
      ensures Valid() && old(trace) <= trace && Ended(old(|trace|), id, answer)
      ensures answer.Some? ==>
                && answer.value.status == EffectConfirmed && answer.value.result == Some(result)
                && id in effects && answer == Some(effects[id])
    {
      hide LatestIsLast, Run;
      var ok := ConfirmRow(id, row, result);
      if !ok {
        return None;
      }
      answer := MarkAndAnswer(id, BindingOf(row), effects[id]);
    }

    /** The ledger is asked what it knows of the row that was read. */
    method ObserveLedger(id: ReservationId, row: EffectRow, r: Reservation) returns (seen: Option<Observation>)
      requires Valid() && id in flights && flights[id] == Reconciling(row, r)
      modifies this
      ensures Valid() && old(trace) <= trace
      ensures match seen
              case Some(Absent) =>
                if row.status == EffectSealed then id in flights && flights[id] == Rearming(row, r, false)
                else Ended(old(|trace|), id, None)
              case Some(Found(LedgerConsumed)) =>
                if row.status == EffectHold && row.result.Some? then id in flights && flights[id] == Healing(row)
                else Ended(old(|trace|), id, None)
              case Some(Found(LedgerPrepared)) => id in flights && flights[id] == Cancelling(row, r)
              case Some(Found(LedgerCancelled)) => id in flights && flights[id] == Rearming(row, r, true)
              case None => Ended(old(|trace|), id, None)
    {
      hide LatestIsLast, Run, Elsewhere;
      var stopped := Await(id);
      if stopped {
        return None;
      }
      var b := BindingOf(row);
      seen := if Unseen(ledger, b) then Some(Absent)
              else if Exact(ledger, b) then Some(Found(ledger[b.jti].state)) else None;
      var now := ClockNow();
      Record(Whole(), Resume(id, now, false));
    }

    // ---- coordinator ----------------------------------------------------------------------------

    method ReconcileEffect(id: ReservationId, row: EffectRow, r: Reservation) returns (answer: Option<EffectRow>)
      requires Valid() && id in flights && flights[id] == Reconciling(row, r)
      modifies this
      ensures Valid() && old(trace) <= trace && Ended(old(|trace|), id, answer)
      ensures answer.Some? ==>
                && id in effects && RowFrame(answer.value, effects[id])
                && (answer.value.status == EffectConfirmed
                    || (answer.value.status == EffectReserved && answer.value.requestId == r.requestId))
    {
      hide LatestIsLast, Run, Elsewhere;
      var seen := ObserveLedger(id, row, r);
      answer := None;
      match seen
      case None =>
      case Some(Absent) =>
        if row.status == EffectSealed {
          answer := RearmAndAnswer(id, row, r, false);
        }
      case Some(Found(LedgerConsumed)) =>
        if row.status == EffectHold && row.result.Some? {
          answer := ConfirmInJournal(id, row, row.result.value);
        }
      case Some(Found(LedgerPrepared)) =>
        var ok := CancelInLedger(id, row, r);
        if ok {
          answer := RearmAndAnswer(id, row, r, true);
        }
      case Some(Found(LedgerCancelled)) =>
        answer := RearmAndAnswer(id, row, r, true);
    }

    lemma ReservedIsNew(w: World, r: Reservation, now: int)
      requires EffectReserveStep(w, r, now).Done?
      ensures var row := EffectReserveStep(w, r, now).world.effects[IdOf(r)];
              row.status == EffectReserved ==> row.requestId == r.requestId
    {
    }

    /** The store is reached; the row it returns decides how the call goes on. */
    method ReserveInJournal(id: ReservationId, r: Reservation) returns (row: Option<EffectRow>)
      requires Valid() && id in flights && flights[id] == Reserving(r) && IdOf(r) == id
      modifies this
      ensures Valid() && old(trace) <= trace
      ensures match row
              case None => Ended(old(|trace|), id, None)
              case Some(found) =>
                && id in effects && found == effects[id]
                && match found.status
                   case EffectSealed => id in flights && flights[id] == Reconciling(found, r)
                   case EffectHold => id in flights && flights[id] == Reconciling(found, r)
                   case EffectConfirmed => id in flights && flights[id] == Marking(BindingOf(found), found)
                   case EffectReserved => Ended(old(|trace|), id, row) && found.requestId == r.requestId
                   case _ => Ended(old(|trace|), id, None)
    {
      hide LatestIsLast, Run, Elsewhere;
      var stopped := Await(id);
      if stopped {
        return None;
      }
      var now := ClockNow();
      hide EffectReserveStep, Frame;
      ghost var s := Whole();
      var ok := ReserveEffect(r, now);
      Record(s, Resume(id, now, false));
      if !ok {
        return None;
      }
      ReservedIsNew(s.world, r, now);
      row := Some(effects[id]);
    }

    method ReserveAfterProof(id: ReservationId, r: Reservation) returns (answer: Option<EffectRow>)
      requires Valid() && id in flights && flights[id] == Reserving(r) && IdOf(r) == id
      modifies this
      ensures Valid() && old(trace) <= trace && Ended(old(|trace|), id, answer)
      ensures answer.Some? ==>
                && id in effects && RowFrame(answer.value, effects[id])
                && (answer.value.status == EffectConfirmed
                    || (answer.value.status == EffectReserved && answer.value.requestId == r.requestId))
    {
      hide LatestIsLast, Run, Elsewhere;
      var row := ReserveInJournal(id, r);
      answer := None;
      if row.Some? {
        if row.value.status in {EffectSealed, EffectHold} {
          answer := ReconcileEffect(id, row.value, r);
        } else if row.value.status == EffectConfirmed {
          answer := MarkAndAnswer(id, BindingOf(row.value), row.value);
        } else if row.value.status == EffectReserved {
          answer := row;
        }
      }
    }

    /**
     * No call for this intent may be in flight; the head proof is waited for before the store is reached.
     * The call, made at `at`, leaves everything alone exactly when its request is refused at once.
     */
    method ReserveProof(q: ReserveRequest, proof: bool) returns (answer: Option<EffectRow>, at: int)
      requires Valid() && forall id :: id in flights ==> id.intent != q.intent
      modifies this
      ensures Valid() && old(trace) <= trace
      ensures match Request(old(Whole()), q, at, proof)
              case None => answer.None? && Whole() == old(Whole()) && trace == old(trace)
              case Some(r) => Ended(old(|trace|), IdOf(r), answer)
      ensures answer.Some? ==>
                exists id: ReservationId :: id.intent == q.intent && id in effects && RowFrame(answer.value, effects[id])
      ensures answer.Some? ==>
                answer.value.status == EffectConfirmed
                || (answer.value.status == EffectReserved && answer.value.requestId == q.requestId)
    {
      hide LatestIsLast, Run, Elsewhere;
      at := ClockNow();
      answer := None;
      var current := Current();
      if !FreshRequest(q.requestedAt, at) || q.expiresAt < at || HasPending(heads) || current.None? {
        return;
      }
      var head := current.value;
      var r := ReservationFor(q, head);
      if !proof || head.head.activatedId != q.activatedId || head.head.activatedSha != q.activatedSha
         || head.head.authorities != q.authorities || head.head.ingress != q.ingress || !ValidReservation(r) {
        return;
      }
      Record(Whole(), StartReserve(q, at, proof));
      answer := ReserveAfterProof(IdOf(r), r);
    }

    method PrepareInLedger(id: ReservationId, row: EffectRow, taken: bool) returns (ok: bool)
      requires Valid() && id in flights && flights[id] == Preparing(row)
      modifies this
      ensures Valid() && old(trace) <= trace
      ensures ok ==> id in flights && flights[id] == Dispatching(row)
      ensures !ok ==> Ended(old(|trace|), id, None)
    {
      hide LatestIsLast, Run, Elsewhere;
      var stopped := Await(id);
      if stopped {
        return false;
      }
      var now := ClockNow();
      ghost var s := Whole();
      ok := Prepare(BindingOf(row), now, taken);
      Record(s, Resume(id, now, taken));
    }

    method DispatchInJournal(id: ReservationId, row: EffectRow) returns (answer: Option<EffectRow>)
      requires Valid() && id in flights && flights[id] == Dispatching(row)
      modifies this
      ensures Valid() && old(trace) <= trace && Ended(old(|trace|), id, answer)
      ensures answer.Some? ==>
                id in effects && answer == Some(effects[id]) && effects[id].status in {EffectHold, EffectConfirmed}
    {
      hide LatestIsLast, Run, Elsewhere;
      var stopped := Await(id);
      if stopped {
        return None;
      }
      var now := ClockNow();
      ghost var s := Whole();
      var ok := DispatchEffect(id, now);
      Record(s, Resume(id, now, false));
      answer := if ok then Some(effects[id]) else None;
    }

    /** Prepared in the ledger first, dispatched in the journal after. */
    method PrepareAndDispatch(id: ReservationId, requestId: Name, requestedAt: int, taken: bool)
      returns (answer: Option<EffectRow>, at: int)
      requires Valid() && id !in flights
      modifies this
      ensures Valid() && old(trace) <= trace
      ensures if Callable(old(Whole()), id, requestId, requestedAt, at) then Ended(old(|trace|), id, answer)
              else answer.None? && Whole() == old(Whole()) && trace == old(trace)
      ensures answer.Some? ==>
                id in effects && answer == Some(effects[id]) && effects[id].status in {EffectHold, EffectConfirmed}
    {
      hide LatestIsLast, Run, Elsewhere;
      at := ClockNow();
      answer := None;
      if !FreshRequest(requestedAt, at) || id !in effects || effects[id].requestId != requestId {
        return;
      }
      var row := effects[id];
      Record(Whole(), StartDispatch(id, requestId, requestedAt, at));
      if row.status == EffectHold || row.status == EffectConfirmed {
        answer := Some(row);
        return;
      }
      if row.status != EffectSealed {
        return;
      }
      var ok := PrepareInLedger(id, row, taken);
      if !ok {
        return;
      }
      answer := DispatchInJournal(id, row);
    }

    method CommitInLedger(id: ReservationId, row: EffectRow, result: Name) returns (ok: bool)
      requires Valid() && id in flights && flights[id] == Committing(row, result)
      modifies this
      ensures Valid() && old(trace) <= trace
      ensures ok ==> id in flights && flights[id] == Confirming(row, result)
      ensures !ok ==> Ended(old(|trace|), id, None)
    {
      hide LatestIsLast, Run, Elsewhere;
      var stopped := Await(id);
      if stopped {
        return false;
      }
      var now := ClockNow();
      ghost var s := Whole();
      ok := Settle(BindingOf(row), LedgerConsumed);
      Record(s, Resume(id, now, false));
    }

    /** Consumed in the ledger first, confirmed in the journal after, and marked at last. */
    method CommitAndConfirm(id: ReservationId, requestId: Name, requestedAt: int, result: Name)
      returns (answer: Option<EffectRow>, at: int)
      requires Valid() && id !in flights
      modifies this
      ensures Valid() && old(trace) <= trace
      ensures if Callable(old(Whole()), id, requestId, requestedAt, at) then Ended(old(|trace|), id, answer)
              else answer.None? && Whole() == old(Whole()) && trace == old(trace)
      ensures answer.Some? ==>
                && answer.value.status == EffectConfirmed && answer.value.result == Some(result)
                && id in effects && answer == Some(effects[id])
    {
      hide LatestIsLast, Run, Elsewhere;
      at := ClockNow();
      answer := None;
      if !FreshRequest(requestedAt, at) || id !in effects || effects[id].requestId != requestId {
        return;
      }
      var row := effects[id];
      Record(Whole(), StartConfirm(id, requestId, requestedAt, result, at));
      if row.status != EffectHold && row.status != EffectConfirmed {
        return;
      }
      var ok := CommitInLedger(id, row, result);
      if !ok {
        return;
      }
      answer := ConfirmInJournal(id, row, result);
    }
  }
}
