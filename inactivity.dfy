// TelegramInactivityManager.check_inactivity (main.py): the periodic sweep
// over the call ledger that ends stale Telegram conversations and warns
// idle ones once. The clock is `now` (seconds); timestamps are seconds.

module Inactivity {
  import opened PyText
  import opened ActiveCalls

  const MaxConversationAge: int := 86400
  const InactivityTimeout: int := 300
  const InactivityWarning: int := 120

  /** What the sweep does with one call. */
  datatype Verdict = Skip | EndOld | EndIdle | Warn | Quiet

  /** Only text conversations of Telegram users are watched. */
  predicate Watched(r: CallRecord) {
    r.medium == "Text" && StartsWith(r.mobileNo, "telegram_")
  }

  function VerdictFor(r: CallRecord, now: int): Verdict {
    if !Watched(r) then Skip
    else if now - r.timestamp >= MaxConversationAge then EndOld
    else if now - r.lastMessageAt >= InactivityTimeout then EndIdle
    else if now - r.lastMessageAt >= InactivityWarning then Warn
    else Quiet
  }

  predicate Ends(v: Verdict) {
    v == EndOld || v == EndIdle
  }

  /** The warned set, the ledger and the two counters of a sweep in progress. */
  datatype SweepState = SweepState(warned: set<string>, ledger: Ledger, warnings: nat, ended: nat)

  /** One call of the sweep; `saves` says whether end_call's save succeeds. */
  function Step(st: SweepState, id: string, r: CallRecord, now: int, saves: string -> bool): SweepState {
    match VerdictFor(r, now)
    case EndOld => SweepState(st.warned - {id}, EndCallOn(st.ledger, id, saves(id)).0, st.warnings, st.ended + 1)
    case EndIdle => SweepState(st.warned - {id}, EndCallOn(st.ledger, id, saves(id)).0, st.warnings, st.ended + 1)
    case Warn => if id in st.warned then st else SweepState(st.warned + {id}, st.ledger, st.warnings + 1, st.ended)
    case _ => st
  }

  /** The state after the first k calls of the snapshot, in insertion order. */
  function SweepUpTo(order: seq<string>, calls: map<string, CallRecord>, now: int, saves: string -> bool,
                     start: SweepState, k: nat): SweepState
    requires k <= |order|
  {
    if k == 0 then start
    else
      var st := SweepUpTo(order, calls, now, saves, start, k - 1);
      if order[k - 1] in calls then Step(st, order[k - 1], calls[order[k - 1]], now, saves) else st
  }

  /** Whether a call is in the warned set after the sweep has seen it with
      verdict `v`, given whether it was in it before. */
  function Marked(v: Verdict, was: bool): bool {
    match v
    case EndOld => false
    case EndIdle => false
    case Warn => true
    case _ => was
  }

  // -----------------------------------------------------------------------
  // Properties of the sweep
  // -----------------------------------------------------------------------

  /** A call is warned after the sweep exactly when it was seen idle for two
      minutes (but not five), or was warned before and was seen neither
      ending nor warned; ending a call takes it out of the set. */
  lemma {:induction false} WarnedAfterSweep(order: seq<string>, calls: map<string, CallRecord>, now: int,
                                            saves: string -> bool, start: SweepState, k: nat, id: string)
    requires k <= |order|
    ensures id in SweepUpTo(order, calls, now, saves, start, k).warned
            <==> if id in calls && id in order[..k] then Marked(VerdictFor(calls[id], now), id in start.warned)
                 else id in start.warned
  {
    if k > 0 {
      WarnedAfterSweep(order, calls, now, saves, start, k - 1, id);
      assert order[..k] == order[..k - 1] + [order[k - 1]];
    }
  }

  /** Each warning counted is one call newly in the warned set, so a call
      already warned is never warned again. */
  lemma {:induction false} WarningsAreNewlyWarned(order: seq<string>, calls: map<string, CallRecord>, now: int,
                                                  saves: string -> bool, start: SweepState, k: nat)
    requires k <= |order|
    ensures var st := SweepUpTo(order, calls, now, saves, start, k);
            st.warnings == start.warnings + |st.warned - start.warned|
  {
    if k > 0 {
      WarningsAreNewlyWarned(order, calls, now, saves, start, k - 1);
      var st := SweepUpTo(order, calls, now, saves, start, k - 1);
      var id := order[k - 1];
      if id in calls {
        var v := VerdictFor(calls[id], now);
        assert (v == Warn && id !in st.warned ==> id !in start.warned) && (Ends(v) ==> id !in st.warned - start.warned) by {
          WarnedAfterSweep(order, calls, now, saves, start, k - 1, id);
        }
        StepCountsWarnings(st, start.warned, start.warnings, id, calls[id], now, saves);
      }
    }
  }

  /** One step keeps the warning counter equal to the number of calls newly warned. */
  lemma StepCountsWarnings(st: SweepState, before: set<string>, w0: nat, id: string, r: CallRecord, now: int,
                           saves: string -> bool)
    requires st.warnings == w0 + |st.warned - before|
    requires VerdictFor(r, now) == Warn && id !in st.warned ==> id !in before
    requires Ends(VerdictFor(r, now)) ==> id !in st.warned - before
    ensures var next := Step(st, id, r, now, saves);
            next.warnings == w0 + |next.warned - before|
  {
    var v := VerdictFor(r, now);
    if v == Warn && id !in st.warned {
      assert (st.warned + {id}) - before == (st.warned - before) + {id};
    } else if Ends(v) {
      assert (st.warned - {id}) - before == st.warned - before;
    }
  }

  /** The sweep ends every watched call that is a day old or five minutes
      idle (when the save succeeds), whatever its status, and changes
      nothing else in the ledger. */
  lemma {:induction false} LedgerAfterSweep(order: seq<string>, calls: map<string, CallRecord>, now: int,
                                            saves: string -> bool, start: SweepState, k: nat)
    requires k <= |order| && start.ledger.calls == calls
    ensures var l := SweepUpTo(order, calls, now, saves, start, k).ledger;
            l.order == start.ledger.order && l.convs == start.ledger.convs && l.calls.Keys == calls.Keys
            && forall id :: id in calls ==>
                 l.calls[id] == if id in order[..k] && Ends(VerdictFor(calls[id], now)) && saves(id)
                                then calls[id].(status := Ended) else calls[id]
  {
    if k > 0 {
      LedgerAfterSweep(order, calls, now, saves, start, k - 1);
      var st := SweepUpTo(order, calls, now, saves, start, k - 1);
      var id := order[k - 1];
      assert order[..k] == order[..k - 1] + [id];
      if id in calls {
        StepLedger(st, id, calls[id], now, saves);
      }
    }
  }

  /** One step ends the call in the ledger when its verdict ends it and the save succeeds. */
  lemma StepLedger(st: SweepState, id: string, r: CallRecord, now: int, saves: string -> bool)
    requires id in st.ledger.calls
    ensures var l := Step(st, id, r, now, saves).ledger;
            l == if Ends(VerdictFor(r, now)) && saves(id)
                 then st.ledger.(calls := st.ledger.calls[id := st.ledger.calls[id].(status := Ended)])
                 else st.ledger
  {
  }

  /** A call that has been ENDED but not yet archived is ended (and counted)
      again by every sweep while it is over a day old. */
  lemma EndedCallEndedAgain(calls: map<string, CallRecord>, id: string, now: int, saves: string -> bool,
                            start: SweepState)
    requires id in calls && calls[id].status == Ended && Watched(calls[id])
    requires now - calls[id].timestamp >= MaxConversationAge
    ensures SweepUpTo([id], calls, now, saves, start, 1).ended == start.ended + 1
  {
  }

  // -----------------------------------------------------------------------
  // The manager object
  // -----------------------------------------------------------------------

  class InactivityMonitor {
    /** warned_conversations */
    var warned: set<string>

    constructor ()
      ensures warned == {}
    {
      warned := {};
    }

    /** check_inactivity over the ledger as it is when the sweep starts;
        answers the two counters it reports. */
    method CheckInactivity(ledger: CallLedger, now: int, saves: string -> bool)
      returns (warningsSent: nat, conversationsEnded: nat)
      modifies this, ledger
      ensures var st := SweepUpTo(old(ledger.order), old(ledger.calls), now, saves,
                                  SweepState(old(warned), old(ledger.Snapshot()), 0, 0), |old(ledger.order)|);
              warned == st.warned && ledger.Snapshot() == st.ledger
              && warningsSent == st.warnings && conversationsEnded == st.ended
      ensures old(ledger.Valid()) ==> ledger.Valid()
    {
      var snapshot := ledger.Snapshot();
      var order, calls := snapshot.order, snapshot.calls;
      ghost var start := SweepState(warned, snapshot, 0, 0);
      warningsSent, conversationsEnded := 0, 0;
      var i := 0;
      while i < |order|
        invariant 0 <= i <= |order|
        invariant SweepState(warned, ledger.Snapshot(), warningsSent, conversationsEnded)
                  == SweepUpTo(order, calls, now, saves, start, i)
        invariant old(ledger.Valid()) ==> ledger.Valid()
      {
        var id := order[i];
        if id in calls {
          var r := calls[id];
          if r.medium == "Text" && StartsWith(r.mobileNo, "telegram_") {
            if now - r.timestamp >= MaxConversationAge || now - r.lastMessageAt >= InactivityTimeout {
              var ok := ledger.EndCall(id, saves(id));
              conversationsEnded := conversationsEnded + 1;
              warned := warned - {id};
            } else if now - r.lastMessageAt >= InactivityWarning {
              if id !in warned {
                warned := warned + {id};
                warningsSent := warningsSent + 1;
              }
            }
          }
        }
        i := i + 1;
      }
    }
  }
}
