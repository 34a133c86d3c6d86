// ConversationManager (main.py, aurora_fastapi.py, backend/aurora_twilio.py,
// aurora_livekit.py — the four copies are identical): the in-memory state of
// each phone call, keyed by the call id, kept until the call is ended.

module Conversations {
  import opened Optional
  import opened Chat
  import opened TaggedReply

  /** The body of a logged alert: the servers record the urgency and the
      sources as well, aurora_livekit.py only the two texts. */
  datatype AlertBody =
    | TaggedAlert(workerMessage: string, auroraResponse: string, urgency: string, sources: Sources)
    | KeywordAlert(workerMessage: string, auroraResponse: string)

  datatype Alert = Alert(timestamp: int, body: AlertBody)

  /** One entry of `self.conversations`. */
  datatype Session = Session(history: seq<Turn>, startTime: int, exchangeCount: nat, alerts: seq<Alert>)

  /** What end_conversation returns (and writes to the call log). */
  datatype Summary = Summary(callSid: string, durationSeconds: int, exchanges: nat,
                             criticalAlerts: nat, conversation: seq<Turn>)

  /** The number of user turns in a history. */
  function UserTurns(history: seq<Turn>): nat {
    if history == [] then 0
    else UserTurns(history[..|history| - 1]) + (if history[|history| - 1].role == "user" then 1 else 0)
  }

  /** The exchange counter counts exactly the user turns of the history. */
  predicate Consistent(s: Session) {
    s.exchangeCount == UserTurns(s.history)
  }

  /** The entry get_conversation creates: empty, started now. */
  function Fresh(now: int): (s: Session)
    ensures Consistent(s) && s.exchangeCount == 0
  {
    Session([], now, 0, [])
  }

  /** The entry for `callSid` once get_conversation has run. */
  function Current(sessions: map<string, Session>, callSid: string, now: int): Session {
    if callSid in sessions then sessions[callSid] else Fresh(now)
  }

  /** add_message on an entry. */
  function WithMessage(s: Session, role: string, content: string): Session {
    s.(history := s.history + [Turn(role, content)],
       exchangeCount := if role == "user" then s.exchangeCount + 1 else s.exchangeCount)
  }

  /** add_critical_alert on an entry. */
  function WithAlert(s: Session, alert: Alert): Session {
    s.(alerts := s.alerts + [alert])
  }

  /** The summary of an entry ended at `now`; timedelta.seconds drops whole
      days, which is Python's (and Dafny's) non-negative remainder. */
  function Summarize(callSid: string, s: Session, now: int): Summary {
    Summary(callSid, (now - s.startTime) % 86400, s.exchangeCount, |s.alerts|, s.history)
  }

  // -----------------------------------------------------------------------
  // Properties of the entry operations
  // -----------------------------------------------------------------------

  lemma UserTurnsAppend(history: seq<Turn>, t: Turn)
    ensures UserTurns(history + [t]) == UserTurns(history) + (if t.role == "user" then 1 else 0)
  {
    assert (history + [t])[..|history|] == history;
  }

  /** add_message appends exactly one turn, leaves the alerts and the start
      time alone, and counts an exchange exactly when the turn is the user's:
      the counter keeps counting the user turns. */
  lemma MessageKeepsCount(s: Session, role: string, content: string)
    ensures var r := WithMessage(s, role, content);
            |r.history| == |s.history| + 1 && r.history[..|s.history|] == s.history
            && r.history[|s.history|] == Turn(role, content)
            && r.alerts == s.alerts && r.startTime == s.startTime
            && (Consistent(s) ==> Consistent(r))
            && (role == "user" <==> r.exchangeCount == s.exchangeCount + 1)
            && (role != "user" <==> r.exchangeCount == s.exchangeCount)
  {
    UserTurnsAppend(s.history, Turn(role, content));
  }

  /** The summary's exchange count is the number of user turns it lists,
      and its duration is under a day. */
  lemma SummaryCountsUserTurns(callSid: string, s: Session, now: int)
    requires Consistent(s)
    ensures var m := Summarize(callSid, s, now);
            m.exchanges == UserTurns(m.conversation) && m.criticalAlerts == |s.alerts|
            && 0 <= m.durationSeconds < 86400
  {
  }

  lemma {:induction false} UserTurnsBounded(history: seq<Turn>)
    ensures UserTurns(history) <= |history|
  {
    if history != [] {
      UserTurnsBounded(history[..|history| - 1]);
    }
  }

  /** Replacing the entry `before` by `after`, consistent when `before` is. */
  lemma PutKeepsConsistent(sessions: map<string, Session>, callSid: string, before: Session, after: Session)
    requires Consistent(before) ==> Consistent(after)
    ensures var m := sessions[callSid := before][callSid := after];
            m == sessions[callSid := after]
            && ((forall id :: id in sessions ==> Consistent(sessions[id])) && (callSid !in sessions || sessions[callSid] == before)
                && Consistent(before)
                ==> forall id :: id in m ==> Consistent(m[id]))
  {
  }

  // -----------------------------------------------------------------------
  // The manager object
  // -----------------------------------------------------------------------

  class ConversationManager {
    var sessions: map<string, Session>

    ghost predicate Valid()
      reads this
    {
      forall callSid :: callSid in sessions ==> Consistent(sessions[callSid])
    }

    constructor ()
      ensures sessions == map[] && Valid()
    {
      sessions := map[];
    }

    /** get_conversation: the entry, created empty at `now` if absent; an
        existing entry is returned and nothing changes. */
    method GetConversation(callSid: string, now: int) returns (s: Session)
      modifies this
      ensures s == Current(old(sessions), callSid, now)
      ensures sessions == old(sessions)[callSid := s]
      ensures callSid in old(sessions) ==> sessions == old(sessions)
      ensures old(Valid()) ==> Valid()
    {
      if callSid !in sessions {
        sessions := sessions[callSid := Fresh(now)];
      }
      s := sessions[callSid];
    }

    /** add_message: one turn appended; a user turn is one more exchange. */
    method AddMessage(callSid: string, role: string, content: string, now: int)
      modifies this
      ensures sessions == old(sessions)[callSid := WithMessage(Current(old(sessions), callSid, now), role, content)]
      ensures old(Valid()) ==> Valid()
    {
      var s := GetConversation(callSid, now);
      var count := s.exchangeCount;
      if role == "user" {
        count := count + 1;
      }
      var updated := s.(history := s.history + [Turn(role, content)], exchangeCount := count);
      assert updated == WithMessage(s, role, content);
      MessageKeepsCount(s, role, content);
      PutKeepsConsistent(old(sessions), callSid, s, updated);
      sessions := sessions[callSid := updated];
    }

    /** get_history; like every accessor it creates the entry if absent. */
    method GetHistory(callSid: string, now: int) returns (history: seq<Turn>)
      modifies this
      ensures history == Current(old(sessions), callSid, now).history
      ensures sessions == old(sessions)[callSid := Current(old(sessions), callSid, now)]
      ensures old(Valid()) ==> Valid()
    {
      var s := GetConversation(callSid, now);
      history := s.history;
    }

    /** add_critical_alert: one alert appended, stamped `now`. */
    method AddCriticalAlert(callSid: string, body: AlertBody, now: int)
      modifies this
      ensures sessions == old(sessions)[callSid := WithAlert(Current(old(sessions), callSid, now), Alert(now, body))]
      ensures old(Valid()) ==> Valid()
    {
      var s := GetConversation(callSid, now);
      sessions := sessions[callSid := s.(alerts := s.alerts + [Alert(now, body)])];
    }

    /** end_conversation: an absent id gives None and changes nothing; a
        present one is summarised, its call log written (`logSaved` says
        whether the directory and the file could be written) and removed.
        When the write fails the exception leaves before the removal:
        `raised`, and the entry stays. */
    method EndConversation(callSid: string, now: int, logSaved: bool) returns (r: Option<Summary>, raised: bool)
      modifies this
      ensures raised <==> callSid in old(sessions) && !logSaved
      ensures callSid !in old(sessions) ==> r == None && sessions == old(sessions)
      ensures raised ==> r == None && sessions == old(sessions)
      ensures callSid in old(sessions) && logSaved ==>
                r == Some(Summarize(callSid, old(sessions[callSid]), now))
                && sessions == old(sessions) - {callSid}
      ensures !raised ==> callSid !in sessions
      ensures old(Valid()) ==> Valid()
      ensures old(Valid()) && r.Some? ==> r.value.exchanges == UserTurns(r.value.conversation)
    {
      r, raised := None, false;
      if callSid in sessions {
        var s := sessions[callSid];
        var summary := Summarize(callSid, s, now);
        if !logSaved {
          raised := true;
          return;
        }
        r := Some(summary);
        sessions := sessions - {callSid};
      }
    }
  }
}
