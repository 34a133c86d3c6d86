// The /process-speech handlers: the turn gating around ConversationManager
// (main.py, aurora_fastapi.py, backend/aurora_twilio.py with the tagged
// reply and the call ledger; aurora_livekit.py with the keyword reply).
// The TwiML they answer with is reduced to which of the three paths ran.

module Speech {
  import opened PyText
  import opened Chat
  import opened TaggedReply
  import opened KeywordReply
  import opened Conversations
  import opened ActiveCalls

  const MaxConversationLength: nat := 20
  const MinSpeechLength: nat := 3

  /** Which answer the handler gives: the goodbye after the last allowed
      exchange, the request to speak clearly, or the assistant's reply; or
      none, when ending the conversation raised because its call log could
      not be written, and the request fails. */
  datatype Outcome<R> = LimitReached | UnclearSpeech | Answered(reply: R) | LogWriteFailed

  /** `not speech or len(speech.strip()) < 3`. */
  predicate Unclear(speech: string) {
    StrippedLength(speech) < MinSpeechLength
  }

  lemma UnclearIsShortStrip(speech: string)
    ensures Unclear(speech) <==> |Strip(speech)| < 3
    ensures speech == [] ==> Unclear(speech)
  {
    StrippedLengthOfStrip(speech);
  }

  /** `urgency_level in ["critical", "urgent"]`. */
  predicate Alerting(urgency: string) {
    urgency == "critical" || urgency == "urgent"
  }

  /** The entry after an answered exchange of the servers: the speech, the
      reply, and an alert when the reply is critical or urgent. */
  function AnsweredSession(s: Session, speech: string, r: Reply, now: int): Session {
    var answered := WithMessage(WithMessage(s, "user", speech), "assistant", r.message);
    if Alerting(r.urgency) then WithAlert(answered, Alert(now, TaggedAlert(speech, r.message, r.urgency, r.sources)))
    else answered
  }

  /** process_speech of the three servers, on the conversations only; the
      model is asked with the history that already ends in the speech. */
  function SpeechTurn(sessions: map<string, Session>, callSid: string, speech: string,
                      llm: seq<Turn> -> LlmOutcome, systemPrompt: string, fallback: string, now: int,
                      logSaved: bool)
    : (Outcome<Reply>, map<string, Session>)
  {
    var s := Current(sessions, callSid, now);
    if s.exchangeCount >= MaxConversationLength then
      if logSaved then (LimitReached, sessions - {callSid}) else (LogWriteFailed, sessions[callSid := s])
    else if Unclear(speech) then (UnclearSpeech, sessions[callSid := s])
    else
      var r := GenerateResponse(llm, systemPrompt, WithMessage(s, "user", speech).history, speech, fallback);
      (Answered(r), sessions[callSid := AnsweredSession(s, speech, r, now)])
  }

  /** The entry after an answered exchange of aurora_livekit.py. */
  function AnsweredKeywordSession(s: Session, speech: string, r: KeywordReply, now: int): Session {
    var answered := WithMessage(WithMessage(s, "user", speech), "assistant", r.message);
    if r.isUrgent then WithAlert(answered, Alert(now, KeywordAlert(speech, r.message))) else answered
  }

  /** process_speech of aurora_livekit.py. */
  function KeywordSpeechTurn(sessions: map<string, Session>, callSid: string, speech: string,
                             llm: seq<Turn> -> LlmOutcome, systemPrompt: string, now: int,
                             logSaved: bool)
    : (Outcome<KeywordReply>, map<string, Session>)
  {
    var s := Current(sessions, callSid, now);
    if s.exchangeCount >= MaxConversationLength then
      if logSaved then (LimitReached, sessions - {callSid}) else (LogWriteFailed, sessions[callSid := s])
    else if Unclear(speech) then (UnclearSpeech, sessions[callSid := s])
    else
      var r := GenerateKeywordResponse(llm, systemPrompt, WithMessage(s, "user", speech).history, speech);
      (Answered(r), sessions[callSid := AnsweredKeywordSession(s, speech, r, now)])
  }

  ghost predicate AllConsistent(sessions: map<string, Session>) {
    forall callSid :: callSid in sessions ==> Consistent(sessions[callSid])
  }

  // -----------------------------------------------------------------------
  // Properties of the gating
  // -----------------------------------------------------------------------

  /** Once a call has had its 20 exchanges, the next speech ends the
      conversation without asking the model: its entry is removed and no
      other entry changes; when the call log cannot be written, ending it
      raises and every entry stays as it was. */
  lemma LimitEndsConversation(sessions: map<string, Session>, callSid: string, speech: string,
                              llm: seq<Turn> -> LlmOutcome, systemPrompt: string, fallback: string, now: int,
                              logSaved: bool)
    requires Current(sessions, callSid, now).exchangeCount >= MaxConversationLength
    ensures logSaved ==>
              SpeechTurn(sessions, callSid, speech, llm, systemPrompt, fallback, now, logSaved) == (LimitReached, sessions - {callSid})
              && KeywordSpeechTurn(sessions, callSid, speech, llm, systemPrompt, now, logSaved) == (LimitReached, sessions - {callSid})
    ensures !logSaved ==>
              callSid in sessions
              && SpeechTurn(sessions, callSid, speech, llm, systemPrompt, fallback, now, logSaved) == (LogWriteFailed, sessions)
              && KeywordSpeechTurn(sessions, callSid, speech, llm, systemPrompt, now, logSaved) == (LogWriteFailed, sessions)
  {
    if !logSaved {
      assert callSid in sessions;
      assert sessions[callSid := sessions[callSid]] == sessions;
    }
  }

  /** Speech under three characters once stripped is turned away: the entry
      exists afterwards, with its history, count and alerts as before. */
  lemma UnclearSpeechAddsNothing(sessions: map<string, Session>, callSid: string, speech: string,
                                 llm: seq<Turn> -> LlmOutcome, systemPrompt: string, fallback: string, now: int,
                                 logSaved: bool)
    requires Current(sessions, callSid, now).exchangeCount < MaxConversationLength
    requires Unclear(speech)
    ensures var (o, after) := SpeechTurn(sessions, callSid, speech, llm, systemPrompt, fallback, now, logSaved);
            o == UnclearSpeech && callSid in after && after[callSid] == Current(sessions, callSid, now)
            && (forall id :: id in sessions ==> id in after && after[id] == sessions[id])
    ensures var (o, after) := KeywordSpeechTurn(sessions, callSid, speech, llm, systemPrompt, now, logSaved);
            o == UnclearSpeech && callSid in after && after[callSid] == Current(sessions, callSid, now)
  {
  }

  /** Two appended messages, in the user-assistant order. */
  lemma ExchangeAppendsTwo(s: Session, speech: string, reply: string)
    ensures var r := WithMessage(WithMessage(s, "user", speech), "assistant", reply);
            r.history == s.history + [Turn("user", speech), Turn("assistant", reply)]
            && r.exchangeCount == s.exchangeCount + 1 && r.alerts == s.alerts && r.startTime == s.startTime
            && (Consistent(s) ==> Consistent(r))
  {
    MessageKeepsCount(s, "user", speech);
    MessageKeepsCount(WithMessage(s, "user", speech), "assistant", reply);
    assert s.history + [Turn("user", speech)] + [Turn("assistant", reply)]
        == s.history + [Turn("user", speech), Turn("assistant", reply)];
  }

  /** An answered exchange of the servers grows the history by the speech
      and the reply and the count by one, and logs one alert exactly when
      the reply is critical or urgent. */
  lemma AnsweredExchange(sessions: map<string, Session>, callSid: string, speech: string,
                         llm: seq<Turn> -> LlmOutcome, systemPrompt: string, fallback: string, now: int,
                         logSaved: bool)
    requires Current(sessions, callSid, now).exchangeCount < MaxConversationLength
    requires !Unclear(speech)
    ensures var s := Current(sessions, callSid, now);
            var (o, after) := SpeechTurn(sessions, callSid, speech, llm, systemPrompt, fallback, now, logSaved);
            o.Answered? && o.reply.urgency in ValidLevels && callSid in after
            && after == sessions[callSid := after[callSid]]
            && after[callSid].history == s.history + [Turn("user", speech), Turn("assistant", o.reply.message)]
            && after[callSid].exchangeCount == s.exchangeCount + 1
            && (Alerting(o.reply.urgency) ==>
                  after[callSid].alerts == s.alerts + [Alert(now, TaggedAlert(speech, o.reply.message, o.reply.urgency, o.reply.sources))])
            && (!Alerting(o.reply.urgency) ==> after[callSid].alerts == s.alerts)
  {
    var s := Current(sessions, callSid, now);
    var r := GenerateResponse(llm, systemPrompt, WithMessage(s, "user", speech).history, speech, fallback);
    ExchangeAppendsTwo(s, speech, r.message);
  }

  /** The servers send the speech to the model twice: once as the last
      history turn, once more as the user input. */
  lemma RequestRepeatsSpeech(s: Session, systemPrompt: string, speech: string)
    ensures var request := BuildRequest(systemPrompt, WithMessage(s, "user", speech).history, speech);
            |request| == |s.history| + 3
            && request[|request| - 2] == Turn("user", speech) && request[|request| - 1] == Turn("user", speech)
  {
    var history := WithMessage(s, "user", speech).history;
    var request := BuildRequest(systemPrompt, history, speech);
    assert request[1..|request| - 1] == history;
    assert request[|request| - 2] == request[1..|request| - 1][|history| - 1];
  }

  /** When the model cannot be reached the servers log a critical alert. */
  lemma FailedCallLogsAlert(sessions: map<string, Session>, callSid: string, speech: string,
                            llm: seq<Turn> -> LlmOutcome, systemPrompt: string, fallback: string, now: int,
                            logSaved: bool)
    requires Current(sessions, callSid, now).exchangeCount < MaxConversationLength
    requires !Unclear(speech)
    requires llm(BuildRequest(systemPrompt, WithMessage(Current(sessions, callSid, now), "user", speech).history, speech)).Failed?
    ensures var (o, after) := SpeechTurn(sessions, callSid, speech, llm, systemPrompt, fallback, now, logSaved);
            o == Answered(Reply(fallback, "critical", SourceText(FallbackSources)))
            && |after[callSid].alerts| == |Current(sessions, callSid, now).alerts| + 1
  {
  }

  /** aurora_livekit.py logs an alert exactly when the reply is flagged
      urgent, which every speech naming an emergency keyword is. */
  lemma KeywordAnsweredExchange(sessions: map<string, Session>, callSid: string, speech: string,
                                llm: seq<Turn> -> LlmOutcome, systemPrompt: string, now: int,
                                logSaved: bool)
    requires Current(sessions, callSid, now).exchangeCount < MaxConversationLength
    requires !Unclear(speech)
    ensures var s := Current(sessions, callSid, now);
            var (o, after) := KeywordSpeechTurn(sessions, callSid, speech, llm, systemPrompt, now, logSaved);
            o.Answered? && callSid in after && after == sessions[callSid := after[callSid]]
            && after[callSid].history == s.history + [Turn("user", speech), Turn("assistant", o.reply.message)]
            && after[callSid].exchangeCount == s.exchangeCount + 1
            && (o.reply.isUrgent ==> after[callSid].alerts == s.alerts + [Alert(now, KeywordAlert(speech, o.reply.message))])
            && (!o.reply.isUrgent ==> after[callSid].alerts == s.alerts)
            && (IsUrgent(speech) ==> |after[callSid].alerts| == |s.alerts| + 1)
  {
    var s := Current(sessions, callSid, now);
    var r := GenerateKeywordResponse(llm, systemPrompt, WithMessage(s, "user", speech).history, speech);
    ExchangeAppendsTwo(s, speech, r.message);
  }

  lemma AnsweredSessionKeepsBounds(s: Session, speech: string, r: Reply, now: int)
    requires Consistent(s) && s.exchangeCount < MaxConversationLength
    ensures Consistent(AnsweredSession(s, speech, r, now))
    ensures AnsweredSession(s, speech, r, now).exchangeCount <= MaxConversationLength
  {
    ExchangeAppendsTwo(s, speech, r.message);
  }

  /** Every path keeps the counters counting user turns, and a call never
      records more than 20 exchanges. */
  lemma TurnKeepsBounds(sessions: map<string, Session>, callSid: string, speech: string,
                        llm: seq<Turn> -> LlmOutcome, systemPrompt: string, fallback: string, now: int,
                        logSaved: bool)
    requires AllConsistent(sessions)
    requires forall id :: id in sessions ==> sessions[id].exchangeCount <= MaxConversationLength
    ensures var after := SpeechTurn(sessions, callSid, speech, llm, systemPrompt, fallback, now, logSaved).1;
            AllConsistent(after) && forall id :: id in after ==> after[id].exchangeCount <= MaxConversationLength
  {
    var s := Current(sessions, callSid, now);
    if s.exchangeCount < MaxConversationLength && !Unclear(speech) {
      var r := GenerateResponse(llm, systemPrompt, WithMessage(s, "user", speech).history, speech, fallback);
      AnsweredSessionKeepsBounds(s, speech, r, now);
      assert SpeechTurn(sessions, callSid, speech, llm, systemPrompt, fallback, now, logSaved).1
          == sessions[callSid := AnsweredSession(s, speech, r, now)];
    }
  }

  // -----------------------------------------------------------------------
  // The handlers
  // -----------------------------------------------------------------------

  /** process_speech of main.py, aurora_fastapi.py and backend/aurora_twilio.py;
      `phone` is the caller's number ("From"), the ledger the server's
      ActiveCallsManager. */
  method ProcessSpeech(manager: ConversationManager, ledger: CallLedger, callSid: string, speech: string,
                       phone: string, llm: seq<Turn> -> LlmOutcome, systemPrompt: string, fallback: string,
                       now: int, stamp: string, firebaseHasCall: bool, saveOk: bool, logSaved: bool)
    returns (o: Outcome<Reply>)
    modifies manager, ledger
    ensures (o, manager.sessions) == SpeechTurn(old(manager.sessions), callSid, speech, llm, systemPrompt, fallback, now, logSaved)
    ensures o.Answered? ==>
              ledger.Snapshot() == AddEntry(old(ledger.Snapshot()), ledger.flavour, phone, speech, o.reply.message,
                                            o.reply.urgency, o.reply.sources, "Voice", firebaseHasCall, now, stamp, saveOk).ledger
    ensures !o.Answered? ==> ledger.Snapshot() == old(ledger.Snapshot())
    ensures old(manager.Valid()) ==> manager.Valid()
    ensures old(ledger.Valid()) ==> ledger.Valid()
  {
    ghost var start := manager.sessions;
    var conv := manager.GetConversation(callSid, now);
    if conv.exchangeCount >= MaxConversationLength {
      var summary, raised := manager.EndConversation(callSid, now, logSaved);
      if raised {
        return LogWriteFailed;
      }
      assert manager.sessions == start - {callSid};
      return LimitReached;
    }
    if Unclear(speech) {
      return UnclearSpeech;
    }
    var reply := Answer(manager, callSid, speech, llm, systemPrompt, fallback, now);
    assert manager.sessions == start[callSid := AnsweredSession(conv, speech, reply, now)];
    var ids := ledger.AddConversationEntry(phone, speech, reply.message, reply.urgency, reply.sources, "Voice",
                                           firebaseHasCall, now, stamp, saveOk);
    return Answered(reply);
  }

  /** The answered path of the servers, once the entry exists: the speech,
      the model's reply and, for a critical or urgent reply, an alert. */
  method Answer(manager: ConversationManager, callSid: string, speech: string,
                llm: seq<Turn> -> LlmOutcome, systemPrompt: string, fallback: string, now: int)
    returns (reply: Reply)
    requires callSid in manager.sessions
    modifies manager
    ensures var s := old(manager.sessions[callSid]);
            reply == GenerateResponse(llm, systemPrompt, WithMessage(s, "user", speech).history, speech, fallback)
            && manager.sessions == old(manager.sessions)[callSid := AnsweredSession(s, speech, reply, now)]
    ensures old(manager.Valid()) ==> manager.Valid()
  {
    ghost var s := manager.sessions[callSid];
    var history := AddSpeech(manager, callSid, speech, now);
    reply := GenerateResponse(llm, systemPrompt, history, speech, fallback);
    RecordReply(manager, callSid, speech, reply, now, s);
  }

  /** The model's reply joins the history, and a critical or urgent one
      raises an alert; `s` is the entry before the speech was added. */
  method RecordReply(manager: ConversationManager, callSid: string, speech: string, reply: Reply, now: int,
                     ghost s: Session)
    requires callSid in manager.sessions && manager.sessions[callSid] == WithMessage(s, "user", speech)
    modifies manager
    ensures manager.sessions == old(manager.sessions)[callSid := AnsweredSession(s, speech, reply, now)]
    ensures old(manager.Valid()) ==> manager.Valid()
  {
    ghost var start := manager.sessions;
    manager.AddMessage(callSid, "assistant", reply.message, now);
    assert manager.sessions == start[callSid := WithMessage(start[callSid], "assistant", reply.message)];
    if reply.urgency == "critical" || reply.urgency == "urgent" {
      manager.AddCriticalAlert(callSid, TaggedAlert(speech, reply.message, reply.urgency, reply.sources), now);
    }
  }

  /** The speech joins the history, which is then read back for the model. */
  method AddSpeech(manager: ConversationManager, callSid: string, speech: string, now: int)
    returns (history: seq<Turn>)
    requires callSid in manager.sessions
    modifies manager
    ensures history == WithMessage(old(manager.sessions[callSid]), "user", speech).history
    ensures manager.sessions == old(manager.sessions)[callSid := WithMessage(old(manager.sessions[callSid]), "user", speech)]
    ensures old(manager.Valid()) ==> manager.Valid()
  {
    ghost var start := manager.sessions;
    manager.AddMessage(callSid, "user", speech, now);
    assert manager.sessions == start[callSid := WithMessage(start[callSid], "user", speech)];
    history := manager.GetHistory(callSid, now);
  }

  /** process_speech of aurora_livekit.py: no ledger, keyword urgency. */
  method ProcessKeywordSpeech(manager: ConversationManager, callSid: string, speech: string,
                              llm: seq<Turn> -> LlmOutcome, systemPrompt: string, now: int, logSaved: bool)
    returns (o: Outcome<KeywordReply>)
    modifies manager
    ensures (o, manager.sessions) == KeywordSpeechTurn(old(manager.sessions), callSid, speech, llm, systemPrompt, now, logSaved)
    ensures old(manager.Valid()) ==> manager.Valid()
  {
    ghost var start := manager.sessions;
    var conv := manager.GetConversation(callSid, now);
    if conv.exchangeCount >= MaxConversationLength {
      var summary, raised := manager.EndConversation(callSid, now, logSaved);
      if raised {
        return LogWriteFailed;
      }
      assert manager.sessions == start - {callSid};
      return LimitReached;
    }
    if Unclear(speech) {
      return UnclearSpeech;
    }
    var reply := KeywordAnswer(manager, callSid, speech, llm, systemPrompt, now);
    assert manager.sessions == start[callSid := AnsweredKeywordSession(conv, speech, reply, now)];
    return Answered(reply);
  }

  /** The answered path of aurora_livekit.py. */
  method KeywordAnswer(manager: ConversationManager, callSid: string, speech: string,
                       llm: seq<Turn> -> LlmOutcome, systemPrompt: string, now: int)
    returns (reply: KeywordReply)
    requires callSid in manager.sessions
    modifies manager
    ensures var s := old(manager.sessions[callSid]);
            reply == GenerateKeywordResponse(llm, systemPrompt, WithMessage(s, "user", speech).history, speech)
            && manager.sessions == old(manager.sessions)[callSid := AnsweredKeywordSession(s, speech, reply, now)]
    ensures old(manager.Valid()) ==> manager.Valid()
  {
    ghost var start := manager.sessions;
    var history := AddSpeech(manager, callSid, speech, now);
    reply := GenerateKeywordResponse(llm, systemPrompt, history, speech);
    manager.AddMessage(callSid, "assistant", reply.message, now);
    assert manager.sessions == start[callSid := WithMessage(WithMessage(start[callSid], "user", speech), "assistant", reply.message)];
    if reply.isUrgent {
      manager.AddCriticalAlert(callSid, KeywordAlert(speech, reply.message), now);
    }
  }
}
