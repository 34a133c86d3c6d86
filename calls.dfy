// ActiveCallsManager (main.py, aurora_fastapi.py, backend/aurora_twilio.py):
// the "active_calls" and "active_conversations" dictionaries that every
// exchange is written to. The JSON file they are loaded from and saved to
// becomes the fields of a class; whether a save succeeds is an input.

module ActiveCalls {
  import opened Optional
  import opened PyText
  import opened TaggedReply

  datatype Status = Active | Ended

  /** One entry of a conversation's "messages" dictionary. */
  datatype Message = Message(role: string, content: string, timestamp: int, sources: string)
  datatype Entry = Entry(id: string, message: Message)

  /** An "active_conversations" value: its call and its messages in insertion order. */
  datatype Conversation = Conversation(callId: string, messages: seq<Entry>)

  /** An "active_calls" value. */
  datatype CallRecord = CallRecord(workerId: string, mobileNo: string, conversationId: string,
                                   urgency: string, status: Status, timestamp: int,
                                   medium: string, lastMessageAt: int, adminId: Option<string>)

  /** main.py's manager consults Firebase and records the medium it is given;
      the copies in aurora_fastapi.py and backend/aurora_twilio.py do neither. */
  datatype Flavour = Dashboard | Telephony

  /** The two dictionaries, with the insertion order of "active_calls". */
  datatype Ledger = Ledger(order: seq<string>, calls: map<string, CallRecord>, convs: map<string, Conversation>)

  /** (call_id, conv_id), or (None, None). */
  datatype Entered = Entered(ledger: Ledger, ids: Option<(string, string)>)

  // -----------------------------------------------------------------------
  // Identifiers
  // -----------------------------------------------------------------------

  /** The phone number without '+', '-' and ' '. */
  function CleanPhone(phone: string): string {
    RemoveChars(phone, {'+', '-', ' '})
  }

  /** _generate_call_id: "call_<clean phone>_<YYYYmmdd_HHMMSS>"; `stamp` is the clock's text. */
  function CallIdFor(phone: string, stamp: string): string {
    "call_" + CleanPhone(phone) + "_" + stamp
  }

  /** _generate_conv_id: "conv_" + everything after the first '_'; None where split raises. */
  function ConvIdFor(callId: string): Option<string> {
    match AfterFirst(callId, '_')
    case None => None
    case Some(rest) => Some("conv_" + rest)
  }

  /** _generate_msg_id: "msg_" + the conversation suffix + "_" + the count on four digits. */
  function MsgIdFor(convId: string, count: nat): Option<string> {
    match AfterFirst(convId, '_')
    case None => None
    case Some(rest) => Some(MsgKey(rest, count))
  }

  function MsgKey(suffix: string, count: nat): string {
    "msg_" + suffix + "_" + Pad4(count)
  }

  /** The worker id of a new call: main.py drops '+', '-' and '_'; the telephony copies '+' and '-'. */
  function WorkerIdFor(flavour: Flavour, phone: string): string {
    match flavour
    case Dashboard => "worker_" + RemoveChars(phone, {'+', '-', '_'})
    case Telephony => "worker_" + RemoveChars(phone, {'+', '-'})
  }

  function MediumFor(flavour: Flavour, medium: string): string {
    match flavour
    case Dashboard => medium
    case Telephony => "Voice"
  }

  /** `sources or ""`: the empty source list and the empty text both become "". */
  function SourcesOrEmpty(sources: Sources): string {
    match sources
    case NoSourceList => ""
    case SourceText(text) => text
  }

  lemma ConvIdOfCallId(phone: string, stamp: string)
    ensures ConvIdFor(CallIdFor(phone, stamp)) == Some("conv_" + CleanPhone(phone) + "_" + stamp)
  {
    var rest := CleanPhone(phone) + "_" + stamp;
    CallIdShape(CleanPhone(phone), stamp);
    AfterFirstOfPrefixed("call", '_', rest);
    ConvIdShape(CleanPhone(phone), stamp);
  }

  lemma CallIdShape(clean: string, stamp: string)
    ensures "call_" + clean + "_" + stamp == "call" + ['_'] + (clean + "_" + stamp)
    ensures '_' !in "call"
  {
  }

  lemma ConvIdShape(clean: string, stamp: string)
    ensures "conv_" + (clean + "_" + stamp) == "conv_" + clean + "_" + stamp
  {
  }

  lemma MsgIdOfConvId(suffix: string, count: nat)
    ensures MsgIdFor("conv_" + suffix, count) == Some(MsgKey(suffix, count))
  {
    assert "conv_" + suffix == "conv" + ['_'] + suffix;
    assert '_' !in "conv";
    AfterFirstOfPrefixed("conv", '_', suffix);
  }

  /** Message ids of one conversation for different counts differ. */
  lemma MsgIdsDiffer(convId: string, m: nat, n: nat)
    requires MsgIdFor(convId, m).Some? && m != n
    ensures MsgIdFor(convId, m) != MsgIdFor(convId, n)
  {
    var rest := AfterFirst(convId, '_').value;
    var p := "msg_" + rest + "_";
    assert MsgIdFor(convId, m) == Some(p + Pad4(m)) && MsgIdFor(convId, n) == Some(p + Pad4(n));
    assert (p + Pad4(m))[|p|..] == Pad4(m);
    assert (p + Pad4(n))[|p|..] == Pad4(n);
    Pad4RoundTrip(m);
    Pad4RoundTrip(n);
  }

  // -----------------------------------------------------------------------
  // Lookup
  // -----------------------------------------------------------------------

  predicate ActiveFor(calls: map<string, CallRecord>, id: string, phone: string) {
    id in calls && calls[id].mobileNo == phone && calls[id].status == Active
  }

  /** The position of the first ACTIVE call for `phone` at or after `k`, in insertion order. */
  function FirstActiveFrom(order: seq<string>, calls: map<string, CallRecord>, phone: string, k: nat): (r: Option<nat>)
    requires k <= |order|
    decreases |order| - k
    ensures r.Some? ==> k <= r.value < |order| && ActiveFor(calls, order[r.value], phone)
    ensures r.Some? ==> forall j :: k <= j < r.value ==> !ActiveFor(calls, order[j], phone)
    ensures r.None? ==> forall j :: k <= j < |order| ==> !ActiveFor(calls, order[j], phone)
  {
    if k == |order| then None
    else if ActiveFor(calls, order[k], phone) then Some(k)
    else FirstActiveFrom(order, calls, phone, k + 1)
  }

  /** The first ACTIVE call for `phone`, in insertion order. */
  function FirstActive(order: seq<string>, calls: map<string, CallRecord>, phone: string): (r: Option<string>)
    ensures r.Some? ==> ActiveFor(calls, r.value, phone)
    ensures r.None? ==> forall j :: 0 <= j < |order| ==> !ActiveFor(calls, order[j], phone)
  {
    match FirstActiveFrom(order, calls, phone, 0)
    case None => None
    case Some(i) => Some(order[i])
  }

  // -----------------------------------------------------------------------
  // The operations on the two dictionaries
  // -----------------------------------------------------------------------

  /** messages[id] = message: replaces in place when the id is present, else appends. */
  function PutEntry(entries: seq<Entry>, id: string, message: Message): (r: seq<Entry>)
    ensures |r| == |entries| || |r| == |entries| + 1
  {
    if entries == [] then [Entry(id, message)]
    else if entries[0].id == id then [Entry(id, message)] + entries[1..]
    else [entries[0]] + PutEntry(entries[1..], id, message)
  }

  lemma {:induction false} PutFreshAppends(entries: seq<Entry>, id: string, message: Message)
    requires forall k :: 0 <= k < |entries| ==> entries[k].id != id
    ensures PutEntry(entries, id, message) == entries + [Entry(id, message)]
  {
    if entries != [] {
      PutFreshAppends(entries[1..], id, message);
      assert [entries[0]] + (entries[1..] + [Entry(id, message)]) == entries + [Entry(id, message)];
    }
  }

  /** The two appended messages, after the call and its conversation are known. */
  function AppendExchange(l: Ledger, callId: string, convId: string, query: string, response: string,
                          urgency: string, sources: Sources, now: int, saveOk: bool, original: Ledger): Entered
    requires callId in l.calls
  {
    if convId !in l.convs then Entered(original, None)
    else
      var conv := l.convs[convId];
      var count := |conv.messages|;
      match (MsgIdFor(convId, count + 1), MsgIdFor(convId, count + 2))
      case (Some(userId), Some(assistantId)) =>
        var messages := PutEntry(PutEntry(conv.messages, userId, Message("user", query, now, "")),
                                 assistantId, Message("assistant", response, now, SourcesOrEmpty(sources)));
        var call := l.calls[callId].(urgency := Upper(urgency), lastMessageAt := now);
        if saveOk then
          Entered(Ledger(l.order, l.calls[callId := call], l.convs[convId := conv.(messages := messages)]),
                  Some((callId, convId)))
        else Entered(original, None)
      case _ => Entered(original, None)
  }

  /** Whether add_conversation_entry continues an existing call: the first
      ACTIVE one for the phone, unless main.py finds it gone from Firebase. */
  function Reused(l: Ledger, flavour: Flavour, phone: string, firebaseHasCall: bool): (r: Option<string>)
    ensures r.Some? ==> ActiveFor(l.calls, r.value, phone)
  {
    var found := FirstActive(l.order, l.calls, phone);
    if found.Some? && (flavour == Telephony || firebaseHasCall) then found else None
  }

  /** The record of a call opened now: ACTIVE, both timestamps now, no admin. */
  function NewRecord(flavour: Flavour, phone: string, convId: string, urgency: string, medium: string, now: int): CallRecord {
    CallRecord(WorkerIdFor(flavour, phone), phone, convId, Upper(urgency), Active, now, MediumFor(flavour, medium), now, None)
  }

  /** Where add_conversation_entry writes: the reused call, or a new call
      with an empty conversation; None where generating the ids raises. */
  function Target(l: Ledger, flavour: Flavour, phone: string, urgency: string, medium: string,
                  firebaseHasCall: bool, now: int, stamp: string): (r: Option<(Ledger, string)>)
    ensures r.Some? ==> r.value.1 in r.value.0.calls
  {
    match Reused(l, flavour, phone, firebaseHasCall)
    case Some(callId) => Some((l, callId))
    case None =>
      var callId := CallIdFor(phone, stamp);
      match ConvIdFor(callId)
      case None => None
      case Some(convId) =>
        Some((Opened(l, callId, NewRecord(flavour, phone, convId, urgency, medium, now)), callId))
  }

  /** A new call and its empty conversation; assigning an existing call id keeps its place. */
  function Opened(l: Ledger, callId: string, record: CallRecord): Ledger {
    Ledger(if callId in l.calls then l.order else l.order + [callId],
           l.calls[callId := record], l.convs[record.conversationId := Conversation(callId, [])])
  }

  /** add_conversation_entry: find or open the call, append the user and the
      assistant message, set the urgency; a failed save keeps the old state. */
  function AddEntry(l: Ledger, flavour: Flavour, phone: string, query: string, response: string,
                    urgency: string, sources: Sources, medium: string, firebaseHasCall: bool,
                    now: int, stamp: string, saveOk: bool): Entered
  {
    match Target(l, flavour, phone, urgency, medium, firebaseHasCall, now, stamp)
    case None => Entered(l, None)
    case Some((started, callId)) =>
      AppendExchange(started, callId, started.calls[callId].conversationId, query, response, urgency, sources, now, saveOk, l)
  }

  /** end_call: an unknown id fails; a known one is marked ENDED and kept,
      and the result is whether that was saved. */
  function EndCallOn(l: Ledger, callId: string, saveOk: bool): (Ledger, bool) {
    if callId !in l.calls || !saveOk then (l, false)
    else (l.(calls := l.calls[callId := l.calls[callId].(status := Ended)]), true)
  }

  function Without(order: seq<string>, id: string): (r: seq<string>)
    ensures forall x :: x in r <==> x in order && x != id
  {
    if order == [] then []
    else if order[0] == id then Without(order[1..], id)
    else [order[0]] + Without(order[1..], id)
  }

  /** The local clean-up of main.py's archive thread: the call and its
      conversation leave both dictionaries, if the save succeeds. */
  function ArchiveOn(l: Ledger, callId: string, convId: string, saveOk: bool): Ledger {
    if !saveOk then l
    else Ledger(if callId in l.calls then Without(l.order, callId) else l.order,
                l.calls - {callId}, l.convs - {convId})
  }

  // -----------------------------------------------------------------------
  // Well-formedness of the dictionaries
  // -----------------------------------------------------------------------

  ghost predicate Distinct(order: seq<string>) {
    forall i, j :: 0 <= i < j < |order| ==> order[i] != order[j]
  }

  /** Message k (from 0) of conversation `convId` has id number k + 1. */
  predicate IdsFit(convId: string, messages: seq<Entry>) {
    forall k :: 0 <= k < |messages| ==> MsgIdFor(convId, k + 1) == Some(messages[k].id)
  }

  /** A call "call_X" owns the conversation "conv_X", which points back to it. */
  predicate Linked(l: Ledger, callId: string)
    requires callId in l.calls
  {
    StartsWith(callId, "call_") && l.calls[callId].conversationId == "conv_" + callId[5..]
    && l.calls[callId].conversationId in l.convs && l.convs[l.calls[callId].conversationId].callId == callId
  }

  /** The state every operation of the manager keeps: insertion order lists each
      call once, calls and conversations are linked, message ids count up from 1. */
  ghost predicate Wellformed(l: Ledger) {
    Distinct(l.order)
    && (forall id :: id in l.calls <==> id in l.order)
    && (forall id :: id in l.calls ==> Linked(l, id))
    && (forall c :: c in l.convs ==> IdsFit(c, l.convs[c].messages))
  }

  /** Each phone number has at most one ACTIVE call. */
  ghost predicate OneActivePerPhone(l: Ledger) {
    forall a, b ::
      (a in l.calls && b in l.calls && l.calls[a].status == Active && l.calls[b].status == Active
       && l.calls[a].mobileNo == l.calls[b].mobileNo) ==> a == b
  }

  // -----------------------------------------------------------------------
  // Properties
  // -----------------------------------------------------------------------

  /** A failed save returns (None, None), and the ledger is as before: a
      save either writes the whole file or leaves it untouched. */
  lemma FailedSaveChangesNothing(l: Ledger, flavour: Flavour, phone: string, query: string, response: string,
                                 urgency: string, sources: Sources, medium: string, firebaseHasCall: bool,
                                 now: int, stamp: string)
    ensures AddEntry(l, flavour, phone, query, response, urgency, sources, medium, firebaseHasCall, now, stamp, false)
         == Entered(l, None)
  {
  }

  /** No message of a fitting conversation carries the id of a later count. */
  lemma IdNotUsed(convId: string, messages: seq<Entry>, m: nat)
    requires IdsFit(convId, messages) && |messages| < m && MsgIdFor(convId, m).Some?
    ensures forall k :: 0 <= k < |messages| ==> messages[k].id != MsgIdFor(convId, m).value
  {
    forall k | 0 <= k < |messages| ensures messages[k].id != MsgIdFor(convId, m).value {
      MsgIdsDiffer(convId, m, k + 1);
    }
  }

  /** The messages of a fitting conversation grow by exactly the user turn and the
      assistant turn, with ids count+1 and count+2, and still fit. */
  lemma AppendTwo(convId: string, messages: seq<Entry>, userMessage: Message, assistantMessage: Message)
    requires IdsFit(convId, messages) && MsgIdFor(convId, |messages| + 1).Some? && MsgIdFor(convId, |messages| + 2).Some?
    ensures PutEntry(PutEntry(messages, MsgIdFor(convId, |messages| + 1).value, userMessage),
                     MsgIdFor(convId, |messages| + 2).value, assistantMessage)
         == messages + [Entry(MsgIdFor(convId, |messages| + 1).value, userMessage),
                        Entry(MsgIdFor(convId, |messages| + 2).value, assistantMessage)]
    ensures IdsFit(convId, messages + [Entry(MsgIdFor(convId, |messages| + 1).value, userMessage),
                                       Entry(MsgIdFor(convId, |messages| + 2).value, assistantMessage)])
  {
    var n := |messages|;
    var u, a := MsgIdFor(convId, n + 1).value, MsgIdFor(convId, n + 2).value;
    AppendOne(convId, messages, userMessage);
    var once := messages + [Entry(u, userMessage)];
    AppendOne(convId, once, assistantMessage);
    TwoAppends(messages, Entry(u, userMessage), Entry(a, assistantMessage));
  }

  /** One message appended to a fitting conversation under the next id. */
  lemma AppendOne(convId: string, messages: seq<Entry>, m: Message)
    requires IdsFit(convId, messages) && MsgIdFor(convId, |messages| + 1).Some?
    ensures var id := MsgIdFor(convId, |messages| + 1).value;
            PutEntry(messages, id, m) == messages + [Entry(id, m)] && IdsFit(convId, messages + [Entry(id, m)])
  {
    var n := |messages|;
    var id := MsgIdFor(convId, n + 1).value;
    IdNotUsed(convId, messages, n + 1);
    PutFreshAppends(messages, id, m);
    IdsFitExtend(convId, messages, Entry(id, m));
  }

  lemma IdsFitExtend(convId: string, messages: seq<Entry>, e: Entry)
    requires IdsFit(convId, messages) && MsgIdFor(convId, |messages| + 1) == Some(e.id)
    ensures IdsFit(convId, messages + [e])
  {
    var once := messages + [e];
    forall k | 0 <= k < |once| ensures MsgIdFor(convId, k + 1) == Some(once[k].id) {
      if k < |messages| {
        assert once[k] == messages[k];
      }
    }
  }

  lemma TwoAppends(messages: seq<Entry>, e1: Entry, e2: Entry)
    ensures messages + [e1] + [e2] == messages + [e1, e2]
  {
  }

  lemma Overwrite<K, V>(m: map<K, V>, k: K, v: V, w: V)
    ensures m[k := v][k := w] == m[k := w]
  {
  }

  lemma PadOneTwo()
    ensures Pad4(1) == "0001" && Pad4(2) == "0002"
  {
    assert Decimal(1) == "1" && Decimal(2) == "2";
    assert Zeros(3) == "000";
  }

  /** AppendExchange on a fitting conversation, when the save succeeds. */
  lemma AppendExchangeSaved(l: Ledger, callId: string, convId: string, query: string, response: string,
                            urgency: string, sources: Sources, now: int, original: Ledger)
    requires callId in l.calls && convId in l.convs && IdsFit(convId, l.convs[convId].messages)
    requires MsgIdFor(convId, |l.convs[convId].messages| + 1).Some?
    ensures var conv := l.convs[convId];
            var n := |conv.messages|;
            AppendExchange(l, callId, convId, query, response, urgency, sources, now, true, original)
            == Entered(Ledger(l.order, l.calls[callId := l.calls[callId].(urgency := Upper(urgency), lastMessageAt := now)],
                              l.convs[convId := conv.(messages := conv.messages + [
                                Entry(MsgIdFor(convId, n + 1).value, Message("user", query, now, "")),
                                Entry(MsgIdFor(convId, n + 2).value, Message("assistant", response, now, SourcesOrEmpty(sources)))])]),
                       Some((callId, convId)))
  {
    var n := |l.convs[convId].messages|;
    MsgIdDefined(convId, n + 1, n + 2);
    AppendTwo(convId, l.convs[convId].messages, Message("user", query, now, ""),
              Message("assistant", response, now, SourcesOrEmpty(sources)));
  }

  lemma MsgIdDefined(convId: string, m: nat, n: nat)
    requires MsgIdFor(convId, m).Some?
    ensures MsgIdFor(convId, n).Some?
  {
  }

  /** A continued call: the stored call and conversation stay where they are,
      the conversation gains the user and the assistant message numbered
      count+1 and count+2, and the call takes the new urgency in upper case;
      nothing else changes. */
  lemma ContinuesCall(l: Ledger, flavour: Flavour, phone: string, query: string, response: string,
                      urgency: string, sources: Sources, medium: string, firebaseHasCall: bool,
                      now: int, stamp: string, callId: string)
    requires Wellformed(l)
    requires Reused(l, flavour, phone, firebaseHasCall) == Some(callId)
    ensures var convId := l.calls[callId].conversationId;
            var messages := l.convs[convId].messages;
            var suffix := callId[5..];
            var e := AddEntry(l, flavour, phone, query, response, urgency, sources, medium, firebaseHasCall, now, stamp, true);
            e.ids == Some((callId, convId))
            && e.ledger.order == l.order
            && e.ledger.calls == l.calls[callId := l.calls[callId].(urgency := Upper(urgency), lastMessageAt := now)]
            && e.ledger.convs == l.convs[convId := Conversation(callId, messages + [
                 Entry(MsgKey(suffix, |messages| + 1), Message("user", query, now, "")),
                 Entry(MsgKey(suffix, |messages| + 2), Message("assistant", response, now, SourcesOrEmpty(sources)))])]
  {
    var convId := l.calls[callId].conversationId;
    assert StartsWith(callId, "call_") && convId == "conv_" + callId[5..] && convId in l.convs
           && l.convs[convId].callId == callId && IdsFit(convId, l.convs[convId].messages) by {
      assert Linked(l, callId);
    }
    var messages := l.convs[convId].messages;
    var suffix := callId[5..];
    MsgIdOfConvId(suffix, |messages| + 1);
    MsgIdOfConvId(suffix, |messages| + 2);
    AddEntryVia(l, flavour, phone, query, response, urgency, sources, medium, firebaseHasCall, now, stamp, true, l, callId);
    AppendExchangeSaved(l, callId, convId, query, response, urgency, sources, now, l);
  }

  lemma TargetOfNewCall(l: Ledger, flavour: Flavour, phone: string, urgency: string, medium: string,
                        firebaseHasCall: bool, now: int, stamp: string)
    requires Reused(l, flavour, phone, firebaseHasCall).None?
    ensures var convId := "conv_" + CleanPhone(phone) + "_" + stamp;
            Target(l, flavour, phone, urgency, medium, firebaseHasCall, now, stamp)
            == Some((Opened(l, CallIdFor(phone, stamp), NewRecord(flavour, phone, convId, urgency, medium, now)), CallIdFor(phone, stamp)))
  {
    ConvIdOfCallId(phone, stamp);
  }

  lemma AddEntryVia(l: Ledger, flavour: Flavour, phone: string, query: string, response: string,
                    urgency: string, sources: Sources, medium: string, firebaseHasCall: bool,
                    now: int, stamp: string, saveOk: bool, started: Ledger, callId: string)
    requires Target(l, flavour, phone, urgency, medium, firebaseHasCall, now, stamp) == Some((started, callId))
    ensures callId in started.calls
    ensures AddEntry(l, flavour, phone, query, response, urgency, sources, medium, firebaseHasCall, now, stamp, saveOk)
         == AppendExchange(started, callId, started.calls[callId].conversationId, query, response, urgency, sources, now, saveOk, l)
  {
  }

  lemma NewCallExpands(l: Ledger, flavour: Flavour, phone: string, query: string, response: string,
                       urgency: string, sources: Sources, medium: string, firebaseHasCall: bool,
                       now: int, stamp: string)
    requires Reused(l, flavour, phone, firebaseHasCall).None?
    ensures var callId := CallIdFor(phone, stamp);
            var suffix := CleanPhone(phone) + "_" + stamp;
            var convId := "conv_" + suffix;
            var record := NewRecord(flavour, phone, convId, urgency, medium, now);
            var started := Opened(l, callId, record);
            AddEntry(l, flavour, phone, query, response, urgency, sources, medium, firebaseHasCall, now, stamp, true)
            == Entered(Ledger(started.order, started.calls[callId := record.(urgency := Upper(urgency), lastMessageAt := now)],
                              started.convs[convId := Conversation(callId, [] + [
                                Entry(MsgKey(suffix, 1), Message("user", query, now, "")),
                                Entry(MsgKey(suffix, 2), Message("assistant", response, now, SourcesOrEmpty(sources)))])]),
                       Some((callId, convId)))
  {
    var callId := CallIdFor(phone, stamp);
    var suffix := CleanPhone(phone) + "_" + stamp;
    var convId := "conv_" + suffix;
    assert convId == "conv_" + CleanPhone(phone) + "_" + stamp;
    var record := NewRecord(flavour, phone, convId, urgency, medium, now);
    var started := Opened(l, callId, record);
    TargetOfNewCall(l, flavour, phone, urgency, medium, firebaseHasCall, now, stamp);
    AddEntryVia(l, flavour, phone, query, response, urgency, sources, medium, firebaseHasCall, now, stamp, true, started, callId);
    assert started.calls[callId] == record && record.conversationId == convId;
    assert started.convs[convId].messages == [];
    MsgIdOfConvId(suffix, 1);
    MsgIdOfConvId(suffix, 2);
    AppendExchangeSaved(started, callId, convId, query, response, urgency, sources, now, l);
  }

  /** A new call "call_<clean phone>_<stamp>" with conversation "conv_<clean phone>_<stamp>":
      an ACTIVE record for the phone, with the upper-cased urgency, and a
      conversation holding exactly the two messages numbered 1 and 2. */
  lemma OpensCall(l: Ledger, flavour: Flavour, phone: string, query: string, response: string,
                  urgency: string, sources: Sources, medium: string, firebaseHasCall: bool,
                  now: int, stamp: string)
    requires Reused(l, flavour, phone, firebaseHasCall).None?
    ensures var callId := CallIdFor(phone, stamp);
            var suffix := CleanPhone(phone) + "_" + stamp;
            var convId := "conv_" + suffix;
            var e := AddEntry(l, flavour, phone, query, response, urgency, sources, medium, firebaseHasCall, now, stamp, true);
            e.ids == Some((callId, convId))
            && e.ledger.order == (if callId in l.calls then l.order else l.order + [callId])
            && e.ledger.calls == l.calls[callId := NewRecord(flavour, phone, convId, urgency, medium, now)]
            && e.ledger.convs == l.convs[convId := Conversation(callId, [
                 Entry(MsgKey(suffix, 1), Message("user", query, now, "")),
                 Entry(MsgKey(suffix, 2), Message("assistant", response, now, SourcesOrEmpty(sources)))])]
  {
    NewCallExpands(l, flavour, phone, query, response, urgency, sources, medium, firebaseHasCall, now, stamp);
    var callId := CallIdFor(phone, stamp);
    var suffix := CleanPhone(phone) + "_" + stamp;
    var convId := "conv_" + suffix;
    var record := NewRecord(flavour, phone, convId, urgency, medium, now);
    assert record.(urgency := Upper(urgency), lastMessageAt := now) == record;
    var pair := [Entry(MsgKey(suffix, 1), Message("user", query, now, "")),
                 Entry(MsgKey(suffix, 2), Message("assistant", response, now, SourcesOrEmpty(sources)))];
    assert [] + pair == pair;
    Overwrite(l.calls, callId, record, record);
    Overwrite(l.convs, convId, Conversation(callId, []), Conversation(callId, pair));
  }

  /** The first two message ids of a conversation end in "_0001" and "_0002". */
  lemma FirstMessageKeys(suffix: string)
    ensures MsgKey(suffix, 1) == "msg_" + suffix + "_0001"
    ensures MsgKey(suffix, 2) == "msg_" + suffix + "_0002"
  {
    PadOneTwo();
  }

  // -----------------------------------------------------------------------
  // Invariants kept by the operations
  // -----------------------------------------------------------------------

  lemma SameSuffixSameCall(a: string, b: string)
    requires StartsWith(a, "call_") && StartsWith(b, "call_") && a[5..] == b[5..]
    ensures a == b
  {
    assert a == a[..5] + a[5..];
    assert b == b[..5] + b[5..];
  }

  /** Changing a call's record but not its conversation id, and replacing that
      conversation's messages with fitting ones, keeps the ledger well formed. */
  lemma UpdateKeepsWellformed(l: Ledger, callId: string, record: CallRecord, messages: seq<Entry>)
    requires Wellformed(l) && callId in l.calls
    requires record.conversationId == l.calls[callId].conversationId
    requires IdsFit(record.conversationId, messages)
    ensures Wellformed(Ledger(l.order, l.calls[callId := record],
                              l.convs[record.conversationId := Conversation(callId, messages)]))
  {
    var convId := record.conversationId;
    var l' := Ledger(l.order, l.calls[callId := record], l.convs[convId := Conversation(callId, messages)]);
    assert Linked(l, callId);
    forall id | id in l'.calls ensures Linked(l', id) {
      assert Linked(l, id);
    }
  }

  /** Opening call "call_X" with conversation "conv_X" keeps the ledger well
      formed, whether or not "call_X" was already there. */
  lemma OpenKeepsWellformed(l: Ledger, l': Ledger, callId: string, suffix: string, record: CallRecord, messages: seq<Entry>)
    requires Wellformed(l)
    requires callId == "call_" + suffix && record.conversationId == "conv_" + suffix
    requires IdsFit("conv_" + suffix, messages)
    requires l'.order == (if callId in l.calls then l.order else l.order + [callId])
    requires l'.calls == l.calls[callId := record]
    requires l'.convs == l.convs["conv_" + suffix := Conversation(callId, messages)]
    ensures Wellformed(l')
  {
    var convId := "conv_" + suffix;
    assert StartsWith(callId, "call_") && callId[5..] == suffix;
    forall id | id in l'.calls ensures Linked(l', id) {
      if id != callId {
        assert Linked(l, id);
        var other := l.calls[id].conversationId;
        if other == convId {
          assert ("conv_" + id[5..])[5..] == id[5..];
          assert ("conv_" + suffix)[5..] == suffix;
          SameSuffixSameCall(id, callId);
        }
      }
    }
    forall id ensures id in l'.calls <==> id in l'.order {
    }
  }

  lemma ContinuedKeepsWellformed(l: Ledger, flavour: Flavour, phone: string, query: string, response: string,
                                 urgency: string, sources: Sources, medium: string, firebaseHasCall: bool,
                                 now: int, stamp: string, callId: string)
    requires Wellformed(l)
    requires Reused(l, flavour, phone, firebaseHasCall) == Some(callId)
    ensures Wellformed(AddEntry(l, flavour, phone, query, response, urgency, sources, medium, firebaseHasCall, now, stamp, true).ledger)
  {
    ContinuesCall(l, flavour, phone, query, response, urgency, sources, medium, firebaseHasCall, now, stamp, callId);
    assert Linked(l, callId);
    var convId := l.calls[callId].conversationId;
    var messages := l.convs[convId].messages;
    var suffix := callId[5..];
    var user := Message("user", query, now, "");
    var assistant := Message("assistant", response, now, SourcesOrEmpty(sources));
    MsgIdOfConvId(suffix, |messages| + 1);
    MsgIdOfConvId(suffix, |messages| + 2);
    AppendTwo(convId, messages, user, assistant);
    UpdateKeepsWellformed(l, callId, l.calls[callId].(urgency := Upper(urgency), lastMessageAt := now),
                          messages + [Entry(MsgKey(suffix, |messages| + 1), user),
                                      Entry(MsgKey(suffix, |messages| + 2), assistant)]);
  }

  lemma OpenedKeepsWellformed(l: Ledger, flavour: Flavour, phone: string, query: string, response: string,
                              urgency: string, sources: Sources, medium: string, firebaseHasCall: bool,
                              now: int, stamp: string)
    requires Wellformed(l)
    requires Reused(l, flavour, phone, firebaseHasCall).None?
    ensures Wellformed(AddEntry(l, flavour, phone, query, response, urgency, sources, medium, firebaseHasCall, now, stamp, true).ledger)
  {
    OpensCall(l, flavour, phone, query, response, urgency, sources, medium, firebaseHasCall, now, stamp);
    var suffix := CleanPhone(phone) + "_" + stamp;
    var callId := CallIdFor(phone, stamp);
    var user := Message("user", query, now, "");
    var assistant := Message("assistant", response, now, SourcesOrEmpty(sources));
    var pair := [Entry(MsgKey(suffix, 1), user), Entry(MsgKey(suffix, 2), assistant)];
    PairFits(suffix, user, assistant);
    CallIdSuffix(phone, stamp);
    var e := AddEntry(l, flavour, phone, query, response, urgency, sources, medium, firebaseHasCall, now, stamp, true);
    OpenKeepsWellformed(l, e.ledger, callId, suffix, NewRecord(flavour, phone, "conv_" + suffix, urgency, medium, now), pair);
  }

  lemma CallIdSuffix(phone: string, stamp: string)
    ensures CallIdFor(phone, stamp) == "call_" + (CleanPhone(phone) + "_" + stamp)
  {
  }

  lemma PairFits(suffix: string, user: Message, assistant: Message)
    ensures IdsFit("conv_" + suffix, [Entry(MsgKey(suffix, 1), user), Entry(MsgKey(suffix, 2), assistant)])
  {
    MsgIdOfConvId(suffix, 1);
    MsgIdOfConvId(suffix, 2);
  }

  /** add_conversation_entry keeps the ledger well formed. */
  lemma AddEntryKeepsWellformed(l: Ledger, flavour: Flavour, phone: string, query: string, response: string,
                                urgency: string, sources: Sources, medium: string, firebaseHasCall: bool,
                                now: int, stamp: string, saveOk: bool)
    requires Wellformed(l)
    ensures Wellformed(AddEntry(l, flavour, phone, query, response, urgency, sources, medium, firebaseHasCall, now, stamp, saveOk).ledger)
  {
    if !saveOk {
      FailedSaveChangesNothing(l, flavour, phone, query, response, urgency, sources, medium, firebaseHasCall, now, stamp);
    } else if Reused(l, flavour, phone, firebaseHasCall).Some? {
      ContinuedKeepsWellformed(l, flavour, phone, query, response, urgency, sources, medium, firebaseHasCall, now, stamp,
                               Reused(l, flavour, phone, firebaseHasCall).value);
    } else {
      OpenedKeepsWellformed(l, flavour, phone, query, response, urgency, sources, medium, firebaseHasCall, now, stamp);
    }
  }

  /** With the keys listed in `order`, no first ACTIVE call means no ACTIVE call at all. */
  lemma NoneActive(l: Ledger, phone: string)
    requires Wellformed(l) && FirstActive(l.order, l.calls, phone).None?
    ensures forall id :: id in l.calls ==> !ActiveFor(l.calls, id, phone)
  {
    forall id | id in l.calls ensures !ActiveFor(l.calls, id, phone) {
      assert id in l.order;
      var j :| 0 <= j < |l.order| && l.order[j] == id;
    }
  }

  lemma SameStatusKeepsOneActive(l: Ledger, l': Ledger, callId: string, record: CallRecord)
    requires OneActivePerPhone(l) && callId in l.calls
    requires record.status == l.calls[callId].status && record.mobileNo == l.calls[callId].mobileNo
    requires l'.calls == l.calls[callId := record]
    ensures OneActivePerPhone(l')
  {
  }

  lemma FreshActiveKeepsOneActive(l: Ledger, l': Ledger, callId: string, record: CallRecord)
    requires OneActivePerPhone(l)
    requires forall id :: id in l.calls ==> !ActiveFor(l.calls, id, record.mobileNo)
    requires l'.calls == l.calls[callId := record]
    ensures OneActivePerPhone(l')
  {
    forall a, b | a in l'.calls && b in l'.calls && l'.calls[a].status == Active && l'.calls[b].status == Active
                  && l'.calls[a].mobileNo == l'.calls[b].mobileNo
      ensures a == b
    {
      if a != callId && b != callId {
        assert l'.calls[a] == l.calls[a] && l'.calls[b] == l.calls[b];
      }
    }
  }

  lemma ContinuedKeepsOneActive(l: Ledger, flavour: Flavour, phone: string, query: string, response: string,
                                urgency: string, sources: Sources, medium: string, firebaseHasCall: bool,
                                now: int, stamp: string, callId: string)
    requires Wellformed(l) && OneActivePerPhone(l)
    requires Reused(l, flavour, phone, firebaseHasCall) == Some(callId)
    ensures OneActivePerPhone(AddEntry(l, flavour, phone, query, response, urgency, sources, medium, firebaseHasCall, now, stamp, true).ledger)
  {
    var e := AddEntry(l, flavour, phone, query, response, urgency, sources, medium, firebaseHasCall, now, stamp, true);
    ContinuesCall(l, flavour, phone, query, response, urgency, sources, medium, firebaseHasCall, now, stamp, callId);
    SameStatusKeepsOneActive(l, e.ledger, callId, l.calls[callId].(urgency := Upper(urgency), lastMessageAt := now));
  }

  lemma OpenedKeepsOneActive(l: Ledger, flavour: Flavour, phone: string, query: string, response: string,
                             urgency: string, sources: Sources, medium: string, firebaseHasCall: bool,
                             now: int, stamp: string)
    requires Wellformed(l) && OneActivePerPhone(l)
    requires FirstActive(l.order, l.calls, phone).None?
    ensures OneActivePerPhone(AddEntry(l, flavour, phone, query, response, urgency, sources, medium, firebaseHasCall, now, stamp, true).ledger)
  {
    var e := AddEntry(l, flavour, phone, query, response, urgency, sources, medium, firebaseHasCall, now, stamp, true);
    OpensCall(l, flavour, phone, query, response, urgency, sources, medium, firebaseHasCall, now, stamp);
    NoneActive(l, phone);
    var convId := "conv_" + (CleanPhone(phone) + "_" + stamp);
    FreshActiveKeepsOneActive(l, e.ledger, CallIdFor(phone, stamp), NewRecord(flavour, phone, convId, urgency, medium, now));
  }

  /** The telephony managers always continue the ACTIVE call of a phone, so
      a phone never has two ACTIVE calls. */
  lemma TelephonyKeepsOneActivePerPhone(l: Ledger, phone: string, query: string, response: string,
                                        urgency: string, sources: Sources, medium: string, firebaseHasCall: bool,
                                        now: int, stamp: string, saveOk: bool)
    requires Wellformed(l) && OneActivePerPhone(l)
    ensures OneActivePerPhone(AddEntry(l, Telephony, phone, query, response, urgency, sources, medium, firebaseHasCall, now, stamp, saveOk).ledger)
  {
    if !saveOk {
      FailedSaveChangesNothing(l, Telephony, phone, query, response, urgency, sources, medium, firebaseHasCall, now, stamp);
    } else if Reused(l, Telephony, phone, firebaseHasCall).Some? {
      ContinuedKeepsOneActive(l, Telephony, phone, query, response, urgency, sources, medium, firebaseHasCall, now, stamp,
                              Reused(l, Telephony, phone, firebaseHasCall).value);
    } else {
      OpenedKeepsOneActive(l, Telephony, phone, query, response, urgency, sources, medium, firebaseHasCall, now, stamp);
    }
  }

  /** main.py opens a second ACTIVE call for a phone whose ACTIVE call Firebase
      no longer holds, and leaves the first one ACTIVE beside it. */
  lemma DashboardMayOpenSecondActiveCall(l: Ledger, phone: string, query: string, response: string,
                                         urgency: string, sources: Sources, medium: string,
                                         now: int, stamp: string, found: string)
    requires FirstActive(l.order, l.calls, phone) == Some(found) && found != CallIdFor(phone, stamp)
    ensures var e := AddEntry(l, Dashboard, phone, query, response, urgency, sources, medium, false, now, stamp, true);
            ActiveFor(e.ledger.calls, found, phone) && ActiveFor(e.ledger.calls, CallIdFor(phone, stamp), phone)
            && !OneActivePerPhone(e.ledger)
  {
    OpensCall(l, Dashboard, phone, query, response, urgency, sources, medium, false, now, stamp);
  }

  // -----------------------------------------------------------------------
  // end_call and the archive clean-up
  // -----------------------------------------------------------------------

  /** end_call: an unknown id or a failed save changes nothing and answers
      False; otherwise only the call's status changes, to ENDED, and the
      phone's next exchange no longer continues it. */
  lemma EndCallEffect(l: Ledger, callId: string, saveOk: bool, flavour: Flavour, firebaseHasCall: bool)
    ensures var (l', ok) := EndCallOn(l, callId, saveOk);
            (ok <==> callId in l.calls && saveOk)
            && (!ok ==> l' == l)
            && (ok ==> l'.order == l.order && l'.convs == l.convs && l'.calls.Keys == l.calls.Keys
                       && l'.calls[callId] == l.calls[callId].(status := Ended)
                       && (forall id :: id in l.calls && id != callId ==> l'.calls[id] == l.calls[id])
                       && Reused(l', flavour, l.calls[callId].mobileNo, firebaseHasCall) != Some(callId))
  {
  }

  lemma EndCallKeepsInvariants(l: Ledger, callId: string, saveOk: bool)
    requires Wellformed(l)
    ensures Wellformed(EndCallOn(l, callId, saveOk).0)
    ensures OneActivePerPhone(l) ==> OneActivePerPhone(EndCallOn(l, callId, saveOk).0)
  {
    var l' := EndCallOn(l, callId, saveOk).0;
    if callId in l.calls && saveOk {
      forall id | id in l'.calls ensures Linked(l', id) {
        assert Linked(l, id);
      }
    }
  }

  lemma {:induction false} WithoutKeepsDistinct(order: seq<string>, id: string)
    requires Distinct(order)
    ensures Distinct(Without(order, id))
  {
    if order != [] {
      WithoutKeepsDistinct(order[1..], id);
      if order[0] != id {
        assert order[0] !in order[1..];
        assert order[0] !in Without(order[1..], id);
      }
    }
  }

  /** The clean-up removes the call and its conversation, and what is left
      is still well formed. */
  lemma ArchiveKeepsWellformed(l: Ledger, callId: string, saveOk: bool)
    requires Wellformed(l) && callId in l.calls
    ensures var l' := ArchiveOn(l, callId, l.calls[callId].conversationId, saveOk);
            Wellformed(l')
            && (saveOk ==> callId !in l'.calls && l.calls[callId].conversationId !in l'.convs
                           && l'.calls == l.calls - {callId})
  {
    var convId := l.calls[callId].conversationId;
    var l' := ArchiveOn(l, callId, convId, saveOk);
    if saveOk {
      WithoutKeepsDistinct(l.order, callId);
      assert Linked(l, callId);
      forall id | id in l'.calls ensures Linked(l', id) {
        assert Linked(l, id);
      }
    }
  }

  // -----------------------------------------------------------------------
  // The manager object
  // -----------------------------------------------------------------------

  /** ActiveCallsManager: the dictionaries loaded from and saved to its JSON
      file, held as fields; each method reads them, works on a copy and
      writes the copy back only when the save succeeds. */
  class CallLedger {
    const flavour: Flavour
    var order: seq<string>
    var calls: map<string, CallRecord>
    var convs: map<string, Conversation>

    function Snapshot(): Ledger
      reads this
    {
      Ledger(order, calls, convs)
    }

    ghost predicate Valid()
      reads this
    {
      Wellformed(Snapshot())
    }

    /** A fresh data file holds two empty dictionaries. */
    constructor (flavour: Flavour)
      ensures this.flavour == flavour && Snapshot() == Ledger([], map[], map[])
      ensures Valid()
    {
      this.flavour := flavour;
      order, calls, convs := [], map[], map[];
    }

    /** find_active_call_by_phone: the first ACTIVE call of the phone, in insertion order. */
    method FindActiveCallByPhone(phone: string) returns (r: Option<string>)
      ensures r == FirstActive(order, calls, phone)
      ensures r.Some? ==> ActiveFor(calls, r.value, phone)
    {
      var i := 0;
      while i < |order|
        invariant 0 <= i <= |order|
        invariant forall j :: 0 <= j < i ==> !ActiveFor(calls, order[j], phone)
      {
        if ActiveFor(calls, order[i], phone) {
          return Some(order[i]);
        }
        i := i + 1;
      }
      return None;
    }

    /** add_conversation_entry; the clock is `now` (and its text `stamp`),
        the Firebase existence check `firebaseHasCall`, the save `saveOk`. */
    method AddConversationEntry(phone: string, query: string, response: string, urgency: string,
                                sources: Sources, medium: string, firebaseHasCall: bool,
                                now: int, stamp: string, saveOk: bool)
      returns (ids: Option<(string, string)>)
      modifies this
      ensures var e := AddEntry(old(Snapshot()), flavour, phone, query, response, urgency, sources,
                                medium, firebaseHasCall, now, stamp, saveOk);
              Snapshot() == e.ledger && ids == e.ids
      ensures old(Valid()) ==> Valid()
    {
      ghost var l := Snapshot();
      var target := StartCall(phone, urgency, medium, firebaseHasCall, now, stamp);
      if target.None? {
        return None;
      }
      var started, callId := target.value.0, target.value.1;
      AddEntryVia(l, flavour, phone, query, response, urgency, sources, medium, firebaseHasCall, now, stamp, saveOk, started, callId);
      var e := AppendMessages(started, callId, query, response, urgency, sources, now, saveOk);
      order, calls, convs := e.ledger.order, e.ledger.calls, e.ledger.convs;
      ids := e.ids;
      if Wellformed(l) {
        AddEntryKeepsWellformed(l, flavour, phone, query, response, urgency, sources, medium, firebaseHasCall, now, stamp, saveOk);
      }
    }

    /** The first half of add_conversation_entry, on a copy of the dictionaries:
        the ACTIVE call of the phone, unless Firebase says it is gone, or a new
        call with an empty conversation. */
    method StartCall(phone: string, urgency: string, medium: string, firebaseHasCall: bool, now: int, stamp: string)
      returns (target: Option<(Ledger, string)>)
      ensures target == Target(Snapshot(), flavour, phone, urgency, medium, firebaseHasCall, now, stamp)
    {
      var existing := FindActiveCallByPhone(phone);
      if existing.Some? && flavour == Dashboard && !firebaseHasCall {
        existing := None;
      }
      if existing.Some? {
        return Some((Snapshot(), existing.value));
      }
      var callId := CallIdFor(phone, stamp);
      var generated := ConvIdFor(callId);
      if generated.None? {
        return None;
      }
      var convId := generated.value;
      var newOrder := order;
      if callId !in calls {
        newOrder := newOrder + [callId];
      }
      var newCalls := calls[callId := NewRecord(flavour, phone, convId, urgency, medium, now)];
      var newConvs := convs[convId := Conversation(callId, [])];
      return Some((Ledger(newOrder, newCalls, newConvs), callId));
    }

    /** The second half: the user and the assistant message, the urgency and
        the time of the last message; a failed save leaves the fields as they were. */
    method AppendMessages(started: Ledger, callId: string, query: string, response: string, urgency: string,
                          sources: Sources, now: int, saveOk: bool)
      returns (e: Entered)
      requires callId in started.calls
      ensures e == AppendExchange(started, callId, started.calls[callId].conversationId, query, response,
                                  urgency, sources, now, saveOk, Snapshot())
    {
      var convId := started.calls[callId].conversationId;
      if convId !in started.convs {
        return Entered(Snapshot(), None);
      }
      var conv := started.convs[convId];
      var userId := MsgIdFor(convId, |conv.messages| + 1);
      var assistantId := MsgIdFor(convId, |conv.messages| + 2);
      if userId.None? || assistantId.None? {
        return Entered(Snapshot(), None);
      }
      var messages := PutEntry(conv.messages, userId.value, Message("user", query, now, ""));
      messages := PutEntry(messages, assistantId.value, Message("assistant", response, now, SourcesOrEmpty(sources)));
      var newConvs := started.convs[convId := conv.(messages := messages)];
      var newCalls := started.calls[callId := started.calls[callId].(urgency := Upper(urgency), lastMessageAt := now)];
      if !saveOk {
        return Entered(Snapshot(), None);
      }
      return Entered(Ledger(started.order, newCalls, newConvs), Some((callId, convId)));
    }

    /** end_call: marks a known call ENDED; the answer is whether that was saved. */
    method EndCall(callId: string, saveOk: bool) returns (ok: bool)
      modifies this
      ensures (Snapshot(), ok) == EndCallOn(old(Snapshot()), callId, saveOk)
      ensures old(Valid()) ==> Valid()
    {
      if Valid() {
        EndCallKeepsInvariants(Snapshot(), callId, saveOk);
      }
      if callId in calls {
        var newCalls := calls[callId := calls[callId].(status := Ended)];
        if saveOk {
          calls := newCalls;
          return true;
        }
      }
      return false;
    }

    /** Step 4 of the archive thread end_call starts: the call and its
        conversation leave the local dictionaries. */
    method ArchiveCleanup(callId: string, convId: string, saveOk: bool)
      modifies this
      ensures Snapshot() == ArchiveOn(old(Snapshot()), callId, convId, saveOk)
      ensures old(Valid()) && callId in old(calls) && convId == old(calls[callId].conversationId) ==> Valid()
    {
      if Valid() && callId in calls && convId == calls[callId].conversationId {
        ArchiveKeepsWellformed(Snapshot(), callId, saveOk);
      }
      if saveOk {
        if callId in calls {
          order := Without(order, callId);
        }
        calls := calls - {callId};
        convs := convs - {convId};
      }
    }
  }
}
