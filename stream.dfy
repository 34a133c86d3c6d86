// The conversation stream client (testing/test_conversation_stream.py): the
// loop that reads a server-sent-event stream line by line, remembers the
// pending event type and hands each JSON payload to the handler of that
// type, stopping after an 'ended' or 'error' event.

module EventStream {
  import opened Optional
  import opened PyText

  /** base_url.rstrip('/'). */
  function BaseUrl(url: string): (r: string)
    ensures r == [] || r[|r| - 1] != '/'
  {
    RStripChar(url, '/')
  }

  /** The URL stream_conversation connects to. */
  function StreamUrl(baseUrl: string, conversationId: string): string {
    baseUrl + "/api/conversation/" + conversationId + "/stream"
  }

  /** The event types that have a handler. */
  const HandledTypes: set<string> := {"initial", "new_messages", "heartbeat", "ended", "error"}

  /** One handler call: the pending type and the JSON text it received. */
  datatype Event = Event(kind: string, data: string)

  /** The loop's variables: the pending event type, the handler calls so
      far, and whether the loop has broken out. */
  datatype Reader = Reader(pending: Option<string>, handled: seq<Event>, closed: bool)

  const Start: Reader := Reader(None, [], false)

  /** line.split(':', 1)[1].strip(). */
  function Payload(line: string): string {
    match AfterFirst(line, ':')
    case Some(rest) => Strip(rest)
    case None => ""
  }

  /** Whether a handler call ends the loop: 'ended' and 'error' break out
      of it, and any handler that raises (`handles` says whether the handler
      of a type returns normally on a payload; `_handle_initial` and
      `_handle_new_messages` index each message, and every handler calls
      `data.get`) leaves it through the outer `except Exception`. */
  predicate Closes(kind: string, data: string, handles: (string, string) -> bool) {
    kind == "ended" || kind == "error" || !handles(kind, data)
  }

  /** A "data:" line with payload `data`; `isJson` says whether json.loads
      accepts a text. */
  function DataStep(st: Reader, data: string, isJson: string -> bool, handles: (string, string) -> bool): Reader {
    if !isJson(data) then st
    else if st.pending.Some? && st.pending.value in HandledTypes then
      var handled := st.handled + [Event(st.pending.value, data)];
      if Closes(st.pending.value, data, handles) then Reader(st.pending, handled, true)
      else Reader(None, handled, false)
    else st.(pending := None)
  }

  /** One line of the stream. */
  function Step(st: Reader, line: string, isJson: string -> bool, handles: (string, string) -> bool): Reader {
    if line == [] then st
    else if StartsWith(line, "event:") then st.(pending := Some(Payload(line)))
    else if StartsWith(line, "data:") then DataStep(st, Payload(line), isJson, handles)
    else st
  }

  /** The loop from state `st` over the remaining lines, until it breaks. */
  function Run(lines: seq<string>, isJson: string -> bool, handles: (string, string) -> bool, st: Reader): Reader
    decreases |lines|
  {
    if lines == [] || st.closed then st else Run(lines[1..], isJson, handles, Step(st, lines[0], isJson, handles))
  }

  // -----------------------------------------------------------------------
  // Properties of the reader
  // -----------------------------------------------------------------------

  lemma PayloadOfPrefixed(line: string, prefix: string)
    requires prefix == "event" || prefix == "data"
    requires StartsWith(line, prefix + ":")
    ensures Payload(line) == Strip(line[|prefix| + 1..])
  {
    assert line == prefix + [':'] + line[|prefix| + 1..];
    AfterFirstOfPrefixed(prefix, ':', line[|prefix| + 1..]);
  }

  /** A "data:" line goes to DataStep with the trimmed payload. */
  lemma DataLine(st: Reader, rest: string, isJson: string -> bool, handles: (string, string) -> bool)
    ensures Step(st, "data:" + rest, isJson, handles) == DataStep(st, Strip(rest), isJson, handles)
  {
    var line := "data:" + rest;
    DataPrefix(rest);
    PayloadOfPrefixed(line, "data");
    assert Payload(line) == Strip(rest);
  }

  lemma DataPrefix(rest: string)
    ensures var line := "data:" + rest;
            line != [] && StartsWith(line, "data:") && !StartsWith(line, "event:") && line[5..] == rest
  {
    var line := "data:" + rest;
    assert line[..5] == "data:";
    assert line[0] != "event:"[0];
  }

  /** An empty line changes nothing. */
  lemma EmptyLineIgnored(st: Reader, isJson: string -> bool, handles: (string, string) -> bool)
    ensures Step(st, "", isJson, handles) == st
  {
  }

  /** An "event:" line makes the trimmed text after the colon the pending
      type and calls no handler. */
  lemma EventLineSetsPending(st: Reader, rest: string, isJson: string -> bool, handles: (string, string) -> bool)
    ensures Step(st, "event:" + rest, isJson, handles) == st.(pending := Some(Strip(rest)))
  {
    var line := "event:" + rest;
    assert StartsWith(line, "event:");
    PayloadOfPrefixed(line, "event");
    assert line[6..] == rest;
  }

  /** A "data:" line whose payload is not JSON is skipped: the pending type
      survives it. */
  lemma BadDataKeepsPending(st: Reader, rest: string, isJson: string -> bool, handles: (string, string) -> bool)
    requires !isJson(Strip(rest))
    ensures Step(st, "data:" + rest, isJson, handles) == st
  {
    DataLine(st, rest, isJson, handles);
  }

  /** A "data:" line with a JSON payload (DataLine: the trimmed text after
      the colon) calls the handler of the pending type, none for an unknown
      or missing type; the loop ends exactly when that call was for 'ended'
      or 'error' or raised, and otherwise forgets the type. */
  lemma GoodDataDispatches(st: Reader, data: string, isJson: string -> bool, handles: (string, string) -> bool)
    requires isJson(data) && !st.closed
    ensures var r := DataStep(st, data, isJson, handles);
            var known := st.pending.Some? && st.pending.value in HandledTypes;
            (known ==> r.handled == st.handled + [Event(st.pending.value, data)])
            && (!known ==> r.handled == st.handled)
            && (r.closed <==> known && (st.pending.value == "ended" || st.pending.value == "error"
                                        || !handles(st.pending.value, data)))
            && (r.closed ==> r.pending == st.pending)
            && (!r.closed ==> r.pending == None)
  {
  }

  /** What the loop's variables always satisfy: only the five known types
      are handled; every call but the last returned normally and did not
      end the loop; and the loop has broken out exactly when the last call
      ended it. */
  predicate WellFormed(st: Reader, handles: (string, string) -> bool) {
    (forall e :: e in st.handled ==> e.kind in HandledTypes)
    && (forall k :: 0 <= k < |st.handled| - 1 ==> !Closes(st.handled[k].kind, st.handled[k].data, handles))
    && (st.handled == [] ==> !st.closed)
    && (st.handled != [] ==>
          (st.closed <==> Closes(st.handled[|st.handled| - 1].kind, st.handled[|st.handled| - 1].data, handles)))
  }

  /** Reading any lines keeps WellFormed: while the loop runs, no handler has
      raised and no 'ended' or 'error' event has been handled, and once it
      has broken out the last call is the one that ended it. */
  lemma {:induction false} HandledAreKnown(lines: seq<string>, isJson: string -> bool, handles: (string, string) -> bool,
                                           st: Reader)
    requires WellFormed(st, handles)
    ensures WellFormed(Run(lines, isJson, handles, st), handles)
    ensures var r := Run(lines, isJson, handles, st);
            !r.closed ==> forall e :: e in r.handled ==> e.kind != "ended" && e.kind != "error" && handles(e.kind, e.data)
    decreases |lines|
  {
    if lines != [] && !st.closed {
      StepKeepsKnown(st, lines[0], isJson, handles);
      HandledAreKnown(lines[1..], isJson, handles, Step(st, lines[0], isJson, handles));
    } else {
      OpenCallsReturned(st, handles);
    }
  }

  lemma OpenCallsReturned(st: Reader, handles: (string, string) -> bool)
    requires WellFormed(st, handles)
    ensures !st.closed ==> forall e :: e in st.handled ==> e.kind != "ended" && e.kind != "error" && handles(e.kind, e.data)
  {
    if !st.closed {
      forall e | e in st.handled
        ensures !Closes(e.kind, e.data, handles)
      {
        var k :| 0 <= k < |st.handled| && st.handled[k] == e;
      }
    }
  }

  lemma StartWellFormed(handles: (string, string) -> bool)
    ensures WellFormed(Start, handles)
  {
  }

  /** What HandledAreKnown keeps, for a single line. */
  lemma StepKeepsKnown(st: Reader, line: string, isJson: string -> bool, handles: (string, string) -> bool)
    requires !st.closed && WellFormed(st, handles)
    ensures WellFormed(Step(st, line, isJson, handles), handles)
  {
    if line != [] && !StartsWith(line, "event:") && StartsWith(line, "data:") {
      var data := Payload(line);
      if isJson(data) && st.pending.Some? && st.pending.value in HandledTypes {
        AppendKeepsWellFormed(st, Event(st.pending.value, data), handles);
      }
    }
  }

  lemma AppendKeepsWellFormed(st: Reader, e: Event, handles: (string, string) -> bool)
    requires !st.closed && WellFormed(st, handles) && e.kind in HandledTypes
    ensures WellFormed(Reader(None, st.handled + [e], false), handles) <==> !Closes(e.kind, e.data, handles)
    ensures WellFormed(Reader(st.pending, st.handled + [e], true), handles) <==> Closes(e.kind, e.data, handles)
  {
    var handled := st.handled + [e];
    assert forall x :: x in handled ==> x in st.handled || x == e;
    assert forall k :: 0 <= k < |handled| - 1 ==> handled[k] == st.handled[k];
  }

  /** Once the loop has broken out, no further line is read. */
  lemma {:induction false} ClosedReadsNothing(lines: seq<string>, isJson: string -> bool, handles: (string, string) -> bool,
                                              st: Reader)
    requires st.closed
    ensures Run(lines, isJson, handles, st) == st
  {
  }

  /** Reading the lines in two parts is reading them at once. */
  lemma {:induction false} RunAppend(a: seq<string>, b: seq<string>, isJson: string -> bool, handles: (string, string) -> bool,
                                     st: Reader)
    ensures Run(a + b, isJson, handles, st) == Run(b, isJson, handles, Run(a, isJson, handles, st))
    decreases |a|
  {
    if a == [] {
      assert a + b == b;
    } else if !st.closed {
      assert (a + b)[0] == a[0] && (a + b)[1..] == a[1..] + b;
      RunAppend(a[1..], b, isJson, handles, Step(st, a[0], isJson, handles));
    } else {
      ClosedReadsNothing(b, isJson, handles, st);
    }
  }

  /** An event line of a handled type (whatever spaces surround it)
      followed by a JSON payload whose call ends the loop (an 'ended' or
      'error' event, or a handler that raises) is the last thing handled,
      whatever follows it. */
  lemma ClosingEventStopsStream(eventText: string, payload: string, rest: seq<string>, isJson: string -> bool,
                                handles: (string, string) -> bool)
    requires Strip(eventText) in HandledTypes && isJson(Strip(payload))
    requires Closes(Strip(eventText), Strip(payload), handles)
    ensures var r := Run(["event:" + eventText] + (["data:" + payload] + rest), isJson, handles, Start);
            r.closed && r.handled == [Event(Strip(eventText), Strip(payload))]
  {
    var kind := Strip(eventText);
    EventStep(eventText, ["data:" + payload] + rest, isJson, handles);
    ClosingDataStep(kind, payload, rest, isJson, handles);
    ClosedReadsNothing(rest, isJson, handles, Reader(Some(kind), [Event(kind, Strip(payload))], true));
  }

  /** "event: initial" and then "data: 5": the payload is JSON, but not an
      object, so `_handle_initial` raises on `data.get`; the loop ends there,
      and the 'ended' event after it is never handled. */
  lemma FailedHandlerEndsStream(isJson: string -> bool, handles: (string, string) -> bool)
    requires isJson("5") && !handles("initial", "5")
    ensures var r := Run(["event: initial", "data: 5", "event: ended", "data: {}"], isJson, handles, Start);
            r.closed && r.handled == [Event("initial", "5")]
  {
    ExampleLines();
    SpacedInitialCloses(["event: ended", "data: {}"], isJson, handles);
  }

  lemma SpacedInitialCloses(rest: seq<string>, isJson: string -> bool, handles: (string, string) -> bool)
    requires isJson("5") && !handles("initial", "5")
    ensures var r := Run(["event:" + " initial"] + (["data:" + " 5"] + rest), isJson, handles, Start);
            r.closed && r.handled == [Event("initial", "5")]
  {
    ExampleStrips();
    ClosingEventStopsStream(" initial", " 5", rest, isJson, handles);
  }

  lemma ExampleStrips()
    ensures Strip(" initial") == "initial" && Strip(" 5") == "5"
  {
    StripSpaced(" initial", "initial");
    StripSpaced(" 5", "5");
  }

  lemma ExampleLines()
    ensures ["event: initial", "data: 5", "event: ended", "data: {}"]
         == ["event:" + " initial"] + (["data:" + " 5"] + ["event: ended", "data: {}"])
  {
    assert "event: initial" == "event:" + " initial";
    assert "data: 5" == "data:" + " 5";
  }

  /** One leading space, on a word with no space at either end, is stripped. */
  lemma StripSpaced(s: string, word: string)
    requires s == [' '] + word && word != [] && !IsSpace(word[0]) && !IsSpace(word[|word| - 1])
    ensures Strip(s) == word
  {
    assert s[|s| - 1] == word[|word| - 1];
    assert s[0] == ' ' && IsSpace(' ') && s[1..] == word;
  }

  lemma EventStep(eventText: string, rest: seq<string>, isJson: string -> bool, handles: (string, string) -> bool)
    ensures Run(["event:" + eventText] + rest, isJson, handles, Start)
         == Run(rest, isJson, handles, Start.(pending := Some(Strip(eventText))))
  {
    EventLineSetsPending(Start, eventText, isJson, handles);
    RunCons("event:" + eventText, rest, isJson, handles, Start);
  }

  lemma ClosingDataStep(kind: string, payload: string, rest: seq<string>, isJson: string -> bool,
                        handles: (string, string) -> bool)
    requires kind in HandledTypes && isJson(Strip(payload)) && Closes(kind, Strip(payload), handles)
    ensures Run(["data:" + payload] + rest, isJson, handles, Start.(pending := Some(kind)))
         == Run(rest, isJson, handles, Reader(Some(kind), [Event(kind, Strip(payload))], true))
  {
    var s1 := Start.(pending := Some(kind));
    DataLine(s1, payload, isJson, handles);
    assert DataStep(s1, Strip(payload), isJson, handles) == Reader(Some(kind), [Event(kind, Strip(payload))], true);
    RunCons("data:" + payload, rest, isJson, handles, s1);
  }

  lemma RunCons(line: string, rest: seq<string>, isJson: string -> bool, handles: (string, string) -> bool, st: Reader)
    requires !st.closed
    ensures Run([line] + rest, isJson, handles, st) == Run(rest, isJson, handles, Step(st, line, isJson, handles))
  {
    assert ([line] + rest)[1..] == rest;
  }

  /** A trailing slash, or several, does not change the stream URL. */
  lemma {:induction false} TrailingSlashIgnored(url: string, conversationId: string)
    ensures StreamUrl(BaseUrl(url + "/"), conversationId) == StreamUrl(BaseUrl(url), conversationId)
    ensures BaseUrl(BaseUrl(url)) == BaseUrl(url)
  {
    assert (url + "/")[..|url|] == url;
  }

  // -----------------------------------------------------------------------
  // The client loop
  // -----------------------------------------------------------------------

  /** The body of stream_conversation after the connection is open: the
      handler calls made, in order, and whether the loop ended, by a
      'break' or by a handler's exception. */
  method ReadStream(lines: seq<string>, isJson: string -> bool, handles: (string, string) -> bool)
    returns (handled: seq<Event>, closed: bool)
    ensures Reader(Run(lines, isJson, handles, Start).pending, handled, closed) == Run(lines, isJson, handles, Start)
  {
    var eventType: Option<string> := None;
    handled, closed := [], false;
    var i := 0;
    while i < |lines|
      invariant 0 <= i <= |lines|
      invariant !closed
      invariant Run(lines, isJson, handles, Start) == Run(lines[i..], isJson, handles, Reader(eventType, handled, false))
    {
      var line := lines[i];
      assert lines[i..][1..] == lines[i + 1..];
      i := i + 1;
      if line == [] {
        continue;
      }
      if StartsWith(line, "event:") {
        eventType := Some(Payload(line));
      } else if StartsWith(line, "data:") {
        var dataStr := Payload(line);
        if !isJson(dataStr) {
          continue;
        }
        if eventType == Some("initial") || eventType == Some("new_messages") || eventType == Some("heartbeat") {
          handled := handled + [Event(eventType.value, dataStr)];
          if !handles(eventType.value, dataStr) {
            closed := true;
            ClosedReadsNothing(lines[i..], isJson, handles, Reader(eventType, handled, true));
            return;
          }
        } else if eventType == Some("ended") || eventType == Some("error") {
          handled := handled + [Event(eventType.value, dataStr)];
          closed := true;
          ClosedReadsNothing(lines[i..], isJson, handles, Reader(eventType, handled, true));
          return;
        }
        eventType := None;
      }
    }
  }
}
