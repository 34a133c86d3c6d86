// AuroraLLM.generate_response in main.py, aurora_fastapi.py and
// backend/aurora_twilio.py: the language model is an oracle that answers
// the request with a text or fails; everything after the call is string
// slicing over the reply's "[URGENCY: ...]" and "[SOURCES: ...]" tags.

module Chat {
  /** One {"role": ..., "content": ...} entry of a chat request or history. */
  datatype Turn = Turn(role: string, content: string)

  /** What the language-model call gives back: the reply text, or an exception. */
  datatype LlmOutcome = Completed(text: string) | Failed

  /** The request sent to the model: the system prompt, the history in order, the new input. */
  function BuildRequest(systemPrompt: string, history: seq<Turn>, input: string): (r: seq<Turn>)
    ensures |r| == |history| + 2
    ensures r[0] == Turn("system", systemPrompt) && r[|r| - 1] == Turn("user", input)
    ensures r[1..|r| - 1] == history
  {
    [Turn("system", systemPrompt)] + history + [Turn("user", input)]
  }
}

module TaggedReply {
  import opened Optional
  import opened PyText
  import opened Chat

  const UrgencyTag := "[URGENCY:"
  const SourcesTag := "[SOURCES:"
  const ValidLevels: seq<string> := ["critical", "urgent", "normal", "assistive"]

  /** main.py's fallback text when the model call raises. */
  const MainFallback := "Emergency system error. {Tokens per day limit exceeded - too many tokens processed.} Please call your supervisor at extension 9999 immediately."
  /** The fallback text of aurora_fastapi.py and backend/aurora_twilio.py. */
  const PhoneFallback := "Emergency system error. Please call your supervisor at extension 9999 immediately."
  const FallbackSources := "Emergency Procedures Manual"

  /** `sources` starts as the empty list `[]` and becomes a string only when the tag is present. */
  datatype Sources = NoSourceList | SourceText(text: string)

  /** (assistant_message, urgency_level, sources) */
  datatype Reply = Reply(message: string, urgency: string, sources: Sources)

  /** full_response[start:full_response.find("]", start)]: when no ']' follows,
      find gives -1 and the slice stops one character before the end. */
  function TagValue(reply: string, start: nat): string
    requires start <= |reply|
  {
    var stop := match FindFrom(reply, "]", start)
      case Some(e) => e
      case None => |reply| - 1;
    if start <= stop then reply[start..stop] else ""
  }

  /** The raw value of the first `tag` in the reply, if there is one. */
  function TagText(reply: string, tag: string): Option<string> {
    match Find(reply, tag)
    case None => None
    case Some(i) => Some(TagValue(reply, i + |tag|))
  }

  /** A tag value read as a level: trimmed and lowered, "normal" unless it is one of the four. */
  function LevelOf(value: string): (level: string)
    ensures level in ValidLevels
  {
    var level := Lower(Strip(value));
    if level in ValidLevels then level else "normal"
  }

  /** The urgency level: the tag's value read as a level, "normal" when the tag is missing. */
  function ParseUrgency(reply: string): (level: string)
    ensures level in ValidLevels
    ensures !Contains(reply, UrgencyTag) ==> level == "normal"
  {
    match TagText(reply, UrgencyTag)
    case None => "normal"
    case Some(value) => LevelOf(value)
  }

  /** The sources: the trimmed tag value, or the untouched empty list. */
  function ParseSources(reply: string): (s: Sources)
    ensures s.NoSourceList? <==> !Contains(reply, SourcesTag)
  {
    match TagText(reply, SourcesTag)
    case None => NoSourceList
    case Some(value) => SourceText(Strip(value))
  }

  /** Cut before the first occurrence of `pat` and trim; unchanged when `pat` is absent. */
  function CutBefore(s: string, pat: string): string {
    match Find(s, pat)
    case Some(i) => Strip(s[..i])
    case None => s
  }

  /** The text spoken to the caller: cut before the first "[URGENCY:", then
      before the first "[SOURCES:", trimming after each cut that happens. */
  function SpokenText(reply: string): string {
    CutBefore(CutBefore(reply, UrgencyTag), SourcesTag)
  }

  lemma CutBeforeFacts(s: string, pat: string)
    requires pat != []
    ensures IsSlice(CutBefore(s, pat), s) && !Contains(CutBefore(s, pat), pat)
    ensures !Contains(s, pat) ==> CutBefore(s, pat) == s
  {
    match Find(s, pat)
    case Some(i) =>
      var r := Strip(s[..i]);
      assert CutBefore(s, pat) == r;
      PrefixBeforeFirst(s, pat, i);
      StripIsSlice(s[..i]);
      assert IsSlice(s[..i], s) by { assert s[..i] == s[0..i]; }
      SliceOfSlice(r, s[..i], s);
      NoOccurrenceInSlice(r, s[..i], pat);
    case None =>
      assert s == s[0..|s|];
  }

  /** Neither tag survives in the spoken text, which is a piece of the reply;
      a reply without tags is spoken as it is. */
  lemma SpokenTextHasNoTags(reply: string)
    ensures !Contains(SpokenText(reply), UrgencyTag) && !Contains(SpokenText(reply), SourcesTag)
    ensures IsSlice(SpokenText(reply), reply)
    ensures !Contains(reply, UrgencyTag) && !Contains(reply, SourcesTag) ==> SpokenText(reply) == reply
  {
    var m1 := CutBefore(reply, UrgencyTag);
    CutBeforeFacts(reply, UrgencyTag);
    CutBeforeFacts(m1, SourcesTag);
    SliceOfSlice(SpokenText(reply), m1, reply);
    NoOccurrenceInSlice(SpokenText(reply), m1, UrgencyTag);
    if !Contains(reply, SourcesTag) && !Contains(reply, UrgencyTag) {
      assert m1 == reply;
    }
  }

  lemma SliceOfSlice(r: string, s: string, t: string)
    requires IsSlice(r, s) && IsSlice(s, t)
    ensures IsSlice(r, t)
  {
    var a, b :| 0 <= a <= b <= |s| && r == s[a..b];
    var c, d :| 0 <= c <= d <= |t| && s == t[c..d];
    var u := t[c + a..c + b];
    forall i | 0 <= i < |r| ensures r[i] == u[i] {
      assert r[i] == s[a + i] == t[c + a + i];
    }
    assert r == u;
  }

  function ParseReply(reply: string): Reply {
    Reply(SpokenText(reply), ParseUrgency(reply), ParseSources(reply))
  }

  /** generate_response: ask the model; on failure answer with the fixed
      fallback, classified critical, citing the emergency manual. */
  function GenerateResponse(llm: seq<Turn> -> LlmOutcome, systemPrompt: string,
                            history: seq<Turn>, input: string, fallback: string): (r: Reply)
    ensures r.urgency in ValidLevels
  {
    match llm(BuildRequest(systemPrompt, history, input))
    case Failed => Reply(fallback, "critical", SourceText(FallbackSources))
    case Completed(text) => ParseReply(text)
  }

  /** The reply shape the system prompt asks the model for:
      "<answer> [URGENCY: <level>] [SOURCES: <sources>]". */
  function Tagged(message: string, level: string, sources: string): string {
    message + " " + UrgencyTag + " " + level + "] " + SourcesTag + " " + sources + "]"
  }

  // -----------------------------------------------------------------------
  // Properties
  // -----------------------------------------------------------------------

  /** A reply that carries neither tag is spoken verbatim, untrimmed, as "normal", with no sources. */
  lemma UntaggedReplyPassesThrough(reply: string)
    requires !Contains(reply, UrgencyTag) && !Contains(reply, SourcesTag)
    ensures ParseReply(reply) == Reply(reply, "normal", NoSourceList)
  {
    SpokenTextHasNoTags(reply);
  }

  /** The fail-safe: whatever the history and input, a failed call yields the
      fallback text, "critical" and "Emergency Procedures Manual". */
  lemma FailedCallIsCritical(llm: seq<Turn> -> LlmOutcome, systemPrompt: string,
                             history: seq<Turn>, input: string, fallback: string)
    requires llm(BuildRequest(systemPrompt, history, input)) == Failed
    ensures GenerateResponse(llm, systemPrompt, history, input, fallback)
         == Reply(fallback, "critical", SourceText(FallbackSources))
  {
  }

  /** The three copies of generate_response differ only in their fallback text. */
  lemma FallbackTexts(llm: seq<Turn> -> LlmOutcome, systemPrompt: string, history: seq<Turn>, input: string)
    requires llm(BuildRequest(systemPrompt, history, input)) == Failed
    ensures GenerateResponse(llm, systemPrompt, history, input, MainFallback).message == MainFallback
    ensures GenerateResponse(llm, systemPrompt, history, input, PhoneFallback).message == PhoneFallback
    ensures GenerateResponse(llm, systemPrompt, history, input, PhoneFallback).urgency == "critical"
  {
  }

  /** Round trip: a reply written in the requested shape parses back to its
      trimmed answer, its level and its trimmed sources. */
  lemma TaggedRoundTrip(message: string, level: string, sources: string)
    requires !Contains(message, UrgencyTag) && !Contains(message, SourcesTag)
    requires level in ValidLevels
    requires ']' !in sources
    ensures ParseReply(Tagged(message, level, sources)) == Reply(Strip(message), level, SourceText(Strip(sources)))
  {
    TaggedUrgency(message, level, sources);
    TaggedSources(message, level, sources);
    TaggedSpoken(message, level, sources);
  }

  lemma TaggedUrgency(message: string, level: string, sources: string)
    requires !Contains(message, UrgencyTag) && level in ValidLevels
    ensures Find(Tagged(message, level, sources), UrgencyTag) == Some(|message| + 1)
    ensures ParseUrgency(Tagged(message, level, sources)) == level
  {
    var w := "] " + SourcesTag + " " + sources + "]";
    UrgencyTagShape(message, level, sources);
    SpacedLevel(level);
    TagsAreSpaceless();
    TagFollowsSeparator(message, UrgencyTag, " " + level, w);
  }

  lemma TagsAreSpaceless()
    ensures UrgencyTag != [] && ' ' !in UrgencyTag && SourcesTag != [] && ' ' !in SourcesTag
  {
  }

  lemma UrgencyTagShape(message: string, level: string, sources: string)
    ensures Tagged(message, level, sources)
         == message + [' '] + UrgencyTag + (" " + level) + ("] " + SourcesTag + " " + sources + "]")
  {
  }

  lemma SpacedLevel(level: string)
    requires level in ValidLevels
    ensures ']' !in " " + level && LevelOf(" " + level) == level
  {
    LevelsAreBare(level);
    StripAroundSpace(level);
  }

  lemma TaggedSources(message: string, level: string, sources: string)
    requires !Contains(message, SourcesTag) && level in ValidLevels && ']' !in sources
    ensures ParseSources(Tagged(message, level, sources)) == SourceText(Strip(sources))
  {
    var head := message + " " + UrgencyTag + " " + level + "]";
    assert Tagged(message, level, sources) == head + [' '] + SourcesTag + (" " + sources) + "]";
    HeadHasNoSourcesTag(message, level);
    TagFollowsSeparator(head, SourcesTag, " " + sources, "]");
    StripLeadingSpace(sources);
  }

  lemma TaggedSpoken(message: string, level: string, sources: string)
    requires !Contains(message, UrgencyTag) && !Contains(message, SourcesTag) && level in ValidLevels
    ensures SpokenText(Tagged(message, level, sources)) == Strip(message)
  {
    var s := Tagged(message, level, sources);
    TaggedUrgency(message, level, sources);
    TaggedPrefix(message, level, sources);
    StripTrailingSpace(message);
    CutBeforeFirst(s, UrgencyTag, |message| + 1);
    StrippedStaysUntagged(message);
  }

  lemma TaggedPrefix(message: string, level: string, sources: string)
    ensures |message| + 1 <= |Tagged(message, level, sources)|
    ensures Tagged(message, level, sources)[..|message| + 1] == message + " "
  {
    var rest := UrgencyTag + " " + level + "] " + SourcesTag + " " + sources + "]";
    assert Tagged(message, level, sources) == (message + " ") + rest;
  }

  lemma StrippedStaysUntagged(message: string)
    requires !Contains(message, SourcesTag)
    ensures CutBefore(Strip(message), SourcesTag) == Strip(message)
  {
    StripIsSlice(message);
    NoOccurrenceInSlice(Strip(message), message, SourcesTag);
    CutBeforeFacts(Strip(message), SourcesTag);
  }

  /** A reply cut off inside its urgency tag (no closing ']', as when the token
      budget runs out) is classified "normal": the slice loses the last letter. */
  lemma TruncatedUrgencyTagReadsNormal(message: string, level: string)
    requires !Contains(message, UrgencyTag)
    requires level in ValidLevels
    ensures ParseUrgency(message + " " + UrgencyTag + " " + level) == "normal"
  {
    SpacedLevel(level);
    TagsAreSpaceless();
    TruncatedShape(message, level);
    UnclosedTag(message, UrgencyTag, " " + level);
    TruncatedLevelReadsNormal(level);
  }

  lemma TruncatedShape(message: string, level: string)
    ensures message + " " + UrgencyTag + " " + level == message + [' '] + UrgencyTag + (" " + level)
  {
  }

  lemma TruncatedLevelReadsNormal(level: string)
    requires level in ValidLevels
    ensures LevelOf((" " + level)[..|level|]) == "normal"
  {
    var t := level[..|level| - 1];
    TruncatedLevelsAreInvalid(level);
    assert (" " + level)[..|level|] == " " + t;
    StripAroundSpace(t);
    NotALevelReadsNormal(" " + t, t);
  }

  lemma NotALevelReadsNormal(value: string, t: string)
    requires Lower(Strip(value)) == t && t !in ValidLevels
    ensures LevelOf(value) == "normal"
  {
  }

  // -----------------------------------------------------------------------
  // Helper lemmas
  // -----------------------------------------------------------------------

  lemma CutBeforeFirst(s: string, pat: string, i: nat)
    requires Find(s, pat) == Some(i)
    ensures CutBefore(s, pat) == Strip(s[..i])
  {
  }

  lemma FirstOccurrence(s: string, pat: string, i: nat)
    requires OccursAt(s, pat, i)
    requires forall j :: 0 <= j < i ==> !OccursAt(s, pat, j)
    ensures Find(s, pat) == Some(i)
  {
  }

  /** With `sep` not in `pat`, no occurrence of `pat` in x + [sep] + y starts at or before the separator. */
  lemma NothingStartsBeforeSeparator(x: string, sep: char, y: string, pat: string)
    requires pat != [] && sep !in pat && !Contains(x, pat)
    ensures forall j :: 0 <= j <= |x| ==> !OccursAt(x + [sep] + y, pat, j)
  {
    var s := x + [sep] + y;
    forall j | 0 <= j <= |x| ensures !OccursAt(s, pat, j) {
      if j + |pat| <= |s| {
        if j + |pat| <= |x| {
          assert s[j..j + |pat|] == x[j..j + |pat|];
          assert !OccursAt(x, pat, j);
        } else {
          assert s[j..j + |pat|][|x| - j] == sep;
          assert pat[|x| - j] != sep;
        }
      }
    }
  }

  /** A tag written right after a separator that it does not contain, in a
      text that has no earlier copy of it, is found there, and its value runs
      to the first ']' after it. */
  lemma TagFollowsSeparator(x: string, tag: string, v: string, w: string)
    requires tag != [] && ' ' !in tag && !Contains(x, tag)
    requires ']' !in v && w != [] && w[0] == ']'
    ensures Find(x + [' '] + tag + v + w, tag) == Some(|x| + 1)
    ensures TagText(x + [' '] + tag + v + w, tag) == Some(v)
  {
    var p := x + [' '] + tag;
    assert x + [' '] + tag + v + w == p + (v + w);
    TagAfterSeparator(x, tag, v + w);
    ValueRunsToBracket(p, v, w);
  }

  /** A tag right after a separator it does not contain, with no earlier copy, is found there. */
  lemma TagAfterSeparator(x: string, tag: string, y: string)
    requires tag != [] && ' ' !in tag && !Contains(x, tag)
    ensures Find(x + [' '] + tag + y, tag) == Some(|x| + 1)
  {
    var s := x + [' '] + tag + y;
    assert s == x + [' '] + (tag + y);
    NothingStartsBeforeSeparator(x, ' ', tag + y, tag);
    assert s[|x| + 1..|x| + 1 + |tag|] == tag;
    FirstOccurrence(s, tag, |x| + 1);
  }

  /** The first ']' from the start of a value without one is the one that follows it. */
  lemma ValueRunsToBracket(p: string, v: string, w: string)
    requires ']' !in v && w != [] && w[0] == ']'
    ensures FindFrom(p + (v + w), "]", |p|) == Some(|p| + |v|)
    ensures (p + (v + w))[|p|..|p| + |v|] == v
  {
    NoBracketInValue(p, v, w);
    BracketAfterValue(p, v, w);
    FirstFrom(p + (v + w), "]", |p|, |p| + |v|);
    ValueSlice(p, v, w);
  }

  lemma NoBracketInValue(p: string, v: string, w: string)
    requires ']' !in v
    ensures forall j :: |p| <= j < |p| + |v| ==> !OccursAt(p + (v + w), "]", j)
  {
    var s := p + (v + w);
    forall j | |p| <= j < |p| + |v| ensures !OccursAt(s, "]", j) {
      OneCharOccurs(s, ']', j);
      assert s[j] == v[j - |p|];
    }
  }

  lemma BracketAfterValue(p: string, v: string, w: string)
    requires w != [] && w[0] == ']'
    ensures OccursAt(p + (v + w), "]", |p| + |v|)
  {
    var s := p + (v + w);
    OneCharOccurs(s, ']', |p| + |v|);
    assert s[|p| + |v|] == w[0];
  }

  lemma ValueSlice(p: string, v: string, w: string)
    ensures (p + (v + w))[|p|..|p| + |v|] == v
  {
    var s := p + (v + w);
    assert s[|p|..] == v + w;
    assert (v + w)[..|v|] == v;
  }

  lemma OneCharOccurs(s: string, c: char, j: int)
    ensures OccursAt(s, [c], j) <==> 0 <= j < |s| && s[j] == c
  {
    if 0 <= j < |s| && s[j] == c {
      assert s[j..j + 1] == [c];
    }
  }

  lemma FirstFrom(s: string, pat: string, k: nat, i: nat)
    requires k <= i && OccursAt(s, pat, i)
    requires forall j :: k <= j < i ==> !OccursAt(s, pat, j)
    ensures FindFrom(s, pat, k) == Some(i)
  {
  }

  /** A tag whose value has no closing ']' loses the last character of the value. */
  lemma UnclosedTag(x: string, tag: string, v: string)
    requires tag != [] && ' ' !in tag && !Contains(x, tag)
    requires ']' !in v && v != []
    ensures Find(x + [' '] + tag + v, tag) == Some(|x| + 1)
    ensures TagText(x + [' '] + tag + v, tag) == Some(v[..|v| - 1])
  {
    var p := x + [' '] + tag;
    TagAfterSeparator(x, tag, v);
    UnclosedValue(p, v);
  }

  /** With no ']' after the tag, the value is all but the last character. */
  lemma UnclosedValue(p: string, v: string)
    requires ']' !in v && v != []
    ensures FindFrom(p + v, "]", |p|) == None
    ensures (p + v)[|p|..|p + v| - 1] == v[..|v| - 1]
  {
    var s := p + v;
    forall j | |p| <= j ensures !OccursAt(s, "]", j) {
      if j < |s| {
        assert s[j] == v[j - |p|];
      }
    }
    assert s[|p|..|s| - 1] == v[..|v| - 1];
  }

  lemma LevelsAreBare(level: string)
    requires level in ValidLevels
    ensures level != [] && !IsSpace(level[0]) && !IsSpace(level[|level| - 1])
    ensures forall i :: 0 <= i < |level| ==> 'a' <= level[i] <= 'z'
    ensures Lower(level) == level
    ensures '[' !in level && ']' !in level
  {
    LevelsAreLowercase(level);
    LowercaseIsBare(level);
  }

  lemma LowercaseIsBare(s: string)
    requires s != [] && forall i :: 0 <= i < |s| ==> 'a' <= s[i] <= 'z'
    ensures !IsSpace(s[0]) && !IsSpace(s[|s| - 1])
    ensures Lower(s) == s
    ensures '[' !in s && ']' !in s
  {
    LowercaseUnchanged(s);
    LowercaseEndsBare(s);
    LowercaseHasNoBrackets(s);
  }

  lemma LowercaseEndsBare(s: string)
    requires s != [] && forall i :: 0 <= i < |s| ==> 'a' <= s[i] <= 'z'
    ensures !IsSpace(s[0]) && !IsSpace(s[|s| - 1])
  {
    assert 'a' <= s[0] <= 'z';
    assert 'a' <= s[|s| - 1] <= 'z';
  }

  lemma LowercaseHasNoBrackets(s: string)
    requires forall i :: 0 <= i < |s| ==> 'a' <= s[i] <= 'z'
    ensures '[' !in s && ']' !in s
  {
  }

  lemma LevelsAreLowercase(level: string)
    requires level in ValidLevels
    ensures 6 <= |level| && forall i :: 0 <= i < |level| ==> 'a' <= level[i] <= 'z'
  {
    if level == "critical" {
    } else if level == "urgent" {
    } else if level == "normal" {
    } else {
      assert level == "assistive";
    }
  }

  lemma LowercaseUnchanged(s: string)
    requires forall i :: 0 <= i < |s| ==> 'a' <= s[i] <= 'z'
    ensures Lower(s) == s
  {
    var l := Lower(s);
    forall i | 0 <= i < |s| ensures l[i] == s[i] {
    }
  }

  lemma TruncatedLevelsAreInvalid(level: string)
    requires level in ValidLevels
    ensures var t := level[..|level| - 1];
      t != [] && !IsSpace(t[0]) && !IsSpace(t[|t| - 1]) && Lower(t) == t && t !in ValidLevels
  {
    LevelsAreLowercase(level);
    var t := level[..|level| - 1];
    LowercaseIsBare(t);
    assert |t| == 5 || |t| == 7 || (|t| == 8 && t[0] == 'a');
    assert ValidLevels[0][0] == 'c';
  }

  lemma HeadHasNoSourcesTag(message: string, level: string)
    requires !Contains(message, SourcesTag) && level in ValidLevels
    ensures !Contains(message + " " + UrgencyTag + " " + level + "]", SourcesTag)
  {
    var closed := level + "]";
    var rest := UrgencyTag + [' '] + closed;
    assert !Contains(closed, SourcesTag) by {
      LevelsAreBare(level);
      assert SourcesTag[0] !in closed;
      FirstCharAbsent(closed, SourcesTag);
    }
    assert !Contains(rest, SourcesTag) by {
      TagsDiffer();
      TagsAreSpaceless();
      JoinedBySeparator(UrgencyTag, ' ', closed, SourcesTag);
    }
    TagsAreSpaceless();
    JoinedBySeparator(message, ' ', rest, SourcesTag);
    HeadShape(message, level);
  }

  lemma HeadShape(message: string, level: string)
    ensures message + " " + UrgencyTag + " " + level + "]" == message + [' '] + (UrgencyTag + [' '] + (level + "]"))
  {
  }

  lemma TagsDiffer()
    ensures !Contains(UrgencyTag, SourcesTag)
  {
    forall j ensures !OccursAt(UrgencyTag, SourcesTag, j) {
      if j == 0 {
        assert UrgencyTag[1] != SourcesTag[1];
      }
    }
  }

  /** A string without the pattern's first character does not contain it. */
  lemma FirstCharAbsent(x: string, pat: string)
    requires pat != [] && pat[0] !in x
    ensures !Contains(x, pat)
  {
    forall j ensures !OccursAt(x, pat, j) {
      if 0 <= j && j + |pat| <= |x| {
        assert x[j..j + |pat|][0] == x[j] != pat[0];
      }
    }
  }

  /** Joining two strings without the pattern by a character outside it creates no occurrence. */
  lemma JoinedBySeparator(x: string, sep: char, y: string, pat: string)
    requires pat != [] && sep !in pat && !Contains(x, pat) && !Contains(y, pat)
    ensures !Contains(x + [sep] + y, pat)
  {
    NothingStartsBeforeSeparator(x, sep, y, pat);
    var s := x + [sep] + y;
    forall j | |x| < j ensures !OccursAt(s, pat, j) {
      if j + |pat| <= |s| {
        var k := j - |x| - 1;
        assert s[j..j + |pat|] == y[k..k + |pat|];
        assert !OccursAt(y, pat, k);
      }
    }
  }

  lemma StripBare(s: string)
    requires s == [] || (!IsSpace(s[0]) && !IsSpace(s[|s| - 1]))
    ensures Strip(s) == s
  {
  }

  lemma StripTrailingSpace(s: string)
    ensures Strip(s + " ") == Strip(s)
  {
    assert (s + " ")[..|s|] == s;
  }

  lemma StripLeadingSpace(s: string)
    ensures Strip(" " + s) == Strip(s)
  {
    RStripCons(' ', s);
    if RStrip(s) != [] {
      assert (" " + RStrip(s))[1..] == RStrip(s);
    }
  }

  lemma StripAroundSpace(s: string)
    requires s == [] || (!IsSpace(s[0]) && !IsSpace(s[|s| - 1]))
    ensures Strip(" " + s) == s
  {
    StripLeadingSpace(s);
    StripBare(s);
  }

  lemma {:induction false} RStripCons(c: char, s: string)
    ensures RStrip([c] + s) == if RStrip(s) == [] then RStrip([c]) else [c] + RStrip(s)
  {
    var t := [c] + s;
    if s != [] && IsSpace(s[|s| - 1]) {
      assert t[..|t| - 1] == [c] + s[..|s| - 1];
      RStripCons(c, s[..|s| - 1]);
    }
  }
}

module KeywordReply {
  import opened PyText
  import opened Chat

  /** aurora_livekit.py's ten urgency keywords. */
  const UrgentKeywords: seq<string> := ["gas", "leak", "fire", "injured", "emergency",
                                        "help", "danger", "smoke", "bleeding", "explosion"]
  const LivekitFallback := "Emergency system error. Please call your supervisor at extension 9999 immediately."

  /** (assistant_message, is_urgent) */
  datatype KeywordReply = KeywordReply(message: string, isUrgent: bool)

  /** any(keyword in user_input.lower() for keyword in urgent_keywords) */
  predicate IsUrgent(input: string) {
    exists k :: 0 <= k < |UrgentKeywords| && Contains(Lower(input), UrgentKeywords[k])
  }

  /** The older generate_response: the urgency is decided from the input before
      the call; a failed call answers with the fallback and forces urgent. */
  function GenerateKeywordResponse(llm: seq<Turn> -> LlmOutcome, systemPrompt: string,
                                   history: seq<Turn>, input: string): (r: KeywordReply)
    ensures IsUrgent(input) ==> r.isUrgent
  {
    match llm(BuildRequest(systemPrompt, history, input))
    case Failed => KeywordReply(LivekitFallback, true)
    case Completed(text) => KeywordReply(text, IsUrgent(input))
  }

  lemma LowerConcat(a: string, b: string)
    ensures Lower(a + b) == Lower(a) + Lower(b)
  {
    var l, r := Lower(a + b), Lower(a) + Lower(b);
    forall i | 0 <= i < |l| ensures l[i] == r[i] {
      if i < |a| {
        assert (a + b)[i] == a[i];
      } else {
        assert (a + b)[i] == b[i - |a|];
      }
    }
  }

  /** The test is a case-insensitive substring test: a keyword written in any
      case anywhere in the input, even inside a longer word ("gasket"), makes it urgent. */
  lemma KeywordAnywhereIsUrgent(before: string, word: string, after: string, k: nat)
    requires k < |UrgentKeywords| && Lower(word) == UrgentKeywords[k]
    ensures IsUrgent(before + word + after)
  {
    LowerConcat(before + word, after);
    LowerConcat(before, word);
    var low := Lower(before + word + after);
    assert low == Lower(before) + UrgentKeywords[k] + Lower(after);
    assert low[|before|..|before| + |word|] == UrgentKeywords[k];
    assert OccursAt(low, UrgentKeywords[k], |before|);
  }

  /** "gasket" counts as urgent, though it names no gas. */
  lemma GasketIsUrgent()
    ensures IsUrgent("gasket")
  {
    assert Lower("gas") == "gas";
    KeywordAnywhereIsUrgent("", "gas", "ket", 0);
    assert "" + "gas" + "ket" == "gasket";
  }

  /** The fail-safe: a failed call reports urgent and the fallback, whatever the input. */
  lemma FailedCallIsUrgent(llm: seq<Turn> -> LlmOutcome, systemPrompt: string, history: seq<Turn>, input: string)
    requires llm(BuildRequest(systemPrompt, history, input)) == Failed
    ensures GenerateKeywordResponse(llm, systemPrompt, history, input) == KeywordReply(LivekitFallback, true)
  {
  }

  /** The keyword of index `k`, written in any case, is input[i..j]. */
  predicate KeywordAt(input: string, k: int, i: int, j: int) {
    0 <= k < |UrgentKeywords| && 0 <= i <= j <= |input| && Lower(input[i..j]) == UrgentKeywords[k]
  }

  lemma LowerSlice(s: string, i: int, j: int)
    requires 0 <= i <= j <= |s|
    ensures Lower(s[i..j]) == Lower(s)[i..j]
  {
  }

  /** The substring test, both ways: an input is urgent exactly when some
      stretch of it lowers to one of the ten keywords. */
  lemma UrgentIffKeywordStretch(input: string)
    ensures IsUrgent(input) <==> exists k, i, j :: KeywordAt(input, k, i, j)
  {
    if IsUrgent(input) {
      UrgentHasKeywordStretch(input);
    }
    if exists k, i, j :: KeywordAt(input, k, i, j) {
      var k, i, j :| KeywordAt(input, k, i, j);
      KeywordStretchIsUrgent(input, k, i, j);
    }
  }

  lemma UrgentHasKeywordStretch(input: string)
    requires IsUrgent(input)
    ensures exists k, i, j :: KeywordAt(input, k, i, j)
  {
    var k :| 0 <= k < |UrgentKeywords| && Contains(Lower(input), UrgentKeywords[k]);
    var kw := UrgentKeywords[k];
    var p := Find(Lower(input), kw).value;
    LowerSlice(input, p, p + |kw|);
    assert KeywordAt(input, k, p, p + |kw|);
  }

  lemma KeywordStretchIsUrgent(input: string, k: int, i: int, j: int)
    requires KeywordAt(input, k, i, j)
    ensures IsUrgent(input)
  {
    var before, word, after := input[..i], input[i..j], input[j..];
    assert before + word + after == input by {
      assert before + word == input[..j];
    }
    KeywordAnywhereIsUrgent(before, word, after, k);
  }

  /** A completed call returns the model's text verbatim, urgent exactly
      when some stretch of the input is a keyword in any case. */
  lemma CompletedCallKeepsText(llm: seq<Turn> -> LlmOutcome, systemPrompt: string, history: seq<Turn>, input: string)
    requires llm(BuildRequest(systemPrompt, history, input)).Completed?
    ensures var r := GenerateKeywordResponse(llm, systemPrompt, history, input);
            r.message == llm(BuildRequest(systemPrompt, history, input)).text
            && (r.isUrgent <==> exists k, i, j :: KeywordAt(input, k, i, j))
  {
    UrgentIffKeywordStretch(input);
  }
}
