/** The prompt/completion to chat-message conversion of load.py. */
module Load {
  import opened Wrappers
  import opened Text
  import opened PyJson

  /** The persona used when the caller names none. */
  const DefaultSystemMessage: string := "You are a rap lyric generator."

  // ---------------------------------------------------------------------
  // The three-turn chat record
  // ---------------------------------------------------------------------

  function Turn(role: string, content: string): Value {
    Obj(map["role" := Str(role), "content" := Str(content)])
  }

  /** `{"messages": [system turn, user turn, assistant turn]}`. */
  function ChatRecord(system: string, user: string, assistant: string): Value {
    Obj(map["messages" := Arr([Turn("system", system), Turn("user", user), Turn("assistant", assistant)])])
  }

  /** Reads one `{"role": ..., "content": ...}` turn back. */
  function ReadTurn(v: Value): Option<(string, string)> {
    if && v.Obj?
       && "role" in v.fields && v.fields["role"].Str?
       && "content" in v.fields && v.fields["content"].Str?
    then Some((v.fields["role"].s, v.fields["content"].s))
    else None
  }

  function ReadTurnList(xs: seq<Value>): Option<seq<(string, string)>> {
    if xs == [] then Some([])
    else
      var head, tail := ReadTurn(xs[0]), ReadTurnList(xs[1..]);
      if head.Some? && tail.Some? then Some([head.value] + tail.value) else None
  }

  /** Reads the role/content pairs of a `messages` record back, in order. */
  function ReadTurns(v: Value): Option<seq<(string, string)>> {
    if v.Obj? && "messages" in v.fields && v.fields["messages"].Arr?
    then ReadTurnList(v.fields["messages"].items)
    else None
  }

  lemma ReadTurnListCons(x: Value, xs: seq<Value>)
    ensures ReadTurnList([x] + xs)
         == if ReadTurn(x).Some? && ReadTurnList(xs).Some? then Some([ReadTurn(x).value] + ReadTurnList(xs).value) else None
  {
    assert ([x] + xs)[1..] == xs;
  }

  /** A built record holds exactly three turns, system, user and assistant,
      with the given contents. */
  lemma ChatRecordReadsBack(system: string, user: string, assistant: string)
    ensures ReadTurns(ChatRecord(system, user, assistant))
         == Some([("system", system), ("user", user), ("assistant", assistant)])
  {
    var t0, t1, t2 := Turn("system", system), Turn("user", user), Turn("assistant", assistant);
    assert ReadTurnList([]) == Some([]);
    ReadTurnListCons(t2, []);
    ReadTurnListCons(t1, [t2]);
    ReadTurnListCons(t0, [t1, t2]);
    assert [t2] + [] == [t2] && [t1] + [t2] == [t1, t2] && [t0] + [t1, t2] == [t0, t1, t2];
    var p0, p1, p2 := ("system", system), ("user", user), ("assistant", assistant);
    assert [p2] + [] == [p2] && [p1] + [p2] == [p1, p2] && [p0] + [p1, p2] == [p0, p1, p2];
  }

  // ---------------------------------------------------------------------
  // new_item["messages"][2]["content"], read and assigned in place
  // ---------------------------------------------------------------------

  predicate HasAssistantSlot(v: Value) {
    && v.Obj? && "messages" in v.fields && v.fields["messages"].Arr?
    && |v.fields["messages"].items| == 3
    && v.fields["messages"].items[2].Obj?
    && "content" in v.fields["messages"].items[2].fields
    && v.fields["messages"].items[2].fields["content"].Str?
  }

  function AssistantContent(v: Value): string
    requires HasAssistantSlot(v)
  {
    v.fields["messages"].items[2].fields["content"].s
  }

  /** The record after `v["messages"][2]["content"] = content`. */
  function SetAssistantContent(v: Value, content: string): (r: Value)
    requires HasAssistantSlot(v)
    ensures HasAssistantSlot(r) && AssistantContent(r) == content
  {
    var turns := v.fields["messages"].items;
    Obj(v.fields["messages" := Arr(turns[2 := Obj(turns[2].fields["content" := Str(content)])])])
  }

  /** Assigning the assistant content of a chat record changes that content
      and nothing else. */
  lemma SetAssistantContentOfChatRecord(system: string, user: string, assistant: string, content: string)
    ensures HasAssistantSlot(ChatRecord(system, user, assistant))
    ensures AssistantContent(ChatRecord(system, user, assistant)) == assistant
    ensures SetAssistantContent(ChatRecord(system, user, assistant), content) == ChatRecord(system, user, content)
  {
    var t0, t1 := Turn("system", system), Turn("user", user);
    var turns := [t0, t1, Turn("assistant", assistant)];
    assert Turn("assistant", assistant).fields["content" := Str(content)] == Turn("assistant", content).fields;
    assert turns[2 := Turn("assistant", content)] == [t0, t1, Turn("assistant", content)];
    var outer := ChatRecord(system, user, assistant).fields;
    assert outer["messages" := Arr([t0, t1, Turn("assistant", content)])] == ChatRecord(system, user, content).fields;
  }

  // ---------------------------------------------------------------------
  // Assistant-content normalisation
  // ---------------------------------------------------------------------

  /** The two conditional edits applied to the (already stripped) assistant
      content: drop one leading space, then drop one trailing " END". */
  function CleanAssistant(content: string): string {
    var unspaced := if StartsWith(content, " ") then content[1..] else content;
    if EndsWith(unspaced, " END") then unspaced[..|unspaced| - 4] else unspaced
  }

  /** After `strip()` the leading-space edit has nothing to remove. */
  lemma LeadingSpaceBranchUnreachable(completion: string)
    ensures !StartsWith(Strip(completion), " ")
  {
    StripEnds(completion);
  }

  /** The assistant content is the stripped completion with one trailing
      " END" removed when there is one; it is a prefix of the stripped
      completion and never begins with whitespace. */
  lemma AssistantContentOfCompletion(completion: string)
    ensures var t := Strip(completion);
            var r := CleanAssistant(t);
            && StartsWith(t, r)
            && (EndsWith(t, " END") ==> r + " END" == t)
            && (!EndsWith(t, " END") ==> r == t)
            && (r == [] || !IsWhitespace(r[0]))
  {
    var t := Strip(completion);
    StripEnds(completion);
    LeadingSpaceBranchUnreachable(completion);
    if EndsWith(t, " END") {
      var r := t[..|t| - 4];
      assert r + " END" == t[..|t| - 4] + t[|t| - 4..];
      if r != [] {
        assert r[0] == t[0];
      }
    }
  }

  /** Only one " END" is removed: a completion ending " END END" keeps one. */
  lemma EndTokenRemovedOnce(completion: string, body: string)
    requires Strip(completion) == body + " END END"
    ensures CleanAssistant(Strip(completion)) == body + " END"
  {
    AssistantContentOfCompletion(completion);
    var t := Strip(completion);
    assert t[|t| - 4..] == " END";
    assert (body + " END") + " END" == t;
  }

  /** Whitespace before " END" survives: for any body that starts with a
      non-whitespace character and ends with whitespace, the completion
      `body + " END"` becomes `body`, so the assistant content can end with
      whitespace. */
  lemma TrailingWhitespaceCanRemain(body: string)
    requires |body| > 0 && !IsWhitespace(body[0]) && IsWhitespace(body[|body| - 1])
    ensures CleanAssistant(Strip(body + " END")) == body
    ensures var r := CleanAssistant(Strip(body + " END"));
            |r| > 0 && IsWhitespace(r[|r| - 1])
  {
    var t := body + " END";
    assert t[0] == body[0] && t[|t| - 1] == 'D';
    StripKeeps(t);
    assert t[..1] == [body[0]];
    assert t[|t| - 4..] == " END";
    assert t[..|t| - 4] == body;
  }

  // ---------------------------------------------------------------------
  // One input line
  // ---------------------------------------------------------------------

  /** What one input line does. */
  datatype LineOutcome =
    | Passthrough(item: Value)          // already has "messages", appended as is
    | Converted(item: Value)            // prompt/completion turned into a chat record
    | SkippedUnparsable(text: string)   // json.loads raised JSONDecodeError
    | SkippedMissingFields(text: string)// neither shape present
    | Raised(error: PyError)            // an uncaught exception ends the run

  /** A printed warning, carrying the stripped line. */
  datatype Warning = CouldNotParse(text: string) | MissingFields(text: string)

  /** `item["prompt"].strip()` then `item["completion"].strip()`, in the
      order the dict display evaluates them. */
  function StrippedPair(item: Value): Result<(string, string), PyError> {
    var prompt :- Subscript(item, "prompt");
    var user :- StripText(prompt);
    var completion :- Subscript(item, "completion");
    var assistant :- StripText(completion);
    Success((user, assistant))
  }

  /** The per-line classification, as a function of the line, the JSON
      decoder and the system message. */
  function ConvertLine(line: string, parse: string -> Option<Value>, systemMessage: string): (o: LineOutcome)
    ensures (o.Passthrough? || o.Converted?) ==> Contains(o.item, "messages") == Some(true)
  {
    var text := Strip(line);
    match parse(text)
    case None => SkippedUnparsable(text)
    case Some(item) =>
      match Contains(item, "messages")
      case None => Raised(TypeError)
      case Some(true) => Passthrough(item)
      case Some(false) =>
        if Contains(item, "prompt") == Some(true) && Contains(item, "completion") == Some(true) then
          match StrippedPair(item)
          case Failure(e) => Raised(e)
          case Success((user, assistant)) =>
            Converted(ChatRecord(systemMessage, user, CleanAssistant(assistant)))
        else
          SkippedMissingFields(text)
  }

  /** The per-line body of the loop: parse, classify, build the record and
      edit its assistant content in place. */
  method ProcessLine(line: string, parse: string -> Option<Value>, systemMessage: string)
    returns (o: LineOutcome)
    ensures o == ConvertLine(line, parse, systemMessage)
  {
    var text := Strip(line);
    var parsed := parse(text);
    if parsed.None? {
      return SkippedUnparsable(text);
    }
    var item := parsed.value;
    var hasMessages := Contains(item, "messages");
    if hasMessages.None? {
      return Raised(TypeError);
    }
    if hasMessages.value {
      return Passthrough(item);
    }
    if Contains(item, "prompt") != Some(true) || Contains(item, "completion") != Some(true) {
      return SkippedMissingFields(text);
    }
    var prompt := Subscript(item, "prompt");
    if prompt.Failure? {
      return Raised(prompt.error);
    }
    var user := StripText(prompt.value);
    if user.Failure? {
      return Raised(user.error);
    }
    // The prompt lookup succeeded, so `item` is a dict, and it holds
    // "completion": this lookup cannot raise.
    var completion := Subscript(item, "completion");
    var assistant := StripText(completion.value);
    if assistant.Failure? {
      return Raised(assistant.error);
    }
    var newItem := ChatRecord(systemMessage, user.value, assistant.value);
    ghost var content := assistant.value;
    SetAssistantContentOfChatRecord(systemMessage, user.value, content, content);
    if StartsWith(AssistantContent(newItem), " ") {
      SetAssistantContentOfChatRecord(systemMessage, user.value, content, content[1..]);
      newItem := SetAssistantContent(newItem, AssistantContent(newItem)[1..]);
      content := content[1..];
      SetAssistantContentOfChatRecord(systemMessage, user.value, content, content);
    }
    if EndsWith(AssistantContent(newItem), " END") {
      SetAssistantContentOfChatRecord(systemMessage, user.value, content, content[..|content| - 4]);
      var c := AssistantContent(newItem);
      newItem := SetAssistantContent(newItem, c[..|c| - 4]);
    }
    return Converted(newItem);
  }

  /** A parsed value for which `"messages" in item` holds is appended
      unchanged, whatever other keys it has; for a dict that means it has the
      key "messages". */
  lemma MessagesPassThrough(line: string, parse: string -> Option<Value>, systemMessage: string, item: Value)
    requires parse(Strip(line)) == Some(item) && Contains(item, "messages") == Some(true)
    ensures ConvertLine(line, parse, systemMessage) == Passthrough(item)
    ensures item.Obj? ==> "messages" in item.fields
  {
  }

  /** A number, bool or null at top level makes `"messages" in item` raise
      TypeError, which nothing catches. */
  lemma ScalarLineRaises(line: string, parse: string -> Option<Value>, systemMessage: string, item: Value)
    requires parse(Strip(line)) == Some(item) && (item.Null? || item.Bool? || item.Num?)
    ensures ConvertLine(line, parse, systemMessage) == Raised(TypeError)
  {
  }

  /** A record with string "prompt" and "completion" and no "messages"
      becomes three turns: the system message verbatim, the stripped prompt,
      and the normalised completion. */
  lemma PromptCompletionConverted(line: string, parse: string -> Option<Value>, systemMessage: string,
                                  fields: map<string, Value>, prompt: string, completion: string)
    requires parse(Strip(line)) == Some(Obj(fields)) && "messages" !in fields
    requires "prompt" in fields && fields["prompt"] == Str(prompt)
    requires "completion" in fields && fields["completion"] == Str(completion)
    ensures ConvertLine(line, parse, systemMessage)
         == Converted(ChatRecord(systemMessage, Strip(prompt), CleanAssistant(Strip(completion))))
    ensures var o := ConvertLine(line, parse, systemMessage);
            ReadTurns(o.item) == Some([("system", systemMessage),
                                          ("user", Strip(prompt)),
                                          ("assistant", CleanAssistant(Strip(completion)))])
  {
    ChatRecordReadsBack(systemMessage, Strip(prompt), CleanAssistant(Strip(completion)));
  }

  /** A prompt or completion that is not a str has no `.strip()`: the
      AttributeError is not caught and ends the run. */
  lemma NonStringFieldRaises(line: string, parse: string -> Option<Value>, systemMessage: string, fields: map<string, Value>)
    requires parse(Strip(line)) == Some(Obj(fields)) && "messages" !in fields
    requires "prompt" in fields && "completion" in fields
    requires !fields["prompt"].Str? || !fields["completion"].Str?
    ensures ConvertLine(line, parse, systemMessage) == Raised(AttributeError)
  {
  }

  /** A record with neither shape is dropped with a warning. */
  lemma MissingFieldsSkipped(line: string, parse: string -> Option<Value>, systemMessage: string, fields: map<string, Value>)
    requires parse(Strip(line)) == Some(Obj(fields)) && "messages" !in fields
    requires "prompt" !in fields || "completion" !in fields
    ensures ConvertLine(line, parse, systemMessage) == SkippedMissingFields(Strip(line))
  {
  }

  /** A line json.loads rejects is dropped with a warning. */
  lemma UnparsableSkipped(line: string, parse: string -> Option<Value>, systemMessage: string)
    requires parse(Strip(line)).None?
    ensures ConvertLine(line, parse, systemMessage) == SkippedUnparsable(Strip(line))
  {
  }

  lemma ExampleAssistantContent()
    ensures CleanAssistant(Strip(" Yo yo yo END")) == "Yo yo yo"
  {
    StripKeeps("Yo yo yo END");
    StripDropsLeading(' ', "Yo yo yo END");
    assert [' '] + "Yo yo yo END" == " Yo yo yo END";
    var t := "Yo yo yo END";
    assert t[|t| - 4..] == " END";
    assert t[..|t| - 4] == "Yo yo yo";
  }

  /** The worked example: `{"prompt": "Write a verse", "completion": " Yo yo yo END"}`
      with the default persona. */
  lemma ExampleLine(line: string, parse: string -> Option<Value>)
    requires parse(Strip(line)) == Some(Obj(map["prompt" := Str("Write a verse"), "completion" := Str(" Yo yo yo END")]))
    ensures ConvertLine(line, parse, DefaultSystemMessage)
         == Converted(ChatRecord("You are a rap lyric generator.", "Write a verse", "Yo yo yo"))
  {
    var fields := map["prompt" := Str("Write a verse"), "completion" := Str(" Yo yo yo END")];
    assert "messages" !in fields;
    PromptCompletionConverted(line, parse, DefaultSystemMessage, fields, "Write a verse", " Yo yo yo END");
    StripKeeps("Write a verse");
    ExampleAssistantContent();
  }

  // ---------------------------------------------------------------------
  // The whole run, as a fold of a per-line step over the lines
  // ---------------------------------------------------------------------

  /** The classification of one line, as the step of the fold. */
  function Step(parse: string -> Option<Value>, systemMessage: string): string -> LineOutcome {
    line => ConvertLine(line, parse, systemMessage)
  }

  function Outcomes(lines: seq<string>, step: string -> LineOutcome): seq<LineOutcome> {
    seq(|lines|, k requires 0 <= k < |lines| => step(lines[k]))
  }

  /** The index of the first line that raised, if any. */
  function FirstRaised(os: seq<LineOutcome>): (r: Option<nat>)
    ensures r.Some? ==> r.value < |os| && os[r.value].Raised?
    ensures forall k :: 0 <= k < |os| && (r.None? || k < r.value) ==> !os[k].Raised?
  {
    if os == [] then None
    else if os[0].Raised? then Some(0)
    else
      match FirstRaised(os[1..])
      case None => None
      case Some(k) => Some(k + 1)
  }

  /** How many lines the loop got through before an exception, if any. */
  function Processed(os: seq<LineOutcome>): (n: nat)
    ensures n <= |os|
  {
    match FirstRaised(os)
    case Some(k) => k
    case None => |os|
  }

  function FlatMap<T>(os: seq<LineOutcome>, f: LineOutcome -> seq<T>): seq<T> {
    if os == [] then [] else f(os[0]) + FlatMap(os[1..], f)
  }

  /** The record a line appends to `converted_data`, if any. */
  function Kept(o: LineOutcome): seq<Value> {
    if o.Passthrough? || o.Converted? then [o.item] else []
  }

  /** The warning a line prints, if any. */
  function WarningOf(o: LineOutcome): seq<Warning> {
    match o
    case SkippedUnparsable(text) => [CouldNotParse(text)]
    case SkippedMissingFields(text) => [MissingFields(text)]
    case _ => []
  }

  /** Either the records written (and the count printed), or the line whose
      uncaught exception ended the run before anything was written. */
  datatype RunResult = Completed(records: seq<Value>, reported: nat) | Aborted(line: nat, error: PyError)

  function RunSteps(lines: seq<string>, step: string -> LineOutcome): RunResult {
    var os := Outcomes(lines, step);
    match FirstRaised(os)
    case Some(k) => Aborted(k, os[k].error)
    case None => Completed(FlatMap(os, Kept), |FlatMap(os, Kept)|)
  }

  function WarningsSteps(lines: seq<string>, step: string -> LineOutcome): seq<Warning> {
    var os := Outcomes(lines, step);
    FlatMap(os[..Processed(os)], WarningOf)
  }

  /** The result of convert_to_chat_format over `lines`. */
  function Run(lines: seq<string>, parse: string -> Option<Value>, systemMessage: string := DefaultSystemMessage): RunResult {
    RunSteps(lines, Step(parse, systemMessage))
  }

  /** The warnings printed, up to the end or to the line that raised. */
  function RunWarnings(lines: seq<string>, parse: string -> Option<Value>, systemMessage: string := DefaultSystemMessage): seq<Warning> {
    WarningsSteps(lines, Step(parse, systemMessage))
  }

  /** convert_to_chat_format, with the file read as `lines` and the file
      written as the records of the result. */
  method ConvertToChatFormat(lines: seq<string>, parse: string -> Option<Value>, systemMessage: string := DefaultSystemMessage)
    returns (result: RunResult, warnings: seq<Warning>)
    ensures result == Run(lines, parse, systemMessage)
    ensures warnings == RunWarnings(lines, parse, systemMessage)
  {
    ghost var step := Step(parse, systemMessage);
    ghost var os := Outcomes(lines, step);
    var convertedData: seq<Value> := [];
    warnings := [];
    var i := 0;
    while i < |lines|
      invariant 0 <= i <= |lines|
      invariant FirstRaised(os[..i]) == None
      invariant convertedData == FlatMap(os[..i], Kept)
      invariant warnings == FlatMap(os[..i], WarningOf)
    {
      var outcome := ProcessLine(lines[i], parse, systemMessage);
      assert outcome == os[i];
      PrefixStep(os, i);
      match outcome {
        case Raised(e) =>
          result := Aborted(i, e);
          return;
        case Passthrough(item) =>
          convertedData := convertedData + [item];
        case Converted(item) =>
          convertedData := convertedData + [item];
        case SkippedUnparsable(text) =>
          warnings := warnings + [CouldNotParse(text)];
        case SkippedMissingFields(text) =>
          warnings := warnings + [MissingFields(text)];
      }
      i := i + 1;
    }
    assert os[..i] == os;
    result := Completed(convertedData, |convertedData|);
  }

  // ---------------------------------------------------------------------
  // Properties of the run
  // ---------------------------------------------------------------------

  lemma {:induction false} FlatMapAppend<T>(a: seq<LineOutcome>, b: seq<LineOutcome>, f: LineOutcome -> seq<T>)
    ensures FlatMap(a + b, f) == FlatMap(a, f) + FlatMap(b, f)
  {
    if a == [] {
      assert a + b == b;
    } else {
      assert (a + b)[1..] == a[1..] + b;
      FlatMapAppend(a[1..], b, f);
    }
  }

  lemma {:induction false} FirstRaisedAppend(a: seq<LineOutcome>, b: seq<LineOutcome>)
    ensures FirstRaised(a + b) == match FirstRaised(a)
                                  case Some(k) => Some(k)
                                  case None => match FirstRaised(b)
                                               case Some(k) => Some(|a| + k)
                                               case None => None
  {
    if a == [] {
      assert a + b == b;
    } else {
      assert (a + b)[1..] == a[1..] + b;
      FirstRaisedAppend(a[1..], b);
    }
  }

  /** What one more iteration of the loop adds to the prefix it has done. */
  lemma PrefixStep(os: seq<LineOutcome>, i: nat)
    requires i < |os| && FirstRaised(os[..i]) == None
    ensures FlatMap(os[..i + 1], Kept) == FlatMap(os[..i], Kept) + Kept(os[i])
    ensures FlatMap(os[..i + 1], WarningOf) == FlatMap(os[..i], WarningOf) + WarningOf(os[i])
    ensures os[i].Raised? ==> FirstRaised(os) == Some(i) && Processed(os) == i
    ensures !os[i].Raised? ==> FirstRaised(os[..i + 1]) == None
  {
    assert os[..i + 1] == os[..i] + [os[i]];
    FlatMapAppend(os[..i], [os[i]], Kept);
    FlatMapAppend(os[..i], [os[i]], WarningOf);
    FirstRaisedStep(os, i);
  }

  lemma FirstRaisedStep(os: seq<LineOutcome>, i: nat)
    requires i < |os| && FirstRaised(os[..i]) == None
    ensures os[i].Raised? ==> FirstRaised(os) == Some(i)
    ensures !os[i].Raised? ==> FirstRaised(os[..i + 1]) == None
  {
    forall k | 0 <= k < i ensures !os[k].Raised? {
      assert os[..i][k] == os[k];
    }
    var done := os[..i + 1];
    forall k | 0 <= k < |done| ensures done[k] == os[k] {
    }
  }

  /** How two runs compose when their inputs are concatenated. */
  function AndThen(first: RunResult, second: RunResult, offset: nat): RunResult {
    match first
    case Aborted(_, _) => first
    case Completed(x, _) =>
      match second
      case Aborted(k, e) => Aborted(offset + k, e)
      case Completed(y, _) => Completed(x + y, |x + y|)
  }

  lemma RunStepsConcat(a: seq<string>, b: seq<string>, step: string -> LineOutcome)
    ensures RunSteps(a + b, step) == AndThen(RunSteps(a, step), RunSteps(b, step), |a|)
  {
    var oa, ob := Outcomes(a, step), Outcomes(b, step);
    assert Outcomes(a + b, step) == oa + ob;
    FirstRaisedAppend(oa, ob);
    FlatMapAppend(oa, ob, Kept);
  }

  /** Lines are processed independently and in order: the run over `a + b`
      is the run over `a` followed by the run over `b`. */
  lemma RunConcat(a: seq<string>, b: seq<string>, parse: string -> Option<Value>, systemMessage: string)
    ensures Run(a + b, parse, systemMessage) == AndThen(Run(a, parse, systemMessage), Run(b, parse, systemMessage), |a|)
  {
    RunStepsConcat(a, b, Step(parse, systemMessage));
  }

  lemma RunStepsSingle(line: string, step: string -> LineOutcome)
    ensures RunSteps([line], step) == match step(line)
                                      case Passthrough(v) => Completed([v], 1)
                                      case Converted(v) => Completed([v], 1)
                                      case Raised(e) => Aborted(0, e)
                                      case _ => Completed([], 0)
  {
    var os := Outcomes([line], step);
    assert os == [step(line)] && os[1..] == [];
    assert FirstRaised(os[1..]) == None && FlatMap(os[1..], Kept) == [];
  }

  /** The run over a single line: its record, nothing, or its exception. */
  lemma RunSingle(line: string, parse: string -> Option<Value>, systemMessage: string)
    ensures Run([line], parse, systemMessage) == match ConvertLine(line, parse, systemMessage)
                                                 case Passthrough(v) => Completed([v], 1)
                                                 case Converted(v) => Completed([v], 1)
                                                 case Raised(e) => Aborted(0, e)
                                                 case _ => Completed([], 0)
  {
    RunStepsSingle(line, Step(parse, systemMessage));
  }

  /** A skipped line contributes nothing and the lines after it are still
      processed: the run ends the same way without it, with the same records. */
  lemma SkippedLineContributesNothing(a: seq<string>, line: string, b: seq<string>, parse: string -> Option<Value>, systemMessage: string)
    requires ConvertLine(line, parse, systemMessage).SkippedUnparsable? || ConvertLine(line, parse, systemMessage).SkippedMissingFields?
    ensures Run(a + [line] + b, parse, systemMessage).Completed? == Run(a + b, parse, systemMessage).Completed?
    ensures Run(a + [line] + b, parse, systemMessage).Completed?
            ==> Run(a + [line] + b, parse, systemMessage).records == Run(a + b, parse, systemMessage).records
  {
    var step := Step(parse, systemMessage);
    RunStepsSingle(line, step);
    RunStepsConcat(a, [line], step);
    RunStepsConcat(a + [line], b, step);
    RunStepsConcat(a, b, step);
  }

  lemma {:induction false} RecordsPlusWarnings(os: seq<LineOutcome>)
    requires forall k :: 0 <= k < |os| ==> !os[k].Raised?
    ensures |FlatMap(os, Kept)| + |FlatMap(os, WarningOf)| == |os|
  {
    if os != [] {
      RecordsPlusWarnings(os[1..]);
    }
  }

  /** The count printed is the number of records written, and every line
      produced either a record or a warning; so there is at most one record
      per input line. */
  lemma RunAccountsForEveryLine(lines: seq<string>, parse: string -> Option<Value>, systemMessage: string)
    requires Run(lines, parse, systemMessage).Completed?
    ensures Run(lines, parse, systemMessage).reported == |Run(lines, parse, systemMessage).records|
    ensures |Run(lines, parse, systemMessage).records| + |RunWarnings(lines, parse, systemMessage)| == |lines|
    ensures Run(lines, parse, systemMessage).reported <= |lines|
  {
    var os := Outcomes(lines, Step(parse, systemMessage));
    assert os[..Processed(os)] == os;
    RecordsPlusWarnings(os);
  }

  /** Every outcome that keeps a record keeps one with "messages". */
  ghost predicate KeepsMessages(o: LineOutcome) {
    (o.Passthrough? || o.Converted?) ==> Contains(o.item, "messages") == Some(true)
  }

  lemma {:induction false} KeptHaveMessages(os: seq<LineOutcome>)
    requires forall k :: 0 <= k < |os| ==> KeepsMessages(os[k])
    ensures forall k :: 0 <= k < |FlatMap(os, Kept)| ==> Contains(FlatMap(os, Kept)[k], "messages") == Some(true)
  {
    if os != [] {
      KeptHaveMessages(os[1..]);
    }
  }

  /** Every record written has "messages". */
  lemma RecordsHaveMessages(lines: seq<string>, parse: string -> Option<Value>, systemMessage: string)
    requires Run(lines, parse, systemMessage).Completed?
    ensures forall k :: 0 <= k < |Run(lines, parse, systemMessage).records| ==>
              Contains(Run(lines, parse, systemMessage).records[k], "messages") == Some(true)
  {
    var os := Outcomes(lines, Step(parse, systemMessage));
    forall k | 0 <= k < |os| ensures KeepsMessages(os[k]) {
      var o := ConvertLine(lines[k], parse, systemMessage);
      assert os[k] == o;
    }
    KeptHaveMessages(os);
  }

  lemma {:induction false} AllPassthrough(os: seq<LineOutcome>, records: seq<Value>)
    requires |os| == |records|
    requires forall k :: 0 <= k < |os| ==> os[k] == Passthrough(records[k])
    ensures FirstRaised(os) == None
    ensures FlatMap(os, Kept) == records
  {
    if os != [] {
      AllPassthrough(os[1..], records[1..]);
    }
  }

  /** Converting the written records again, whatever the system message,
      writes the same records: each one now has "messages" and passes through. */
  lemma RerunPassesThrough(lines: seq<string>, parse: string -> Option<Value>, systemMessage: string,
                           written: seq<string>, systemMessage': string)
    requires Run(lines, parse, systemMessage).Completed?
    requires |written| == |Run(lines, parse, systemMessage).records|
    requires forall k :: 0 <= k < |written| ==> parse(Strip(written[k])) == Some(Run(lines, parse, systemMessage).records[k])
    ensures Run(written, parse, systemMessage') == Run(lines, parse, systemMessage)
  {
    var records := Run(lines, parse, systemMessage).records;
    RecordsHaveMessages(lines, parse, systemMessage);
    var os := Outcomes(written, Step(parse, systemMessage'));
    forall k | 0 <= k < |os| ensures os[k] == Passthrough(records[k]) {
      assert os[k] == ConvertLine(written[k], parse, systemMessage');
    }
    AllPassthrough(os, records);
  }
}
