/**
 Rebuilding a cold session from a chain of stored responses: the chain becomes
 messages (internal/copilotgw/response_hydration.go), and the messages become session
 events (internal/hydration/hydration.go).
 */
module ResponseHistory {
  import opened Common
  import WarmInput

  type Id = nat

  /** Call ids are only compared; the empty one is no id. */
  datatype CallId = Unset | CallId(number: nat)

  /** An argument text: none at all, one JSON value, or anything else. */
  datatype Arguments = NoArguments | JsonValue(text: string) | NotJson(text: string)

  datatype ItemKind = FunctionCall | CustomToolCall | ToolSearchCall | Reasoning | OtherItem

  datatype OutputItem = OutputItem(kind: ItemKind, callId: CallId, namespace: string, name: string,
                                   arguments: Arguments, argumentsJson: Arguments, input: string, summary: seq<string>)

  datatype OutputKind = Untyped | FunctionCallOutput | OtherOutput

  datatype ToolOutput = ToolOutput(kind: OutputKind, callId: CallId, output: string)

  /** A catalog a tool search loaded: the call it came from and how many tools it holds. */
  datatype LoadedToolEvent = LoadedToolEvent(source: CallId, tools: nat)

  datatype Record = Record(id: Id, previous: Option<Id>, deleted: bool, inputText: string, outputText: string,
                           output: seq<OutputItem>, toolOutputs: seq<ToolOutput>,
                           loadedToolEvents: seq<LoadedToolEvent>)

  type Records = map<Id, Record>

  // ---- The chain -------------------------------------------------------------------

  predicate Loadable(records: Records, id: Id) {
    id in records && !records[id].deleted
  }

  /** Each record names the one before it, no record comes twice. */
  ghost predicate IsChain(records: Records, chain: seq<Record>) {
    && (forall i, j :: 0 <= i < j < |chain| ==> chain[i].id != chain[j].id)
    && (forall i :: 0 <= i < |chain| - 1 ==> Loadable(records, chain[i].id) && records[chain[i].id] == chain[i])
    && (forall i :: 0 < i < |chain| ==> chain[i].previous == Some(chain[i - 1].id))
  }

  /** The oldest record names one that can be loaded and is not in the chain yet. */
  predicate GoesOn(records: Records, chain: seq<Record>)
    requires chain != []
  {
    && chain[0].previous.Some?
    && Loadable(records, chain[0].previous.value)
    && forall i :: 0 <= i < |chain| ==> chain[i].id != chain[0].previous.value
  }

  function IdsOf(records: seq<Record>): (ids: set<Id>)
    ensures forall i :: 0 <= i < |records| ==> records[i].id in ids
    ensures forall id :: id in ids ==> exists i :: 0 <= i < |records| && records[i].id == id
  {
    if records == [] then {} else IdsOf(records[..|records| - 1]) + {records[|records| - 1].id}
  }

  /** The records behind `previous`, oldest first: as long a chain as there is, up to the limit. */
  method ResponseContinuationChain(records: Records, previous: Record) returns (chain: seq<Record>)
    requires forall id :: id in records ==> records[id].id == id
    ensures chain != [] && chain[|chain| - 1] == previous && |chain| <= 20
    ensures IsChain(records, chain)
    ensures |chain| == 20 || !GoesOn(records, chain)
  {
    var newestFirst, seen, id := [previous], {previous.id}, previous.previous;
    while id.Some? && |newestFirst| < WarmInput.RESPONSE_CONTINUATION_CHAIN_LIMIT
      invariant newestFirst != [] && newestFirst[0] == previous
        && |newestFirst| <= WarmInput.RESPONSE_CONTINUATION_CHAIN_LIMIT
      invariant id == newestFirst[|newestFirst| - 1].previous
      invariant seen == IdsOf(newestFirst)
      invariant IsChain(records, WarmInput.Reversed(newestFirst))
      decreases WarmInput.RESPONSE_CONTINUATION_CHAIN_LIMIT - |newestFirst|
    {
      if id.value in seen || !Loadable(records, id.value) {
        break;
      }
      assert (newestFirst + [records[id.value]])[..|newestFirst|] == newestFirst;
      ReversedLonger(newestFirst, records[id.value]);
      Longer(records, WarmInput.Reversed(newestFirst), records[id.value]);
      seen := seen + {id.value};
      newestFirst := newestFirst + [records[id.value]];
      id := records[id.value].previous;
    }
    chain := WarmInput.Reversed(newestFirst);
    assert forall i :: 0 <= i < |newestFirst| ==> newestFirst[i].id == chain[|chain| - 1 - i].id;
  }

  lemma {:induction false} ReversedLonger<T>(s: seq<T>, x: T)
    ensures WarmInput.Reversed(s + [x]) == [x] + WarmInput.Reversed(s)
  {
    if s != [] {
      assert (s + [x])[1..] == s[1..] + [x];
      ReversedLonger(s[1..], x);
    } else {
      assert [x][1..] == [];
    }
  }

  lemma Longer(records: Records, chain: seq<Record>, record: Record)
    requires chain != [] && IsChain(records, chain)
    requires Loadable(records, record.id) && records[record.id] == record
    requires chain[0].previous == Some(record.id)
    requires forall i :: 0 <= i < |chain| ==> chain[i].id != record.id
    ensures IsChain(records, [record] + chain)
  {
  }

  // ---- Messages ----------------------------------------------------------------------

  datatype Call = Call(id: CallId, name: string, arguments: Arguments)

  /** What a call's summary says of it; each kind of call leaves something out. */
  datatype Summary =
    | FunctionSummary(id: CallId, name: string, arguments: Arguments)
    | CustomSummary(id: CallId, name: string, input: string)
    | SearchSummary(id: CallId, arguments: Arguments)

  /** What a message's text is joined from. */
  datatype Part =
    | Text(text: string)
    | OutputNote(output: ToolOutput)
    | LoadedNote(event: LoadedToolEvent)
    | CallSummary(summary: Summary)

  datatype Message =
    | UserMessage(content: seq<Part>)
    | AssistantMessage(content: seq<Part>, reasoning: seq<string>, calls: seq<Call>)
    | ToolMessage(callId: CallId, output: string)
    | OtherMessage(role: string)

  /** Go's unicode.IsSpace. */
  predicate IsSpace(c: char) {
    || '\U{9}' <= c <= '\U{d}' || c == ' ' || c == '\U{85}' || c == '\U{a0}' || c == '\U{1680}'
    || '\U{2000}' <= c <= '\U{200a}' || c in {'\U{2028}', '\U{2029}', '\U{202f}', '\U{205f}', '\U{3000}'}
  }

  predicate Blank(text: string) {
    forall c :: c in text ==> IsSpace(c)
  }

  predicate IsFunctionOutput(output: ToolOutput) {
    output.kind.Untyped? || output.kind.FunctionCallOutput?
  }

  function FullName(item: OutputItem): string {
    if item.namespace != "" && item.name != "" then item.namespace + "." + item.name else item.name
  }

  function ArgumentsOf(item: OutputItem): Arguments {
    if item.arguments.NoArguments? then item.argumentsJson else item.arguments
  }

  function CallOf(item: OutputItem): Call {
    Call(item.callId, FullName(item), ArgumentsOf(item))
  }

  predicate IsCall(item: OutputItem) {
    item.kind.FunctionCall? || item.kind.CustomToolCall? || item.kind.ToolSearchCall?
  }

  function SummaryOf(item: OutputItem): Summary {
    match item.kind
    case CustomToolCall => CustomSummary(item.callId, item.name, item.input)
    case ToolSearchCall => SearchSummary(item.callId, ArgumentsOf(item))
    case _ =>
      FunctionSummary(item.callId, if item.namespace != "" then item.namespace + "." + item.name else item.name,
                      item.arguments)
  }

  /** A function call somebody answered, with arguments the hydrator can decode. */
  predicate Hydratable(item: OutputItem, answered: set<CallId>) {
    item.kind.FunctionCall? && item.callId != Unset && item.callId in answered && !ArgumentsOf(item).NotJson?
  }

  // The specification, one prefix after another.

  function AnsweredBy(outputs: seq<ToolOutput>, n: nat): set<CallId>
    requires n <= |outputs|
  {
    if n == 0 then {}
    else AnsweredBy(outputs, n - 1)
         + if IsFunctionOutput(outputs[n - 1]) && outputs[n - 1].callId != Unset then {outputs[n - 1].callId} else {}
  }

  function Answered(records: seq<Record>, n: nat): set<CallId>
    requires n <= |records|
  {
    if n == 0 then {}
    else Answered(records, n - 1) + AnsweredBy(records[n - 1].toolOutputs, |records[n - 1].toolOutputs|)
  }

  predicate Replays(output: ToolOutput, declared: set<CallId>) {
    output.callId in declared && IsFunctionOutput(output)
  }

  function ToolMessages(outputs: seq<ToolOutput>, n: nat, declared: set<CallId>): seq<Message>
    requires n <= |outputs|
  {
    if n == 0 then []
    else ToolMessages(outputs, n - 1, declared)
         + if Replays(outputs[n - 1], declared) then [ToolMessage(outputs[n - 1].callId, outputs[n - 1].output)] else []
  }

  function OutputNotes(outputs: seq<ToolOutput>, n: nat, declared: set<CallId>): seq<Part>
    requires n <= |outputs|
  {
    if n == 0 then []
    else OutputNotes(outputs, n - 1, declared)
         + if Replays(outputs[n - 1], declared) then [] else [OutputNote(outputs[n - 1])]
  }

  function LoadedNotes(events: seq<LoadedToolEvent>, n: nat): seq<Part>
    requires n <= |events|
  {
    if n == 0 then []
    else LoadedNotes(events, n - 1) + if events[n - 1].tools == 0 then [] else [LoadedNote(events[n - 1])]
  }

  function Requests(items: seq<OutputItem>, n: nat, answered: set<CallId>): seq<Call>
    requires n <= |items|
  {
    if n == 0 then []
    else Requests(items, n - 1, answered) + if Hydratable(items[n - 1], answered) then [CallOf(items[n - 1])] else []
  }

  function Summaries(items: seq<OutputItem>, n: nat, answered: set<CallId>): seq<Part>
    requires n <= |items|
  {
    if n == 0 then []
    else Summaries(items, n - 1, answered)
         + if IsCall(items[n - 1]) && !Hydratable(items[n - 1], answered) then [CallSummary(SummaryOf(items[n - 1]))]
           else []
  }

  function Declares(items: seq<OutputItem>, n: nat, answered: set<CallId>): set<CallId>
    requires n <= |items|
  {
    if n == 0 then {}
    else Declares(items, n - 1, answered) + if Hydratable(items[n - 1], answered) then {items[n - 1].callId} else {}
  }

  function NonEmpty(texts: seq<string>, n: nat): seq<string>
    requires n <= |texts|
  {
    if n == 0 then [] else NonEmpty(texts, n - 1) + if texts[n - 1] != "" then [texts[n - 1]] else []
  }

  function ReasoningOf(items: seq<OutputItem>, n: nat): seq<string>
    requires n <= |items|
  {
    if n == 0 then []
    else ReasoningOf(items, n - 1)
         + if items[n - 1].kind.Reasoning? then NonEmpty(items[n - 1].summary, |items[n - 1].summary|) else []
  }

  function NotesMessage(record: Record, declared: set<CallId>): seq<Message> {
    var notes := OutputNotes(record.toolOutputs, |record.toolOutputs|, declared)
                 + LoadedNotes(record.loadedToolEvents, |record.loadedToolEvents|);
    if notes == [] then [] else [UserMessage(notes)]
  }

  function InputMessage(record: Record): seq<Message> {
    if Blank(record.inputText) then [] else [UserMessage([Text(record.inputText)])]
  }

  function AssistantContent(text: string, summaries: seq<Part>): seq<Part> {
    if summaries == [] then (if text == "" then [] else [Text(text)])
    else if Blank(text) then summaries
    else [Text(text)] + summaries
  }

  function Assistant(record: Record, answered: set<CallId>): seq<Message> {
    var content := AssistantContent(record.outputText, Summaries(record.output, |record.output|, answered));
    var reasoning := ReasoningOf(record.output, |record.output|);
    var calls := Requests(record.output, |record.output|, answered);
    if content == [] && reasoning == [] && calls == [] then [] else [AssistantMessage(content, reasoning, calls)]
  }

  function RecordMessages(record: Record, answered: set<CallId>, declared: set<CallId>): seq<Message> {
    ToolMessages(record.toolOutputs, |record.toolOutputs|, declared)
    + NotesMessage(record, declared) + InputMessage(record) + Assistant(record, answered)
  }

  function Declared(records: seq<Record>, n: nat, answered: set<CallId>): set<CallId>
    requires n <= |records|
  {
    if n == 0 then {}
    else Declared(records, n - 1, answered) + Declares(records[n - 1].output, |records[n - 1].output|, answered)
  }

  function MessagesOf(records: seq<Record>, n: nat, answered: set<CallId>): seq<Message>
    requires n <= |records|
  {
    if n == 0 then []
    else
      MessagesOf(records, n - 1, answered)
      + RecordMessages(records[n - 1], answered, Declared(records, n - 1, answered))
  }

  function History(records: seq<Record>): seq<Message> {
    MessagesOf(records, |records|, Answered(records, |records|))
  }

  // ---- Who said what ------------------------------------------------------------------

  datatype Speaker = User | Thinking | Assistant

  datatype Line = Line(speaker: Speaker, text: string)

  /** What the records say, read off their fields, oldest first. */
  function Thought(text: string): seq<Line> {
    if text == "" then [] else [Line(Thinking, text)]
  }

  function ThoughtsIn(summary: seq<string>): seq<Line> {
    if summary == [] then [] else Thought(summary[0]) + ThoughtsIn(summary[1..])
  }

  function ThoughtsOf(item: OutputItem): seq<Line> {
    if item.kind.Reasoning? then ThoughtsIn(item.summary) else []
  }

  function Thoughts(items: seq<OutputItem>): seq<Line> {
    if items == [] then [] else ThoughtsOf(items[0]) + Thoughts(items[1..])
  }

  /** A text of white space alone is not told beside summaries of calls. */
  predicate TellsOutput(record: Record, answered: set<CallId>) {
    && record.outputText != ""
    && (!Blank(record.outputText)
        || forall i :: 0 <= i < |record.output| && IsCall(record.output[i]) ==> Hydratable(record.output[i], answered))
  }

  function Spoken(record: Record, answered: set<CallId>): seq<Line> {
    (if Blank(record.inputText) then [] else [Line(User, record.inputText)])
    + Thoughts(record.output)
    + if TellsOutput(record, answered) then [Line(Speaker.Assistant, record.outputText)] else []
  }

  function Conversation(records: seq<Record>, n: nat, answered: set<CallId>): seq<Line>
    requires n <= |records|
  {
    if n == 0 then [] else Conversation(records, n - 1, answered) + Spoken(records[n - 1], answered)
  }

  /** What messages say, read back from them; notes and summaries of calls are nobody's text. */
  function TextsIn(parts: seq<Part>): seq<string> {
    if parts == [] then [] else TextsIn(parts[..|parts| - 1]) + TextIn(parts[|parts| - 1])
  }

  function TextIn(part: Part): seq<string> {
    if part.Text? then [part.text] else []
  }

  function Lines(speaker: Speaker, texts: seq<string>): (lines: seq<Line>)
    ensures |lines| == |texts| && forall i :: 0 <= i < |texts| ==> lines[i] == Line(speaker, texts[i])
  {
    seq(|texts|, i requires 0 <= i < |texts| => Line(speaker, texts[i]))
  }

  function LinesIn(message: Message): seq<Line> {
    match message
    case UserMessage(content) => Lines(User, TextsIn(content))
    case AssistantMessage(content, reasoning, _) =>
      Lines(Thinking, reasoning) + Lines(Speaker.Assistant, TextsIn(content))
    case _ => []
  }

  function Transcript(messages: seq<Message>): seq<Line> {
    if messages == [] then [] else Transcript(messages[..|messages| - 1]) + LinesIn(messages[|messages| - 1])
  }

  lemma OneMoreText(parts: seq<Part>, part: Part)
    ensures TextsIn(parts + [part]) == TextsIn(parts) + TextIn(part)
  {
    assert (parts + [part])[..|parts|] == parts;
  }

  lemma {:induction false} TextsConcat(a: seq<Part>, b: seq<Part>)
    ensures TextsIn(a + b) == TextsIn(a) + TextsIn(b)
  {
    hide TextIn;
    if b == [] {
      AppendNothing(a);
    } else {
      TextsConcat(a, b[..|b| - 1]);
      assert (a + b)[..|a + b| - 1] == a + b[..|b| - 1];
    }
  }

  lemma OneMessage(m: Message)
    ensures Transcript([m]) == LinesIn(m) && Transcript([]) == []
  {
    hide LinesIn;
    assert [m][..0] == [];
  }

  lemma {:induction false} TranscriptConcat(a: seq<Message>, b: seq<Message>)
    ensures Transcript(a + b) == Transcript(a) + Transcript(b)
  {
    hide LinesIn;
    if b == [] {
      AppendNothing(a);
    } else {
      TranscriptConcat(a, b[..|b| - 1]);
      assert (a + b)[..|a + b| - 1] == a + b[..|b| - 1];
    }
  }

  lemma {:induction false} AnswersSayNothing(outputs: seq<ToolOutput>, n: nat, declared: set<CallId>)
    requires n <= |outputs|
    ensures Transcript(ToolMessages(outputs, n, declared)) == []
    ensures TextsIn(OutputNotes(outputs, n, declared)) == []
  {
    hide Transcript, TextsIn;
    if n == 0 {
      NothingSaid();
    } else {
      AnswersSayNothing(outputs, n - 1, declared);
      var o := outputs[n - 1];
      var messages, notes := ToolMessages(outputs, n - 1, declared), OutputNotes(outputs, n - 1, declared);
      if Replays(o, declared) {
        OneMessage(ToolMessage(o.callId, o.output));
        TranscriptConcat(messages, [ToolMessage(o.callId, o.output)]);
        AppendNothing(notes);
      } else {
        OneMoreText(notes, OutputNote(o));
        AppendNothing(messages);
      }
    }
  }

  lemma NothingSaid()
    ensures Transcript([]) == [] && TextsIn([]) == []
  {
  }

  lemma {:induction false} LoadedNotesSayNothing(events: seq<LoadedToolEvent>, n: nat)
    requires n <= |events|
    ensures TextsIn(LoadedNotes(events, n)) == []
  {
    hide TextsIn;
    NothingSaid();
    if n > 0 {
      LoadedNotesSayNothing(events, n - 1);
      OneMoreText(LoadedNotes(events, n - 1), LoadedNote(events[n - 1]));
      AppendNothing(LoadedNotes(events, n - 1));
    }
  }

  lemma NotesSayNothing(record: Record, declared: set<CallId>)
    ensures Transcript(NotesMessage(record, declared)) == []
  {
    hide Transcript, TextsIn;
    var notes, loaded := OutputNotes(record.toolOutputs, |record.toolOutputs|, declared),
                         LoadedNotes(record.loadedToolEvents, |record.loadedToolEvents|);
    NothingSaid();
    AnswersSayNothing(record.toolOutputs, |record.toolOutputs|, declared);
    LoadedNotesSayNothing(record.loadedToolEvents, |record.loadedToolEvents|);
    TextsConcat(notes, loaded);
    OneMessage(UserMessage(notes + loaded));
  }

  lemma InputIsSaid(record: Record)
    ensures Transcript(InputMessage(record)) ==
      if Blank(record.inputText) then [] else [Line(User, record.inputText)]
  {
    hide Blank;
    NothingSaid();
    OneMessage(UserMessage([Text(record.inputText)]));
    OneMoreText([], Text(record.inputText));
    assert [] + [Text(record.inputText)] == [Text(record.inputText)];
  }

  /** Calls are summarised exactly if some cannot be requested again, and their summaries are nobody's text. */
  lemma {:induction false} SummariesSayNothing(items: seq<OutputItem>, n: nat, answered: set<CallId>)
    requires n <= |items|
    ensures TextsIn(Summaries(items, n, answered)) == []
    ensures Summaries(items, n, answered) == [] <==>
      forall i :: 0 <= i < n && IsCall(items[i]) ==> Hydratable(items[i], answered)
  {
    hide TextsIn, SummaryOf, IsCall, Hydratable;
    NothingSaid();
    if n > 0 {
      SummariesSayNothing(items, n - 1, answered);
      OneMoreText(Summaries(items, n - 1, answered), CallSummary(SummaryOf(items[n - 1])));
      AppendNothing(Summaries(items, n - 1, answered));
    }
  }

  lemma ContentIsSaid(text: string, summaries: seq<Part>)
    requires TextsIn(summaries) == []
    ensures TextsIn(AssistantContent(text, summaries)) ==
      if text != "" && (!Blank(text) || summaries == []) then [text] else []
  {
    hide TextsIn;
    NothingSaid();
    OneMoreText([], Text(text));
    assert [] + [Text(text)] == [Text(text)];
    TextsConcat([Text(text)], summaries);
  }

  lemma Grouped<T>(a: seq<T>, b: seq<T>, c: seq<T>)
    ensures (a + b) + c == a + (b + c)
  {
  }

  lemma {:induction false} ThoughtsInConcat(a: seq<string>, b: seq<string>)
    ensures ThoughtsIn(a + b) == ThoughtsIn(a) + ThoughtsIn(b)
  {
    hide Thought;
    if a == [] {
      assert a + b == b;
    } else {
      ThoughtsInConcat(a[1..], b);
      assert (a + b)[1..] == a[1..] + b;
      Grouped(Thought(a[0]), ThoughtsIn(a[1..]), ThoughtsIn(b));
    }
  }

  lemma {:induction false} ThoughtsConcat(a: seq<OutputItem>, b: seq<OutputItem>)
    ensures Thoughts(a + b) == Thoughts(a) + Thoughts(b)
  {
    hide ThoughtsOf;
    if a == [] {
      assert a + b == b;
    } else {
      ThoughtsConcat(a[1..], b);
      assert (a + b)[1..] == a[1..] + b;
      Grouped(ThoughtsOf(a[0]), Thoughts(a[1..]), Thoughts(b));
    }
  }

  lemma {:induction false} SummaryIsThought(summary: seq<string>, n: nat)
    requires n <= |summary|
    ensures Lines(Thinking, NonEmpty(summary, n)) == ThoughtsIn(summary[..n])
  {
    if n > 0 {
      SummaryIsThought(summary, n - 1);
      assert summary[..n] == summary[..n - 1] + [summary[n - 1]];
      ThoughtsInConcat(summary[..n - 1], [summary[n - 1]]);
    }
  }

  lemma {:induction false} ReasoningIsThought(items: seq<OutputItem>, n: nat)
    requires n <= |items|
    ensures Lines(Thinking, ReasoningOf(items, n)) == Thoughts(items[..n])
  {
    hide NonEmpty, ThoughtsIn;
    if n > 0 {
      ReasoningIsThought(items, n - 1);
      var item := items[n - 1];
      SummaryIsThought(item.summary, |item.summary|);
      assert item.summary[..|item.summary|] == item.summary;
      assert items[..n] == items[..n - 1] + [item];
      ThoughtsConcat(items[..n - 1], [item]);
    }
  }

  lemma AssistantIsSaid(record: Record, answered: set<CallId>)
    ensures Transcript(Assistant(record, answered)) == Thoughts(record.output)
      + if TellsOutput(record, answered) then [Line(Speaker.Assistant, record.outputText)] else []
  {
    hide Transcript, TextsIn, Summaries, ReasoningOf, Requests, Thoughts, Blank, IsCall, Hydratable, AssistantContent;
    NothingSaid();
    var summaries := Summaries(record.output, |record.output|, answered);
    SummariesSayNothing(record.output, |record.output|, answered);
    ContentIsSaid(record.outputText, summaries);
    ReasoningIsThought(record.output, |record.output|);
    assert record.output[..|record.output|] == record.output;
    OneMessage(AssistantMessage(AssistantContent(record.outputText, summaries),
                                ReasoningOf(record.output, |record.output|),
                                Requests(record.output, |record.output|, answered)));
  }

  lemma RecordIsSaid(record: Record, answered: set<CallId>, declared: set<CallId>)
    ensures Transcript(RecordMessages(record, answered, declared)) == Spoken(record, answered)
  {
    hide Transcript, NotesMessage, InputMessage, Assistant, Thoughts, TellsOutput, Blank;
    var tools := ToolMessages(record.toolOutputs, |record.toolOutputs|, declared);
    var notes, input, assistant := NotesMessage(record, declared), InputMessage(record), Assistant(record, answered);
    AnswersSayNothing(record.toolOutputs, |record.toolOutputs|, declared);
    NotesSayNothing(record, declared);
    InputIsSaid(record);
    AssistantIsSaid(record, answered);
    TranscriptConcat(tools, notes);
    TranscriptConcat(tools + notes, input);
    TranscriptConcat(tools + notes + input, assistant);
    AppendNothing(Transcript(tools));
    NothingBefore(Transcript(input));
    Grouped(Transcript(input), Thoughts(record.output),
            if TellsOutput(record, answered) then [Line(Speaker.Assistant, record.outputText)] else []);
  }

  lemma NothingBefore<T>(s: seq<T>)
    ensures [] + s == s
  {
  }

  lemma {:induction false} MessagesAreTheConversation(records: seq<Record>, n: nat, answered: set<CallId>)
    requires n <= |records|
    ensures Transcript(MessagesOf(records, n, answered)) == Conversation(records, n, answered)
  {
    hide RecordMessages, Spoken, LinesIn;
    if n > 0 {
      MessagesAreTheConversation(records, n - 1, answered);
      RecordIsSaid(records[n - 1], answered, Declared(records, n - 1, answered));
      TranscriptConcat(MessagesOf(records, n - 1, answered),
                       RecordMessages(records[n - 1], answered, Declared(records, n - 1, answered)));
    }
  }

  /**
   The history says what the records say, in their order: each input that is not blank
   as one user text, behind it and before the next input the record's reasoning and its
   output text, each once.
   */
  lemma HistoryIsTheConversation(records: seq<Record>)
    ensures Transcript(History(records)) == Conversation(records, |records|, Answered(records, |records|))
  {
    MessagesAreTheConversation(records, |records|, Answered(records, |records|));
  }

  function SaidBy(speaker: Speaker, lines: seq<Line>): seq<string> {
    if lines == [] then []
    else SaidBy(speaker, lines[..|lines| - 1])
         + if lines[|lines| - 1].speaker == speaker then [lines[|lines| - 1].text] else []
  }

  /** The inputs of the first `n` records that are not blank. */
  function Inputs(records: seq<Record>, n: nat): seq<string>
    requires n <= |records|
  {
    if n == 0 then []
    else Inputs(records, n - 1) + if Blank(records[n - 1].inputText) then [] else [records[n - 1].inputText]
  }

  lemma {:induction false} SaidByConcat(speaker: Speaker, a: seq<Line>, b: seq<Line>)
    ensures SaidBy(speaker, a + b) == SaidBy(speaker, a) + SaidBy(speaker, b)
  {
    if b == [] {
      AppendNothing(a);
    } else {
      SaidByConcat(speaker, a, b[..|b| - 1]);
      assert (a + b)[..|a + b| - 1] == a + b[..|b| - 1];
    }
  }

  lemma {:induction false} ThoughtsInByNoUser(summary: seq<string>)
    ensures SaidBy(User, ThoughtsIn(summary)) == []
  {
    if summary != [] {
      ThoughtsInByNoUser(summary[1..]);
      SaidByConcat(User, Thought(summary[0]), ThoughtsIn(summary[1..]));
    }
  }

  lemma {:induction false} ThoughtsByNoUser(items: seq<OutputItem>)
    ensures SaidBy(User, Thoughts(items)) == []
  {
    hide ThoughtsIn;
    if items != [] {
      ThoughtsByNoUser(items[1..]);
      ThoughtsInByNoUser(items[0].summary);
      SaidByConcat(User, ThoughtsOf(items[0]), Thoughts(items[1..]));
    }
  }

  lemma SpokenByUser(record: Record, answered: set<CallId>)
    ensures SaidBy(User, Spoken(record, answered)) == if Blank(record.inputText) then [] else [record.inputText]
  {
    hide Thoughts, Blank, TellsOutput;
    var input := if Blank(record.inputText) then [] else [Line(User, record.inputText)];
    var output := if TellsOutput(record, answered) then [Line(Speaker.Assistant, record.outputText)] else [];
    ThoughtsByNoUser(record.output);
    SaidByConcat(User, input, Thoughts(record.output));
    SaidByConcat(User, input + Thoughts(record.output), output);
  }

  lemma SaidByNobody(speaker: Speaker)
    ensures SaidBy(speaker, []) == []
  {
  }

  lemma {:induction false} ConversationInputs(records: seq<Record>, n: nat, answered: set<CallId>)
    requires n <= |records|
    ensures SaidBy(User, Conversation(records, n, answered)) == Inputs(records, n)
  {
    hide Spoken, Blank, SaidBy;
    if n == 0 {
      SaidByNobody(User);
    } else {
      ConversationInputs(records, n - 1, answered);
      SpokenByUser(records[n - 1], answered);
      SaidByConcat(User, Conversation(records, n - 1, answered), Spoken(records[n - 1], answered));
    }
  }

  /** The user texts of the history that are not notes are the inputs that are not blank, in record order. */
  lemma UserTextsAreTheInputs(records: seq<Record>)
    ensures SaidBy(User, Transcript(History(records))) == Inputs(records, |records|)
  {
    HistoryIsTheConversation(records);
    ConversationInputs(records, |records|, Answered(records, |records|));
  }

  // The loops.

  method AnsweredCalls(records: seq<Record>) returns (answered: set<CallId>)
    ensures answered == Answered(records, |records|)
  {
    answered := {};
    for i := 0 to |records|
      invariant answered == Answered(records, i)
    {
      var outputs, before := records[i].toolOutputs, answered;
      for j := 0 to |outputs|
        invariant answered == before + AnsweredBy(outputs, j)
      {
        if IsFunctionOutput(outputs[j]) && outputs[j].callId != Unset {
          answered := answered + {outputs[j].callId};
        }
      }
    }
  }

  method ResponseContinuationHistory(records: seq<Record>) returns (messages: seq<Message>)
    ensures messages == History(records)
    ensures Transcript(messages) == Conversation(records, |records|, Answered(records, |records|))
  {
    HistoryIsTheConversation(records);
    var answered := AnsweredCalls(records);
    messages := [];
    var declared: set<CallId> := {};
    for i := 0 to |records|
      invariant messages == MessagesOf(records, i, answered) && declared == Declared(records, i, answered)
    {
      messages, declared := AppendResponseRecordHistory(messages, records[i], answered, declared);
    }
  }

  lemma Regroup(messages: seq<Message>, tools: seq<Message>, notes: seq<Message>, input: seq<Message>,
                assistant: seq<Message>)
    ensures (((messages + tools) + notes) + input) + assistant == messages + (tools + notes + input + assistant)
  {
  }

  lemma AppendNothing<T>(s: seq<T>)
    ensures s + [] == s
  {
  }

  method AppendResponseRecordHistory(messages: seq<Message>, record: Record, answered: set<CallId>,
                                     declared: set<CallId>)
    returns (history: seq<Message>, nowDeclared: set<CallId>)
    ensures history == messages + RecordMessages(record, answered, declared)
    ensures Transcript(history) == Transcript(messages) + Spoken(record, answered)
    ensures nowDeclared == declared + Declares(record.output, |record.output|, answered)
  {
    history, nowDeclared := messages, declared;
    var notes := [];
    for i := 0 to |record.toolOutputs|
      invariant history == messages + ToolMessages(record.toolOutputs, i, declared)
      invariant notes == OutputNotes(record.toolOutputs, i, declared)
    {
      var output := record.toolOutputs[i];
      if output.callId in declared && IsFunctionOutput(output) {
        history := history + [ToolMessage(output.callId, output.output)];
        continue;
      }
      notes := notes + [OutputNote(output)];
    }
    var outputNotes := notes;
    for i := 0 to |record.loadedToolEvents|
      invariant notes == outputNotes + LoadedNotes(record.loadedToolEvents, i)
    {
      if record.loadedToolEvents[i].tools == 0 {
        continue;
      }
      notes := notes + [LoadedNote(record.loadedToolEvents[i])];
    }
    if notes != [] {
      history := history + [UserMessage(notes)];
    }
    if !Blank(record.inputText) {
      history := history + [UserMessage([Text(record.inputText)])];
    }
    var assistant: seq<Message>;
    assistant, nowDeclared := AssistantOf(record, answered, declared);
    history := history + assistant;
    Regroup(messages, ToolMessages(record.toolOutputs, |record.toolOutputs|, declared), NotesMessage(record, declared),
            InputMessage(record), Assistant(record, answered));
    AppendNothing(messages + ToolMessages(record.toolOutputs, |record.toolOutputs|, declared));
    AppendNothing(messages + ToolMessages(record.toolOutputs, |record.toolOutputs|, declared)
                  + NotesMessage(record, declared));
    RecordIsSaid(record, answered, declared);
    TranscriptConcat(messages, RecordMessages(record, answered, declared));
  }

  /** The record's assistant message, if it has anything to say, and the calls declared with it. */
  method AssistantOf(record: Record, answered: set<CallId>, declared: set<CallId>)
    returns (message: seq<Message>, nowDeclared: set<CallId>)
    ensures message == Assistant(record, answered)
    ensures nowDeclared == declared + Declares(record.output, |record.output|, answered)
  {
    var reasoning := ResponseRecordReasoning(record);
    var calls, summaries := [], [];
    nowDeclared := declared;
    for i := 0 to |record.output|
      invariant calls == Requests(record.output, i, answered)
      invariant summaries == Summaries(record.output, i, answered)
      invariant nowDeclared == declared + Declares(record.output, i, answered)
    {
      var item := record.output[i];
      match item.kind {
        case FunctionCall =>
          if Hydratable(item, answered) {
            calls := calls + [CallOf(item)];
            nowDeclared := nowDeclared + {item.callId};
            continue;
          }
          summaries := summaries + [CallSummary(SummaryOf(item))];
        case CustomToolCall =>
          summaries := summaries + [CallSummary(SummaryOf(item))];
        case ToolSearchCall =>
          summaries := summaries + [CallSummary(SummaryOf(item))];
        case _ =>
      }
    }
    var content: seq<Part> := if record.outputText == "" then [] else [Text(record.outputText)];
    if summaries != [] {
      if Blank(record.outputText) {
        content := summaries;
      } else {
        content := content + summaries;
      }
    }
    message := [];
    if content != [] || reasoning != [] || calls != [] {
      message := [AssistantMessage(content, reasoning, calls)];
    }
  }

  method ResponseRecordReasoning(record: Record) returns (parts: seq<string>)
    ensures parts == ReasoningOf(record.output, |record.output|)
  {
    parts := [];
    for i := 0 to |record.output|
      invariant parts == ReasoningOf(record.output, i)
    {
      if !record.output[i].kind.Reasoning? {
        continue;
      }
      var before, summary := parts, record.output[i].summary;
      for j := 0 to |summary|
        invariant parts == before + NonEmpty(summary, j)
      {
        if summary[j] != "" {
          parts := parts + [summary[j]];
        }
      }
    }
  }

  // ---- Nothing is dropped, nothing comes twice ------------------------------------------

  /** An output's two halves, however it is told. */
  datatype Told = Told(callId: CallId, output: string)

  /** How a call is told: as a tool request, or by a summary in the text. */
  datatype Telling = AsRequest(call: Call) | AsSummary(summary: Summary)

  /**
   How each call is to be told: a function call somebody answered, with arguments that
   can be decoded, by a request; any other by a summary, which leaves out a custom
   call's namespace, a search's name and arguments that are stored as JSON only.
   */
  function TellingOf(item: OutputItem, answered: set<CallId>): Telling {
    var qualified := item.namespace + "." + item.name;
    var arguments := if item.arguments.NoArguments? then item.argumentsJson else item.arguments;
    match item.kind
    case CustomToolCall => AsSummary(CustomSummary(item.callId, item.name, item.input))
    case ToolSearchCall => AsSummary(SearchSummary(item.callId, arguments))
    case _ =>
      if item.kind.FunctionCall? && item.callId != Unset && item.callId in answered && !arguments.NotJson? then
        AsRequest(Call(item.callId, if item.namespace == "" || item.name == "" then item.name
                       else qualified, arguments))
      else
        AsSummary(FunctionSummary(item.callId, if item.namespace == "" then item.name else qualified, item.arguments))
  }

  /** How many outputs the parts tell that are such as `p` says, and how many calls such as `q` says. */
  function PartOutputs(parts: seq<Part>, p: Told -> bool): nat {
    if parts == [] then 0
    else PartOutputs(parts[..|parts| - 1], p) + PartOutput(parts[|parts| - 1], p)
  }

  function PartOutput(part: Part, p: Told -> bool): nat {
    if part.OutputNote? && p(Told(part.output.callId, part.output.output)) then 1 else 0
  }

  function PartCalls(parts: seq<Part>, q: Telling -> bool): nat {
    if parts == [] then 0 else PartCalls(parts[..|parts| - 1], q) + PartCall(parts[|parts| - 1], q)
  }

  function PartCall(part: Part, q: Telling -> bool): nat {
    if part.CallSummary? && q(AsSummary(part.summary)) then 1 else 0
  }

  function Occurrences(calls: seq<Call>, q: Telling -> bool): nat {
    if calls == [] then 0 else Occurrences(calls[..|calls| - 1], q) + if q(AsRequest(calls[|calls| - 1])) then 1 else 0
  }

  /** How many such outputs a message tells: as a tool's answer or in its text. */
  function OutputsIn(message: Message, p: Told -> bool): nat {
    match message
    case UserMessage(content) => PartOutputs(content, p)
    case AssistantMessage(content, _, _) => PartOutputs(content, p)
    case ToolMessage(callId, output) => if p(Told(callId, output)) then 1 else 0
    case OtherMessage(_) => 0
  }

  /** How many such calls a message tells: as tool requests or in its text. */
  function CallsIn(message: Message, q: Telling -> bool): nat {
    match message
    case UserMessage(content) => PartCalls(content, q)
    case AssistantMessage(content, _, calls) => PartCalls(content, q) + Occurrences(calls, q)
    case _ => 0
  }

  function OutputsTold(messages: seq<Message>, p: Told -> bool): nat {
    if messages == [] then 0 else OutputsTold(messages[..|messages| - 1], p) + OutputsIn(messages[|messages| - 1], p)
  }

  function CallsTold(messages: seq<Message>, q: Telling -> bool): nat {
    if messages == [] then 0 else CallsTold(messages[..|messages| - 1], q) + CallsIn(messages[|messages| - 1], q)
  }

  /** How many such outputs and calls records hold. */
  function StoredOutputs(outputs: seq<ToolOutput>, n: nat, p: Told -> bool): nat
    requires n <= |outputs|
  {
    if n == 0 then 0
    else StoredOutputs(outputs, n - 1, p) + if p(Told(outputs[n - 1].callId, outputs[n - 1].output)) then 1 else 0
  }

  function StoredCalls(items: seq<OutputItem>, n: nat, answered: set<CallId>, q: Telling -> bool): nat
    requires n <= |items|
  {
    if n == 0 then 0
    else
      StoredCalls(items, n - 1, answered, q)
      + if IsCall(items[n - 1]) && q(TellingOf(items[n - 1], answered)) then 1 else 0
  }

  function AllOutputs(records: seq<Record>, n: nat, p: Told -> bool): nat
    requires n <= |records|
  {
    if n == 0 then 0
    else AllOutputs(records, n - 1, p) + StoredOutputs(records[n - 1].toolOutputs, |records[n - 1].toolOutputs|, p)
  }

  function AllCalls(records: seq<Record>, n: nat, answered: set<CallId>, q: Telling -> bool): nat
    requires n <= |records|
  {
    if n == 0 then 0
    else
      AllCalls(records, n - 1, answered, q)
      + StoredCalls(records[n - 1].output, |records[n - 1].output|, answered, q)
  }

  lemma NothingTold(p: Told -> bool, q: Telling -> bool)
    ensures OutputsTold([], p) == 0 && CallsTold([], q) == 0
    ensures PartOutputs([], p) == 0 && PartCalls([], q) == 0 && Occurrences([], q) == 0
  {
  }

  lemma {:induction false} PartsConcat(a: seq<Part>, b: seq<Part>, p: Told -> bool, q: Telling -> bool)
    ensures PartOutputs(a + b, p) == PartOutputs(a, p) + PartOutputs(b, p)
    ensures PartCalls(a + b, q) == PartCalls(a, q) + PartCalls(b, q)
  {
    hide PartOutput, PartCall;
    if b == [] {
      AppendNothing(a);
    } else {
      PartsConcat(a, b[..|b| - 1], p, q);
      assert (a + b)[..|a + b| - 1] == a + b[..|b| - 1];
    }
  }

  lemma OneMorePart(parts: seq<Part>, part: Part, p: Told -> bool, q: Telling -> bool)
    ensures PartOutputs(parts + [part], p) == PartOutputs(parts, p) + PartOutput(part, p)
    ensures PartCalls(parts + [part], q) == PartCalls(parts, q) + PartCall(part, q)
  {
    hide PartOutput, PartCall;
    assert (parts + [part])[..|parts|] == parts;
  }

  lemma OneMoreCall(calls: seq<Call>, call: Call, q: Telling -> bool)
    ensures Occurrences(calls + [call], q) == Occurrences(calls, q) + if q(AsRequest(call)) then 1 else 0
  {
    assert (calls + [call])[..|calls|] == calls;
  }

  lemma OneMoreMessage(messages: seq<Message>, m: Message, p: Told -> bool, q: Telling -> bool)
    ensures OutputsTold(messages + [m], p) == OutputsTold(messages, p) + OutputsIn(m, p)
    ensures CallsTold(messages + [m], q) == CallsTold(messages, q) + CallsIn(m, q)
  {
    hide OutputsIn, CallsIn;
    assert (messages + [m])[..|messages|] == messages;
  }

  lemma {:induction false} ToldConcat(a: seq<Message>, b: seq<Message>, p: Told -> bool, q: Telling -> bool)
    ensures OutputsTold(a + b, p) == OutputsTold(a, p) + OutputsTold(b, p)
    ensures CallsTold(a + b, q) == CallsTold(a, q) + CallsTold(b, q)
  {
    hide OutputsIn, CallsIn;
    if b == [] {
      AppendNothing(a);
    } else {
      ToldConcat(a, b[..|b| - 1], p, q);
      assert (a + b)[..|a + b| - 1] == a + b[..|b| - 1];
    }
  }

  /** Every output of a record is either replayed or noted. */
  lemma {:induction false} OutputsSplit(outputs: seq<ToolOutput>, n: nat, declared: set<CallId>, p: Told -> bool)
    requires n <= |outputs|
    ensures OutputsTold(ToolMessages(outputs, n, declared), p) + PartOutputs(OutputNotes(outputs, n, declared), p)
         == StoredOutputs(outputs, n, p)
  {
    hide OutputsTold, CallsTold, PartOutputs, PartCalls, Occurrences;
    NothingTold(p, _ => true);
    if n > 0 {
      OutputsSplit(outputs, n - 1, declared, p);
      var o := outputs[n - 1];
      var messages, notes := ToolMessages(outputs, n - 1, declared), OutputNotes(outputs, n - 1, declared);
      if Replays(o, declared) {
        OneMoreMessage(messages, ToolMessage(o.callId, o.output), p, _ => true);
        AppendNothing(notes);
      } else {
        OneMorePart(notes, OutputNote(o), p, _ => true);
        AppendNothing(messages);
      }
    }
  }

  lemma {:induction false} OutputsAreNoCalls(outputs: seq<ToolOutput>, n: nat, declared: set<CallId>,
                                             q: Telling -> bool)
    requires n <= |outputs|
    ensures CallsTold(ToolMessages(outputs, n, declared), q) == 0
    ensures PartCalls(OutputNotes(outputs, n, declared), q) == 0
  {
    hide OutputsTold, CallsTold, PartOutputs, PartCalls, Occurrences;
    NothingTold(_ => true, q);
    if n > 0 {
      OutputsAreNoCalls(outputs, n - 1, declared, q);
      var o := outputs[n - 1];
      var messages, notes := ToolMessages(outputs, n - 1, declared), OutputNotes(outputs, n - 1, declared);
      if Replays(o, declared) {
        OneMoreMessage(messages, ToolMessage(o.callId, o.output), _ => true, q);
        AppendNothing(notes);
      } else {
        OneMorePart(notes, OutputNote(o), _ => true, q);
        AppendNothing(messages);
      }
    }
  }

  lemma {:induction false} LoadedNotesTellNone(events: seq<LoadedToolEvent>, n: nat, p: Told -> bool,
                                               q: Telling -> bool)
    requires n <= |events|
    ensures PartOutputs(LoadedNotes(events, n), p) == 0 && PartCalls(LoadedNotes(events, n), q) == 0
  {
    hide OutputsTold, CallsTold, PartOutputs, PartCalls, Occurrences;
    NothingTold(p, q);
    if n > 0 {
      LoadedNotesTellNone(events, n - 1, p, q);
      OneMorePart(LoadedNotes(events, n - 1), LoadedNote(events[n - 1]), p, q);
      AppendNothing(LoadedNotes(events, n - 1));
    }
  }

  /** Every call of a record is either requested again or summarised. */
  lemma {:induction false} CallsSplit(items: seq<OutputItem>, n: nat, answered: set<CallId>, p: Told -> bool,
                                      q: Telling -> bool)
    requires n <= |items|
    ensures Occurrences(Requests(items, n, answered), q) + PartCalls(Summaries(items, n, answered), q)
      == StoredCalls(items, n, answered, q)
    ensures PartOutputs(Summaries(items, n, answered), p) == 0
  {
    hide OutputsTold, CallsTold, PartOutputs, PartCalls, Occurrences;
    NothingTold(p, q);
    if n > 0 {
      CallsSplit(items, n - 1, answered, p, q);
      OneMorePart(Summaries(items, n - 1, answered), CallSummary(SummaryOf(items[n - 1])), p, q);
      OneMoreCall(Requests(items, n - 1, answered), CallOf(items[n - 1]), q);
      AppendNothing(Summaries(items, n - 1, answered));
      AppendNothing(Requests(items, n - 1, answered));
    }
  }

  lemma NotesTell(record: Record, declared: set<CallId>, p: Told -> bool, q: Telling -> bool)
    ensures OutputsTold(NotesMessage(record, declared), p)
         == PartOutputs(OutputNotes(record.toolOutputs, |record.toolOutputs|, declared), p)
    ensures CallsTold(NotesMessage(record, declared), q) == 0
  {
    hide OutputsTold, CallsTold, PartOutputs, PartCalls, Occurrences;
    NothingTold(p, q);
    var notes, loaded := OutputNotes(record.toolOutputs, |record.toolOutputs|, declared),
                         LoadedNotes(record.loadedToolEvents, |record.loadedToolEvents|);
    OutputsSplit(record.toolOutputs, |record.toolOutputs|, declared, p);
    OutputsAreNoCalls(record.toolOutputs, |record.toolOutputs|, declared, q);
    LoadedNotesTellNone(record.loadedToolEvents, |record.loadedToolEvents|, p, q);
    PartsConcat(notes, loaded, p, q);
    OneMoreMessage([], UserMessage(notes + loaded), p, q);
    assert [] + [UserMessage(notes + loaded)] == [UserMessage(notes + loaded)];
  }

  lemma InputTells(record: Record, p: Told -> bool, q: Telling -> bool)
    ensures OutputsTold(InputMessage(record), p) == 0 && CallsTold(InputMessage(record), q) == 0
  {
    hide OutputsTold, CallsTold, PartOutputs, PartCalls, Occurrences;
    NothingTold(p, q);
    var text := Text(record.inputText);
    OneMorePart([], text, p, q);
    assert [] + [text] == [text];
    OneMoreMessage([], UserMessage([text]), p, q);
    assert [] + [UserMessage([text])] == [UserMessage([text])];
  }

  lemma ContentTells(text: string, summaries: seq<Part>, p: Told -> bool, q: Telling -> bool)
    ensures PartOutputs(AssistantContent(text, summaries), p) == PartOutputs(summaries, p)
    ensures PartCalls(AssistantContent(text, summaries), q) == PartCalls(summaries, q)
  {
    hide OutputsTold, CallsTold, PartOutputs, PartCalls, Occurrences;
    NothingTold(p, q);
    OneMorePart([], Text(text), p, q);
    assert [] + [Text(text)] == [Text(text)];
    PartsConcat([Text(text)], summaries, p, q);
  }

  lemma AssistantTells(record: Record, answered: set<CallId>, p: Told -> bool, q: Telling -> bool)
    ensures OutputsTold(Assistant(record, answered), p) == 0
    ensures CallsTold(Assistant(record, answered), q) == StoredCalls(record.output, |record.output|, answered, q)
  {
    hide OutputsTold, CallsTold, PartOutputs, PartCalls, Occurrences;
    NothingTold(p, q);
    var summaries := Summaries(record.output, |record.output|, answered);
    CallsSplit(record.output, |record.output|, answered, p, q);
    ContentTells(record.outputText, summaries, p, q);
    var m := AssistantMessage(AssistantContent(record.outputText, summaries),
                              ReasoningOf(record.output, |record.output|),
                                Requests(record.output, |record.output|, answered));
    OneMoreMessage([], m, p, q);
    assert [] + [m] == [m];
  }

  lemma RecordTells(record: Record, answered: set<CallId>, declared: set<CallId>, p: Told -> bool, q: Telling -> bool)
    ensures OutputsTold(RecordMessages(record, answered, declared), p)
      == StoredOutputs(record.toolOutputs, |record.toolOutputs|, p)
    ensures CallsTold(RecordMessages(record, answered, declared), q)
      == StoredCalls(record.output, |record.output|, answered, q)
  {
    hide OutputsTold, CallsTold, PartOutputs, PartCalls, Occurrences;
    NothingTold(p, q);
    var tools := ToolMessages(record.toolOutputs, |record.toolOutputs|, declared);
    var notes, input, assistant := NotesMessage(record, declared), InputMessage(record), Assistant(record, answered);
    OutputsSplit(record.toolOutputs, |record.toolOutputs|, declared, p);
    OutputsAreNoCalls(record.toolOutputs, |record.toolOutputs|, declared, q);
    NotesTell(record, declared, p, q);
    InputTells(record, p, q);
    AssistantTells(record, answered, p, q);
    ToldConcat(tools, notes, p, q);
    ToldConcat(tools + notes, input, p, q);
    ToldConcat(tools + notes + input, assistant, p, q);
  }

  lemma OneMoreRecord(messages: seq<Message>, record: Record, answered: set<CallId>, declared: set<CallId>,
                      p: Told -> bool, q: Telling -> bool)
    ensures OutputsTold(messages + RecordMessages(record, answered, declared), p)
         == OutputsTold(messages, p) + StoredOutputs(record.toolOutputs, |record.toolOutputs|, p)
    ensures CallsTold(messages + RecordMessages(record, answered, declared), q)
         == CallsTold(messages, q) + StoredCalls(record.output, |record.output|, answered, q)
  {
    hide OutputsTold, CallsTold, PartOutputs, PartCalls, Occurrences;
    hide RecordMessages;
    RecordTells(record, answered, declared, p, q);
    ToldConcat(messages, RecordMessages(record, answered, declared), p, q);
  }

  /** The first `n` records' messages tell what those records hold. */
  predicate TellAll(records: seq<Record>, n: nat, answered: set<CallId>, p: Told -> bool, q: Telling -> bool)
    requires n <= |records|
  {
    && OutputsTold(MessagesOf(records, n, answered), p) == AllOutputs(records, n, p)
    && CallsTold(MessagesOf(records, n, answered), q) == AllCalls(records, n, answered, q)
  }

  lemma TellAllStep(records: seq<Record>, n: nat, answered: set<CallId>, p: Told -> bool, q: Telling -> bool)
    requires 0 < n <= |records| && TellAll(records, n - 1, answered, p, q)
    ensures TellAll(records, n, answered, p, q)
  {
    hide RecordMessages, OutputsTold, CallsTold, StoredOutputs, StoredCalls;
    OneMoreRecord(MessagesOf(records, n - 1, answered), records[n - 1], answered, Declared(records, n - 1, answered), p,
                  q);
  }

  lemma TellAllStart(records: seq<Record>, answered: set<CallId>, p: Told -> bool, q: Telling -> bool)
    ensures TellAll(records, 0, answered, p, q)
  {
  }

  lemma {:induction false} MessagesTell(records: seq<Record>, n: nat, answered: set<CallId>, p: Told -> bool,
                                        q: Telling -> bool)
    requires n <= |records|
    ensures TellAll(records, n, answered, p, q)
  {
    hide *;
    if n == 0 {
      TellAllStart(records, answered, p, q);
    } else {
      MessagesTell(records, n - 1, answered, p, q);
      TellAllStep(records, n, answered, p, q);
    }
  }

  /**
   Every output is told as often as it is stored, and every call is told once for every
   time it is stored, as a request if it can be and by its summary otherwise: counted
   with `p` and `q` as "is this one", or any other property.
   */
  lemma NothingIsDropped(records: seq<Record>, p: Told -> bool, q: Telling -> bool)
    ensures OutputsTold(History(records), p) == AllOutputs(records, |records|, p)
    ensures CallsTold(History(records), q) == AllCalls(records, |records|, Answered(records, |records|), q)
  {
    MessagesTell(records, |records|, Answered(records, |records|), p, q);
  }

  /**
   A function call's summary says as much as a request would exactly if its name is not
   missing from a namespace and its arguments, if it has any, are in its text field.
   */
  lemma SummaryTellsTheCallExactlyIf(item: OutputItem)
    requires item.kind.FunctionCall?
    ensures SummaryOf(item) == FunctionSummary(item.callId, FullName(item), ArgumentsOf(item)) <==>
      && (item.namespace == "" || item.name != "")
      && (!item.arguments.NoArguments? || item.argumentsJson.NoArguments?)
  {
    if item.namespace != "" && item.name == "" {
      assert |item.namespace + "." + item.name| > 0;
    }
  }

  // ---- What the hydrator accepts -----------------------------------------------------------

  ghost predicate Names(message: Message, id: CallId) {
    message.AssistantMessage? && exists i :: 0 <= i < |message.calls| && message.calls[i].id == id
  }

  ghost predicate RequestedBefore(messages: seq<Message>, k: nat, id: CallId)
    requires k <= |messages|
  {
    exists j :: 0 <= j < k && Names(messages[j], id)
  }

  predicate GoodCall(call: Call) {
    call.id != Unset && !call.arguments.NotJson?
  }

  /** A known role, calls with ids and one JSON value, and every answer after its request. */
  ghost predicate Replayable(messages: seq<Message>, k: nat)
    requires k < |messages|
  {
    match messages[k]
    case UserMessage(_) => true
    case AssistantMessage(_, _, calls) => forall i :: 0 <= i < |calls| ==> GoodCall(calls[i])
    case ToolMessage(id, _) => RequestedBefore(messages, k, id)
    case OtherMessage(_) => false
  }

  ghost predicate AllReplayable(messages: seq<Message>) {
    forall k :: 0 <= k < |messages| ==> Replayable(messages, k)
  }

  /** Messages fit to follow others: good calls, and answers only to what was requested by then. */
  ghost predicate Follows(message: Message, requested: set<CallId>) {
    match message
    case UserMessage(_) => true
    case AssistantMessage(_, _, calls) => forall i :: 0 <= i < |calls| ==> GoodCall(calls[i])
    case ToolMessage(id, _) => id in requested
    case OtherMessage(_) => false
  }

  ghost predicate AllFollow(messages: seq<Message>, requested: set<CallId>) {
    forall k :: 0 <= k < |messages| ==> Follows(messages[k], requested)
  }

  ghost predicate AllRequested(messages: seq<Message>, requested: set<CallId>) {
    forall id :: id in requested ==> RequestedBefore(messages, |messages|, id)
  }

  lemma AppendFollowing(messages: seq<Message>, more: seq<Message>, requested: set<CallId>)
    requires AllReplayable(messages) && AllRequested(messages, requested) && AllFollow(more, requested)
    ensures AllReplayable(messages + more) && AllRequested(messages + more, requested)
  {
    var all := messages + more;
    forall id | RequestedBefore(messages, |messages|, id)
      ensures RequestedBefore(all, |messages|, id) && RequestedBefore(all, |all|, id) {
      var j :| 0 <= j < |messages| && Names(messages[j], id);
      assert all[j] == messages[j];
    }
    forall k | 0 <= k < |all| ensures Replayable(all, k) {
      if k < |messages| {
        assert all[k] == messages[k] && Replayable(messages, k);
        if all[k].ToolMessage? {
          var j :| 0 <= j < k && Names(messages[j], all[k].callId);
          assert all[j] == messages[j];
        }
      } else {
        assert all[k] == more[k - |messages|];
        assert Follows(all[k], requested);
        if all[k].ToolMessage? {
          var j :| 0 <= j < |messages| && Names(all[j], all[k].callId);
        }
      }
    }
  }

  lemma {:induction false} ToolMessagesFollow(outputs: seq<ToolOutput>, n: nat, declared: set<CallId>)
    requires n <= |outputs|
    ensures AllFollow(ToolMessages(outputs, n, declared), declared)
  {
    if n > 0 {
      ToolMessagesFollow(outputs, n - 1, declared);
      AppendNothing(ToolMessages(outputs, n - 1, declared));
    }
  }

  lemma {:induction false} RequestsAreGood(items: seq<OutputItem>, n: nat, answered: set<CallId>)
    requires n <= |items|
    ensures forall i :: 0 <= i < |Requests(items, n, answered)| ==> GoodCall(Requests(items, n, answered)[i])
    ensures forall id :: id in Declares(items, n, answered) <==>
              exists i :: 0 <= i < |Requests(items, n, answered)| && Requests(items, n, answered)[i].id == id
  {
    if n > 0 {
      RequestsAreGood(items, n - 1, answered);
      var before, all := Requests(items, n - 1, answered), Requests(items, n, answered);
      assert before <= all;
      if Hydratable(items[n - 1], answered) {
        assert all[|before|].id == items[n - 1].callId;
      }
    }
  }

  lemma FollowConcat(a: seq<Message>, b: seq<Message>, requested: set<CallId>)
    requires AllFollow(a, requested) && AllFollow(b, requested)
    ensures AllFollow(a + b, requested)
  {
  }

  lemma RecordFollows(record: Record, answered: set<CallId>, declared: set<CallId>)
    ensures AllFollow(RecordMessages(record, answered, declared), declared)
  {
    var tools := ToolMessages(record.toolOutputs, |record.toolOutputs|, declared);
    ToolMessagesFollow(record.toolOutputs, |record.toolOutputs|, declared);
    RequestsAreGood(record.output, |record.output|, answered);
    FollowConcat(tools, NotesMessage(record, declared), declared);
    FollowConcat(tools + NotesMessage(record, declared), InputMessage(record), declared);
    FollowConcat(tools + NotesMessage(record, declared) + InputMessage(record), Assistant(record, answered), declared);
  }

  /** The calls a record declares are requested by its assistant message, the last one it adds. */
  lemma DeclaresRequested(record: Record, answered: set<CallId>, messages: seq<Message>)
    ensures AllRequested(messages + Assistant(record, answered), Declares(record.output, |record.output|, answered))
  {
    RequestsAreGood(record.output, |record.output|, answered);
    var all := messages + Assistant(record, answered);
    forall id | id in Declares(record.output, |record.output|, answered) ensures RequestedBefore(all, |all|, id) {
      assert Names(all[|messages|], id);
    }
  }

  ghost predicate Fits(records: seq<Record>, n: nat, answered: set<CallId>)
    requires n <= |records|
  {
    && AllReplayable(MessagesOf(records, n, answered))
    && AllRequested(MessagesOf(records, n, answered), Declared(records, n, answered))
  }

  lemma FitsStep(messages: seq<Message>, record: Record, answered: set<CallId>, declared: set<CallId>)
    requires AllReplayable(messages) && AllRequested(messages, declared)
    ensures AllReplayable(messages + RecordMessages(record, answered, declared))
    ensures AllRequested(messages + RecordMessages(record, answered, declared),
                         declared + Declares(record.output, |record.output|, answered))
  {
    RecordFollows(record, answered, declared);
    AppendFollowing(messages, RecordMessages(record, answered, declared), declared);
    var front := ToolMessages(record.toolOutputs, |record.toolOutputs|, declared) + NotesMessage(record, declared)
      + InputMessage(record);
    DeclaresRequested(record, answered, messages + front);
    assert (messages + front) + Assistant(record, answered) == messages + (front + Assistant(record, answered));
  }

  lemma RecordFits(records: seq<Record>, n: nat, answered: set<CallId>)
    requires 0 < n <= |records| && Fits(records, n - 1, answered)
    ensures Fits(records, n, answered)
  {
    hide RecordMessages, AllReplayable, AllRequested, Declares;
    FitsStep(MessagesOf(records, n - 1, answered), records[n - 1], answered, Declared(records, n - 1, answered));
  }

  lemma NoRecordFits(records: seq<Record>, answered: set<CallId>)
    ensures Fits(records, 0, answered)
  {
  }

  lemma {:induction false} RecordsFit(records: seq<Record>, n: nat, answered: set<CallId>)
    requires n <= |records|
    ensures Fits(records, n, answered)
  {
    hide *;
    if n == 0 {
      NoRecordFits(records, answered);
    } else {
      RecordsFit(records, n - 1, answered);
      RecordFits(records, n, answered);
    }
  }

  /** Whatever the records hold, the hydrator accepts the history: in particular, every answer follows its request. */
  lemma HistoryIsReplayable(records: seq<Record>)
    ensures AllReplayable(History(records))
  {
    RecordsFit(records, |records|, Answered(records, |records|));
  }

  // ---- Which requests are answered -----------------------------------------------------------

  predicate IsAnswer(message: Message, id: CallId) {
    message.ToolMessage? && message.callId == id
  }

  /** How many of the messages answer a call. */
  function Answers(messages: seq<Message>, id: CallId): nat {
    if messages == [] then 0
    else Answers(messages[..|messages| - 1], id) + if IsAnswer(messages[|messages| - 1], id) then 1 else 0
  }

  /** How many of the outputs are function outputs for a call. */
  function OutputsFor(outputs: seq<ToolOutput>, n: nat, id: CallId): nat
    requires n <= |outputs|
  {
    if n == 0 then 0
    else
      OutputsFor(outputs, n - 1, id)
      + if outputs[n - 1].callId == id && IsFunctionOutput(outputs[n - 1]) then 1 else 0
  }

  function Held(record: Record, id: CallId): nat {
    OutputsFor(record.toolOutputs, |record.toolOutputs|, id)
  }

  /** How many outputs the records from `m` to `n` hold for a call. */
  function HeldBetween(records: seq<Record>, m: nat, n: nat, id: CallId): nat
    requires n <= |records|
  {
    if n <= m then 0 else HeldBetween(records, m, n - 1, id) + Held(records[n - 1], id)
  }

  lemma {:induction false} AnswersConcat(a: seq<Message>, b: seq<Message>, id: CallId)
    ensures Answers(a + b, id) == Answers(a, id) + Answers(b, id)
  {
    if b == [] {
      AppendNothing(a);
    } else {
      AnswersConcat(a, b[..|b| - 1], id);
      assert (a + b)[..|a + b| - 1] == a + b[..|b| - 1];
    }
  }

  lemma {:induction false} ToolMessagesAnswer(outputs: seq<ToolOutput>, n: nat, declared: set<CallId>, id: CallId)
    requires n <= |outputs| && id in declared
    ensures Answers(ToolMessages(outputs, n, declared), id) == OutputsFor(outputs, n, id)
  {
    if n > 0 {
      ToolMessagesAnswer(outputs, n - 1, declared, id);
      var before, o := ToolMessages(outputs, n - 1, declared), outputs[n - 1];
      if Replays(o, declared) {
        assert (before + [ToolMessage(o.callId, o.output)])[..|before|] == before;
      } else {
        AppendNothing(before);
      }
    }
  }

  lemma NoAnswerAmong(messages: seq<Message>, id: CallId)
    requires forall k :: 0 <= k < |messages| ==> !messages[k].ToolMessage?
    ensures Answers(messages, id) == 0
  {
  }

  lemma RecordAnswers(messages: seq<Message>, record: Record, answered: set<CallId>, declared: set<CallId>, id: CallId)
    requires id in declared
    ensures Answers(messages + RecordMessages(record, answered, declared), id)
      == Answers(messages, id) + Held(record, id)
  {
    var tools := ToolMessages(record.toolOutputs, |record.toolOutputs|, declared);
    var rest := NotesMessage(record, declared) + InputMessage(record) + Assistant(record, answered);
    ToolMessagesAnswer(record.toolOutputs, |record.toolOutputs|, declared, id);
    assert RecordMessages(record, answered, declared) == tools + rest;
    NoAnswerAmong(rest, id);
    AnswersConcat(tools, rest, id);
    AnswersConcat(messages, tools + rest, id);
  }

  lemma {:induction false} DeclaredGrows(records: seq<Record>, m: nat, n: nat, answered: set<CallId>)
    requires m <= n <= |records|
    ensures Declared(records, m, answered) <= Declared(records, n, answered)
  {
    if m < n {
      DeclaredGrows(records, m, n - 1, answered);
    }
  }

  /** The messages of `n` records start with those of `m`, and the rest answers what the records between hold. */
  predicate AnsweredAsHeld(records: seq<Record>, m: nat, n: nat, answered: set<CallId>, id: CallId)
    requires m <= n <= |records|
  {
    && MessagesOf(records, m, answered) <= MessagesOf(records, n, answered)
    && Answers(MessagesOf(records, n, answered), id)
      == Answers(MessagesOf(records, m, answered), id) + HeldBetween(records, m, n, id)
  }

  lemma AnsweredAsHeldStart(records: seq<Record>, n: nat, answered: set<CallId>, id: CallId)
    requires n <= |records|
    ensures AnsweredAsHeld(records, n, n, answered, id)
  {
  }

  lemma AnsweredAsHeldStep(records: seq<Record>, m: nat, n: nat, answered: set<CallId>, id: CallId)
    requires m < n <= |records| && id in Declared(records, m, answered)
    requires AnsweredAsHeld(records, m, n - 1, answered, id)
    ensures AnsweredAsHeld(records, m, n, answered, id)
  {
    hide RecordMessages, Answers;
    DeclaredGrows(records, m, n - 1, answered);
    RecordAnswers(MessagesOf(records, n - 1, answered), records[n - 1], answered, Declared(records, n - 1, answered),
                  id);
  }

  lemma {:induction false} AnswersAreTold(records: seq<Record>, m: nat, n: nat, answered: set<CallId>, id: CallId)
    requires m <= n <= |records| && id in Declared(records, m, answered)
    ensures AnsweredAsHeld(records, m, n, answered, id)
  {
    hide *;
    if m == n {
      AnsweredAsHeldStart(records, n, answered, id);
    } else {
      AnswersAreTold(records, m, n - 1, answered, id);
      AnsweredAsHeldStep(records, m, n, answered, id);
    }
  }

  lemma {:induction false} DeclaresExactly(items: seq<OutputItem>, n: nat, answered: set<CallId>, id: CallId)
    requires n <= |items|
    ensures id in Declares(items, n, answered) <==>
      exists i :: 0 <= i < n && items[i].callId == id && Hydratable(items[i], answered)
  {
    if n > 0 {
      DeclaresExactly(items, n - 1, answered, id);
    }
  }

  /**
   A call requested again by a record is answered behind it once for every function
   output that a later record holds for it, so exactly if there is one: an output
   stored with the call itself, or earlier, answers nothing.
   */
  lemma RequestIsAnsweredExactlyIf(records: seq<Record>, i: nat, k: nat)
    requires i < |records| && k < |records[i].output|
    requires Hydratable(records[i].output[k], Answered(records, |records|))
    ensures var sofar := MessagesOf(records, i + 1, Answered(records, |records|));
            && sofar <= History(records)
            && Answers(History(records)[|sofar|..], records[i].output[k].callId)
               == HeldBetween(records, i + 1, |records|, records[i].output[k].callId)
  {
    hide Answers, HeldBetween, Hydratable, Answered, MessagesOf, Declares;
    var answered, id := Answered(records, |records|), records[i].output[k].callId;
    DeclaresExactly(records[i].output, |records[i].output|, answered, id);
    AnswersAreTold(records, i + 1, |records|, answered, id);
    SuffixAnswers(MessagesOf(records, i + 1, answered), MessagesOf(records, |records|, answered), id);
  }

  lemma SuffixAnswers(a: seq<Message>, all: seq<Message>, id: CallId)
    requires a <= all
    ensures Answers(all, id) == Answers(a, id) + Answers(all[|a|..], id)
  {
    assert a + all[|a|..] == all;
    AnswersConcat(a, all[|a|..], id);
  }

  lemma {:induction false} AnsweredByExactly(outputs: seq<ToolOutput>, n: nat, id: CallId)
    requires n <= |outputs|
    ensures id in AnsweredBy(outputs, n) <==> id != Unset && OutputsFor(outputs, n, id) > 0
  {
    if n > 0 {
      AnsweredByExactly(outputs, n - 1, id);
    }
  }

  lemma {:induction false} AnsweredExactly(records: seq<Record>, n: nat, id: CallId)
    requires n <= |records|
    ensures id in Answered(records, n) <==> id != Unset && HeldBetween(records, 0, n, id) > 0
  {
    if n > 0 {
      AnsweredExactly(records, n - 1, id);
      AnsweredByExactly(records[n - 1].toolOutputs, |records[n - 1].toolOutputs|, id);
    }
  }

  lemma {:induction false} HeldSplits(records: seq<Record>, m: nat, n: nat, id: CallId)
    requires m <= n <= |records|
    ensures HeldBetween(records, 0, n, id) == HeldBetween(records, 0, m, id) + HeldBetween(records, m, n, id)
  {
    if m < n {
      HeldSplits(records, m, n - 1, id);
    }
  }

  /** If outputs are stored only behind the records of their calls, no request stays open. */
  lemma LaterOutputsAnswerAll(records: seq<Record>, i: nat, k: nat)
    requires i < |records| && k < |records[i].output|
    requires Hydratable(records[i].output[k], Answered(records, |records|))
    requires HeldBetween(records, 0, i + 1, records[i].output[k].callId) == 0
    ensures var sofar := MessagesOf(records, i + 1, Answered(records, |records|));
            sofar <= History(records) && Answers(History(records)[|sofar|..], records[i].output[k].callId) > 0
  {
    var id := records[i].output[k].callId;
    AnsweredExactly(records, |records|, id);
    HeldSplits(records, i + 1, |records|, id);
    RequestIsAnsweredExactlyIf(records, i, k);
  }

  /** A record that holds a call together with its output: the call is requested again, and nothing answers it. */
  lemma OutputStoredWithItsCallAnswersNothing(id: CallId, name: string, output: string)
    requires id != Unset
    ensures var item := OutputItem(FunctionCall, id, "", name, NoArguments, NoArguments, "", []);
            var record := Record(0, None, false, "", "", [item], [ToolOutput(FunctionCallOutput, id, output)], []);
            && RequestedBefore(History([record]), |History([record])|, id)
            && Answers(History([record]), id) == 0
  {
    var item := OutputItem(FunctionCall, id, "", name, NoArguments, NoArguments, "", []);
    var record := Record(0, None, false, "", "", [item], [ToolOutput(FunctionCallOutput, id, output)], []);
    var records, answered := [record], Answered([record], 1);
    assert AnsweredBy(record.toolOutputs, 1) == {id};
    assert Answered(records, 0) == {} && records[0].toolOutputs == record.toolOutputs;
    assert answered == {id};
    RequestIsAnsweredExactlyIf(records, 0, 0);
    RecordsFit(records, 1, answered);
    assert Declared(records, 1, answered) == Declares(record.output, 1, answered);
    NoneDeclared(record.toolOutputs, 1);
    NoAnswerAmong(History(records), id);
  }

  lemma NoneDeclared(outputs: seq<ToolOutput>, n: nat)
    requires n <= |outputs|
    ensures ToolMessages(outputs, n, {}) == []
  {
  }
}
