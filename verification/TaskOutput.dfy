// The live output of runTask in server/internal/daemon/daemon.go.
module TaskOutput {
  import opened Base
  import opened TaskMessages

  // A message reader and a periodic flusher share a batch, two pending buffers
  // and a sequence counter. The counter is atomic and not under the lock: while
  // the flusher holds the lock, between any two of its chunks, the reader may
  // take a number for a tool message and then wait for the lock.

  datatype Kind = ToolUse | ToolResult | Thinking | Text | ErrorText

  datatype Message = Message(number: nat, kind: Kind, tool: string, content: seq<Byte>)

  // TOOL_OUTPUT_BYTES bounds the output of one tool result.
  const TOOL_OUTPUT_BYTES: nat := 8192

  // The reader waits for its next message, has numbered a tool message it has not
  // appended yet, reports an error, does the final flush, or is done.
  datatype Reader = Reading | Holding(message: Message) | Reporting | Closing | Finished

  datatype Flusher = Ticker | Final

  // Who holds the lock, and the chunks it still has to append.
  datatype Lock =
    | Free
    | ThinkingPart(who: Flusher, left: seq<seq<Byte>>)
    | TextPart(who: Flusher, left: seq<seq<Byte>>)
    | ErrorPart(left: seq<seq<Byte>>)
  {
    function Part(): Kind
      requires !Free?
    {
      match this
      case ThinkingPart(_, _) => Thinking
      case TextPart(_, _) => Text
      case ErrorPart(_) => ErrorText
    }
  }

  // What was received, for the statements below: the content of each kind,
  // whether all of it was valid UTF-8, and the tool messages as numbered. log
  // is every message appended to a batch so far, in that order.
  datatype Received = Received(text: seq<Byte>, thinking: seq<Byte>, errors: seq<Byte>, allValid: bool,
      tools: seq<Message>) {
    function Content(kind: Kind): seq<Byte> {
      match kind
      case Text => text
      case Thinking => thinking
      case ErrorText => errors
      case _ => []
    }
  }

  datatype Output = Output(
    counter: nat, batch: seq<Message>, pendingText: seq<Byte>, pendingThinking: seq<Byte>,
    toolOf: map<string, string>, lock: Lock, reader: Reader, handedOff: seq<seq<Message>>,
    received: Received, log: seq<Message>)

  const START := Output(0, [], [], [], map[], Free, Reading, [], Received([], [], [], true, []), [])

  // strings.ToValidUTF8: valid, and the text itself if that is valid.
  predicate Cleans(text: seq<Byte>, clean: seq<Byte>) {
    ValidUtf8(clean) && (ValidUtf8(text) ==> clean == text)
  }

  function ReceiveContent(r: Received, kind: Kind, content: seq<Byte>): Received {
    var valid := r.allValid && ValidUtf8(content);
    match kind
    case Text => r.(text := r.text + content, allValid := valid)
    case Thinking => r.(thinking := r.thinking + content, allValid := valid)
    case ErrorText => r.(errors := r.errors + content, allValid := valid)
    case _ => r
  }

  // Only the reader touches toolOf, so a tool step does so together with taking
  // its number, whoever has the lock by then. A chunk's number and its place in
  // the batch, which the lock protects, are one step.
  datatype Step =
    | ReceiveText(content: seq<Byte>)
    | ReceiveThinking(content: seq<Byte>)
    | BeginError(content: seq<Byte>, clean: seq<Byte>)
    | EndError
    | NumberToolUse(callId: string, tool: string, input: seq<Byte>)
    | NumberToolResult(callId: string, tool: string, output: seq<Byte>)
    | AppendTool
    | BeginFlush(who: Flusher, clean: seq<Byte>)
    | AppendChunk
    | EndThinking(clean: seq<Byte>)
    | EndFlush

  predicate Enabled(o: Output, step: Step) {
    match step
    case ReceiveText(content) => o.reader.Reading? && o.lock.Free? && content != []
    case ReceiveThinking(content) => o.reader.Reading? && o.lock.Free? && content != []
    case BeginError(content, clean) => o.reader.Reading? && o.lock.Free? && Cleans(content, clean)
    case EndError => o.lock.ErrorPart? && o.lock.left == []
    case NumberToolUse(_, _, _) => o.reader.Reading?
    case NumberToolResult(_, _, _) => o.reader.Reading?
    case AppendTool => o.reader.Holding? && o.lock.Free?
    case BeginFlush(who, clean) => o.lock.Free? && (who.Final? ==> o.reader.Reading?)
        && Cleans(o.pendingThinking, clean)
    case AppendChunk => !o.lock.Free? && o.lock.left != []
    case EndThinking(clean) => o.lock.ThinkingPart? && o.lock.left == [] && Cleans(o.pendingText, clean)
    case EndFlush => o.lock.TextPart? && o.lock.left == []
  }

  function Hold(o: Output, m: Message): Output {
    o.(counter := o.counter + 1, reader := Holding(m), received := o.received.(tools := o.received.tools + [m]))
  }

  function ToolFor(o: Output, callId: string): string {
    if callId in o.toolOf then o.toolOf[callId] else ""
  }

  function ToolName(o: Output, callId: string, tool: string): string {
    if tool == "" && callId != "" then ToolFor(o, callId) else tool
  }

  function Truncate(output: seq<Byte>): seq<Byte> {
    if |output| > TOOL_OUTPUT_BYTES then output[..TOOL_OUTPUT_BYTES] else output
  }

  // Append one message to the batch.
  function Append(o: Output, m: Message): Output {
    o.(batch := o.batch + [m], log := o.log + [m])
  }

  function NextChunk(o: Output): Message
    requires !o.lock.Free? && o.lock.left != []
  {
    Message(o.counter + 1, o.lock.Part(), "", o.lock.left[0])
  }

  function HandOver(o: Output): Output {
    if o.batch == [] then o else o.(batch := [], handedOff := o.handedOff + [o.batch])
  }

  function Do(o: Output, step: Step): Output
    requires Enabled(o, step)
  {
    match step
    case ReceiveText(content) =>
      o.(pendingText := o.pendingText + content, received := ReceiveContent(o.received, Text, content))
    case ReceiveThinking(content) =>
      o.(pendingThinking := o.pendingThinking + content, received := ReceiveContent(o.received, Thinking, content))
    case BeginError(content, clean) =>
      o.(lock := ErrorPart(Chunks(clean, FIELD_BYTES)), reader := Reporting,
         received := ReceiveContent(o.received, ErrorText, content))
    case EndError => o.(lock := Free, reader := Reading)
    case NumberToolUse(callId, tool, input) =>
      Hold(if callId != "" then o.(toolOf := o.toolOf[callId := tool]) else o,
           Message(o.counter + 1, ToolUse, tool, input))
    case NumberToolResult(callId, tool, output) =>
      Hold(o, Message(o.counter + 1, ToolResult, ToolName(o, callId, tool), Truncate(output)))
    case AppendTool => Append(o, o.reader.message).(reader := Reading)
    case BeginFlush(who, clean) =>
      o.(lock := ThinkingPart(who, Chunks(clean, FIELD_BYTES)), reader := if who.Final? then Closing else o.reader)
    case AppendChunk =>
      Append(o, NextChunk(o)).(counter := o.counter + 1, lock := o.lock.(left := o.lock.left[1..]))
    case EndThinking(clean) =>
      o.(pendingThinking := [], lock := TextPart(o.lock.who, Chunks(clean, FIELD_BYTES)))
    case EndFlush =>
      HandOver(o.(pendingText := [])).(lock := Free, reader := if o.lock.who.Final? then Finished else o.reader)
  }

  // ---------- what is conserved ----------

  function Flatten(batches: seq<seq<Message>>): seq<Message> {
    if batches == [] then [] else Flatten(batches[..|batches| - 1]) + Last(batches)
  }

  function ContentOf(ms: seq<Message>, kind: Kind): seq<Byte> {
    if ms == [] then []
    else ContentOf(ms[..|ms| - 1], kind) + (if Last(ms).kind == kind then Last(ms).content else [])
  }

  predicate IsTool(m: Message) {
    m.kind.ToolUse? || m.kind.ToolResult?
  }

  function ToolsOf(ms: seq<Message>): seq<Message> {
    if ms == [] then [] else ToolsOf(ms[..|ms| - 1]) + (if IsTool(Last(ms)) then [Last(ms)] else [])
  }

  ghost predicate HasNumber(ms: seq<Message>, n: nat) {
    exists i | 0 <= i < |ms| :: ms[i].number == n
  }

  function Held(o: Output): seq<Message> {
    if o.reader.Holding? then [o.reader.message] else []
  }

  // What was received of a kind and is not in a batch yet.
  function Unsent(o: Output, kind: Kind): seq<Byte> {
    if !o.lock.Free? && o.lock.Part() == kind then Join(o.lock.left)
    else match kind
    case Text => o.pendingText
    case Thinking => o.pendingThinking
    case _ => []
  }

  // Numbers 1..n, each once; messages of one kind in increasing order.
  ghost predicate Numbered(ms: seq<Message>, n: nat) {
    && (forall i | 0 <= i < |ms| :: 1 <= ms[i].number <= n)
    && (forall i, j | 0 <= i < j < |ms| :: ms[i].number != ms[j].number)
    && (forall k | 1 <= k <= n :: HasNumber(ms, k))
  }

  ghost predicate KindsInOrder(ms: seq<Message>) {
    forall i, j | 0 <= i < j < |ms| && (ms[i].kind == ms[j].kind || (IsTool(ms[i]) && IsTool(ms[j]))) ::
      ms[i].number < ms[j].number
  }

  ghost predicate NumbersInv(o: Output) {
    Numbered(o.log + Held(o), o.counter) && KindsInOrder(o.log + Held(o))
  }

  ghost predicate ToolsInv(o: Output) {
    && (o.reader.Holding? ==> IsTool(o.reader.message))
    && o.received.tools == ToolsOf(o.log) + Held(o)
  }

  ghost predicate ShapeInv(o: Output) {
    && o.log == Flatten(o.handedOff) + o.batch
    && (forall b | 0 <= b < |o.handedOff| :: o.handedOff[b] != [])
    && (o.reader.Finished? ==>
          o.batch == [] && o.pendingText == [] && o.pendingThinking == [] && (!o.lock.Free? ==> o.lock.left == []))
  }

  ghost predicate LockInv(o: Output) {
    && (o.reader.Reporting? <==> o.lock.ErrorPart?)
    && (o.reader.Closing? <==> (o.lock.ThinkingPart? || o.lock.TextPart?) && o.lock.who.Final?)
    && (o.lock.TextPart? ==> o.pendingThinking == [])
  }

  // The server's ingestion contract for the content of one message.
  predicate Ingestible(content: seq<Byte>) {
    0 < |content| <= FIELD_BYTES && ValidUtf8(content)
  }

  ghost predicate BoundsInv(o: Output) {
    && (forall i | 0 <= i < |o.log| && IsContent(o.log[i].kind) :: Ingestible(o.log[i].content))
    && (!o.lock.Free? ==> forall i | 0 <= i < |o.lock.left| :: Ingestible(o.lock.left[i]))
  }

  // What was emitted and what is unsent make up what was received.
  ghost predicate KindInv(o: Output, kind: Kind) {
    ContentOf(o.log, kind) + Unsent(o, kind) == o.received.Content(kind)
  }

  ghost predicate ContentInv(o: Output) {
    o.received.allValid ==>
      && ValidUtf8(o.pendingText) && ValidUtf8(o.pendingThinking)
      && KindInv(o, Text) && KindInv(o, Thinking) && KindInv(o, ErrorText)
  }

  ghost predicate Inv(o: Output) {
    NumbersInv(o) && ToolsInv(o) && ShapeInv(o) && LockInv(o) && BoundsInv(o) && ContentInv(o)
  }

  predicate IsContent(kind: Kind) {
    kind.Thinking? || kind.Text? || kind.ErrorText?
  }

  // ---------- sequences of messages ----------

  lemma OneMore(log: seq<Message>, m: Message, k: Kind)
    ensures ContentOf(log + [m], k) == ContentOf(log, k) + if m.kind == k then m.content else []
    ensures ToolsOf(log + [m]) == ToolsOf(log) + if IsTool(m) then [m] else []
  {
    assert (log + [m])[..|log|] == log;
  }

  lemma FlattenAppend(bs: seq<seq<Message>>, b: seq<Message>)
    ensures Flatten(bs + [b]) == Flatten(bs) + b
  {
    assert (bs + [b])[..|bs|] == bs;
  }

  lemma Nothing<T>(s: seq<T>)
    ensures s + [] == s && [] + s == s
  {
  }

  // A message with the next number, put before the held one.
  lemma NumberedInsert(a: seq<Message>, m: Message, h: seq<Message>, n: nat)
    requires Numbered(a + h, n) && m.number == n + 1
    ensures Numbered(a + [m] + h, n + 1)
  {
    var ms := a + [m] + h;
    forall k | 1 <= k <= n + 1
      ensures HasNumber(ms, k)
    {
      if k <= n {
        assert HasNumber(a + h, k);
        var i :| 0 <= i < |a + h| && (a + h)[i].number == k;
        assert ms[if i < |a| then i else i + 1].number == k;
      } else {
        assert ms[|a|].number == k;
      }
    }
    assert forall i | 0 <= i < |a| :: ms[i] == (a + h)[i];
    assert forall i | |a| < i < |ms| :: ms[i] == (a + h)[i - 1];
  }

  lemma KindsInOrderInsert(a: seq<Message>, m: Message, h: seq<Message>, n: nat)
    requires Numbered(a + h, n) && KindsInOrder(a + h)
    requires m.number == n + 1 && !IsTool(m)
    requires forall j | 0 <= j < |h| :: IsTool(h[j])
    ensures KindsInOrder(a + [m] + h)
  {
    var ms := a + [m] + h;
    assert forall i | 0 <= i < |a| :: ms[i] == (a + h)[i];
    assert forall i | |a| < i < |ms| :: ms[i] == (a + h)[i - 1];
  }

  // ---------- preservation ----------

  lemma ChunksAreIngestible(clean: seq<Byte>)
    requires ValidUtf8(clean)
    ensures forall i | 0 <= i < |Chunks(clean, FIELD_BYTES)| :: Ingestible(Chunks(clean, FIELD_BYTES)[i])
    ensures Join(Chunks(clean, FIELD_BYTES)) == clean
    ensures clean == [] ==> Chunks(clean, FIELD_BYTES) == []
  {
    ChunksAreSound(clean, FIELD_BYTES);
  }

  lemma EmptyIsClean(clean: seq<Byte>)
    requires Cleans([], clean)
    ensures clean == []
  {
  }

  lemma AppendChunkNumbers(o: Output)
    requires NumbersInv(o) && ToolsInv(o) && Enabled(o, AppendChunk)
    ensures NumbersInv(Do(o, AppendChunk)) && ToolsInv(Do(o, AppendChunk))
  {
    hide Numbered, KindsInOrder, ToolsOf, ContentOf;
    var m := NextChunk(o);
    NumberedInsert(o.log, m, Held(o), o.counter);
    KindsInOrderInsert(o.log, m, Held(o), o.counter);
    OneMore(o.log, m, m.kind);
    Nothing(ToolsOf(o.log));
  }

  lemma JoinFirst(left: seq<seq<Byte>>)
    requires left != []
    ensures Join(left) == left[0] + Join(left[1..])
  {
  }

  lemma Move(emitted: seq<Byte>, first: seq<Byte>, rest: seq<Byte>, received: seq<Byte>)
    requires emitted + (first + rest) == received
    ensures (emitted + first) + rest == received
  {
    Associative(emitted, first, rest);
  }

  lemma AppendChunkUnsent(o: Output, k: Kind)
    requires Enabled(o, AppendChunk)
    ensures var o' := Do(o, AppendChunk);
      && o'.log == o.log + [NextChunk(o)] && o'.received == o.received
      && Unsent(o', k) == (if o.lock.Part() == k then Join(o.lock.left[1..]) else Unsent(o, k))
  {
    hide Join, Enabled;
  }

  lemma AppendChunkContent(o: Output, k: Kind)
    requires KindInv(o, k) && Enabled(o, AppendChunk)
    ensures KindInv(Do(o, AppendChunk), k)
  {
    var left, emitted := o.lock.left, ContentOf(o.log, k);
    OneMore(o.log, NextChunk(o), k);
    JoinFirst(left);
    AppendChunkUnsent(o, k);
    hide ContentOf, Join, Do;
    if o.lock.Part() == k {
      Move(emitted, left[0], Join(left[1..]), o.received.Content(k));
    } else {
      Nothing(emitted);
    }
  }

  lemma AppendChunkKeeps(o: Output)
    requires Inv(o) && Enabled(o, AppendChunk)
    ensures Inv(Do(o, AppendChunk))
  {
    hide NumbersInv, ToolsInv, KindInv, ContentOf, ToolsOf, Flatten, ValidUtf8;
    AppendChunkNumbers(o);
    Associative(Flatten(o.handedOff), o.batch, [NextChunk(o)]);
    if o.received.allValid {
      AppendChunkContent(o, Text);
      AppendChunkContent(o, Thinking);
      AppendChunkContent(o, ErrorText);
    }
  }

  lemma BeginErrorKeeps(o: Output, content: seq<Byte>, clean: seq<Byte>)
    requires Inv(o) && Enabled(o, BeginError(content, clean))
    ensures Inv(Do(o, BeginError(content, clean)))
  {
    hide Numbered, KindsInOrder, ToolsOf, ContentOf, Flatten, Chunks, ValidUtf8;
    ChunksAreIngestible(clean);
    Nothing(ContentOf(o.log, ErrorText));
  }

  lemma BeginFlushKeeps(o: Output, who: Flusher, clean: seq<Byte>)
    requires Inv(o) && Enabled(o, BeginFlush(who, clean))
    ensures Inv(Do(o, BeginFlush(who, clean)))
  {
    hide Numbered, KindsInOrder, ToolsOf, ContentOf, Flatten, Chunks, ValidUtf8;
    ChunksAreIngestible(clean);
    if o.pendingThinking == [] {
      EmptyIsClean(clean);
    }
  }

  lemma EndThinkingKeeps(o: Output, clean: seq<Byte>)
    requires Inv(o) && Enabled(o, EndThinking(clean))
    ensures Inv(Do(o, EndThinking(clean)))
  {
    hide Numbered, KindsInOrder, ToolsOf, ContentOf, Flatten, Chunks, CharLen;
    ChunksAreIngestible(clean);
    if o.pendingText == [] {
      EmptyIsClean(clean);
    }
  }

  lemma EndFlushKeeps(o: Output)
    requires Inv(o) && Enabled(o, EndFlush)
    ensures Inv(Do(o, EndFlush))
  {
    hide Numbered, KindsInOrder, ToolsOf, ContentOf, CharLen, Flatten;
    HandOverShape(o.batch, o.handedOff);
    Nothing(Flatten(o.handedOff));
  }

  lemma HandOverShape(batch: seq<Message>, handedOff: seq<seq<Message>>)
    ensures Flatten(handedOff + [batch]) + [] == Flatten(handedOff) + batch
  {
    FlattenAppend(handedOff, batch);
    Nothing(Flatten(handedOff + [batch]));
  }

  lemma EndErrorKeeps(o: Output)
    requires Inv(o) && Enabled(o, EndError)
    ensures Inv(Do(o, EndError))
  {
    hide Numbered, KindsInOrder, ToolsOf, ContentOf, Flatten, ValidUtf8;
  }

  lemma AppendToolContents(o: Output)
    requires ToolsInv(o) && ContentInv(o) && Enabled(o, AppendTool)
    ensures ContentInv(Do(o, AppendTool))
  {
    hide ValidUtf8, ToolsOf, ContentOf, Join;
    var m := o.reader.message;
    OneMore(o.log, m, Text);
    OneMore(o.log, m, Thinking);
    OneMore(o.log, m, ErrorText);
    Nothing(ContentOf(o.log, Text));
    Nothing(ContentOf(o.log, Thinking));
    Nothing(ContentOf(o.log, ErrorText));
  }

  lemma AppendToolNumbers(o: Output)
    requires NumbersInv(o) && ToolsInv(o) && Enabled(o, AppendTool)
    ensures NumbersInv(Do(o, AppendTool)) && ToolsInv(Do(o, AppendTool))
  {
    hide ToolsOf, ContentOf, Numbered, KindsInOrder;
    var m, o' := o.reader.message, Do(o, AppendTool);
    OneMore(o.log, m, Text);
    assert o'.log + Held(o') == o.log + Held(o) by { Nothing(o.log + [m]); }
    assert ToolsOf(o'.log) + Held(o') == ToolsOf(o.log) + Held(o) by { Nothing(ToolsOf(o.log + [m])); }
  }

  lemma AppendToolShape(o: Output)
    requires ShapeInv(o) && LockInv(o) && BoundsInv(o) && ToolsInv(o) && Enabled(o, AppendTool)
    ensures ShapeInv(Do(o, AppendTool)) && LockInv(Do(o, AppendTool)) && BoundsInv(Do(o, AppendTool))
  {
    hide ValidUtf8, ToolsOf, Flatten;
    Associative(Flatten(o.handedOff), o.batch, [o.reader.message]);
  }

  lemma AppendToolKeeps(o: Output)
    requires Inv(o) && Enabled(o, AppendTool)
    ensures Inv(Do(o, AppendTool))
  {
    hide NumbersInv, ToolsInv, ShapeInv, LockInv, BoundsInv, ContentInv, Do, Enabled;
    AppendToolNumbers(o);
    AppendToolShape(o);
    AppendToolContents(o);
  }

  lemma HoldKeeps(o: Output, m: Message)
    requires Inv(o) && o.reader.Reading? && IsTool(m) && m.number == o.counter + 1
    ensures Inv(Hold(o, m))
  {
    hide ValidUtf8, ToolsOf, ContentOf, Flatten, Numbered, KindsInOrder;
    HeldNothing(o);
    HoldNumbers(o.log, m, o.counter);
  }

  lemma HeldNothing(o: Output)
    requires !o.reader.Holding?
    ensures o.log + Held(o) == o.log && ToolsOf(o.log) + Held(o) == ToolsOf(o.log)
  {
  }

  lemma HoldNumbers(log: seq<Message>, m: Message, n: nat)
    requires Numbered(log, n) && KindsInOrder(log) && m.number == n + 1
    ensures Numbered(log + [m], n + 1) && KindsInOrder(log + [m])
  {
    hide Numbered;
    Nothing(log);
    Nothing(log + [m]);
    NumberedInsert(log, m, [], n);
    KindsInOrderLast(log, m, n);
  }

  lemma KindsInOrderLast(log: seq<Message>, m: Message, n: nat)
    requires Numbered(log, n) && KindsInOrder(log) && m.number == n + 1
    ensures KindsInOrder(log + [m])
  {
    assert forall i | 0 <= i < |log| :: (log + [m])[i] == log[i];
  }

  lemma NumberToolKeeps(o: Output, step: Step)
    requires Inv(o) && Enabled(o, step) && (step.NumberToolUse? || step.NumberToolResult?)
    ensures Inv(Do(o, step))
  {
    hide ValidUtf8, Numbered, KindsInOrder, ToolsOf, Flatten, ContentOf;
    match step {
      case NumberToolUse(callId, tool, input) =>
        var o1 := if callId != "" then o.(toolOf := o.toolOf[callId := tool]) else o;
        HoldKeeps(o1, Message(o.counter + 1, ToolUse, tool, input));
      case NumberToolResult(callId, tool, output) =>
        HoldKeeps(o, Message(o.counter + 1, ToolResult, ToolName(o, callId, tool), Truncate(output)));
    }
  }

  lemma ReceiveKeeps(o: Output, step: Step)
    requires Inv(o) && Enabled(o, step) && (step.ReceiveText? || step.ReceiveThinking?)
    ensures Inv(Do(o, step))
  {
    hide Numbered, KindsInOrder, ToolsOf, ContentOf, Flatten, CharLen, ValidUtf8;
    var content := step.content;
    if o.received.allValid && ValidUtf8(content) {
      ValidConcat(o.pendingText, content);
      ValidConcat(o.pendingThinking, content);
      Associative(ContentOf(o.log, Text), o.pendingText, content);
      Associative(ContentOf(o.log, Thinking), o.pendingThinking, content);
    }
  }

  lemma StartShape()
    ensures ToolsInv(START) && ShapeInv(START) && BoundsInv(START)
  {
    assert Flatten(START.handedOff) + START.batch == [];
    assert ToolsOf(START.log) + Held(START) == [];
  }

  lemma StartContent()
    ensures ContentInv(START)
  {
    hide CharLen;
    Nothing<Byte>([]);
  }

  lemma StartInv()
    ensures Inv(START)
  {
    hide ToolsInv, ShapeInv, BoundsInv, ContentInv;
    StartShape();
    StartContent();
    assert START.log + Held(START) == [];
  }

  lemma StepKeepsInv(o: Output, step: Step)
    requires Inv(o) && Enabled(o, step)
    ensures Inv(Do(o, step))
  {
    hide Inv;
    match step {
      case ReceiveText(_) => ReceiveKeeps(o, step);
      case ReceiveThinking(_) => ReceiveKeeps(o, step);
      case BeginError(content, clean) => BeginErrorKeeps(o, content, clean);
      case EndError => EndErrorKeeps(o);
      case AppendTool => AppendToolKeeps(o);
      case BeginFlush(who, clean) => BeginFlushKeeps(o, who, clean);
      case AppendChunk => AppendChunkKeeps(o);
      case EndThinking(clean) => EndThinkingKeeps(o, clean);
      case EndFlush => EndFlushKeeps(o);
      case _ => NumberToolKeeps(o, step);
    }
  }

  ghost predicate IsRun(run: seq<Output>, steps: seq<Step>) {
    && |run| == |steps| + 1
    && run[0] == START
    && forall k | 0 <= k < |steps| :: Moves(run[k], steps[k], run[k + 1])
  }

  ghost predicate Moves(o: Output, step: Step, o': Output) {
    Enabled(o, step) && o' == Do(o, step)
  }

  lemma {:induction false} RunKeepsInv(run: seq<Output>, steps: seq<Step>, k: nat)
    requires IsRun(run, steps) && k < |run|
    ensures Inv(run[k])
  {
    hide Inv, Enabled, Do;
    if k == 0 {
      StartInv();
    } else {
      RunKeepsInv(run, steps, k - 1);
      assert Moves(run[k - 1], steps[k - 1], run[k]);
      StepKeepsInv(run[k - 1], steps[k - 1]);
    }
  }

  // ---------- who may go on ----------

  // While one side's section is under way, the other does nothing but take
  // numbers: batch and buffers change by the section's own steps only.
  lemma LockExcludes(run: seq<Output>, steps: seq<Step>, k: nat)
    requires IsRun(run, steps) && k < |steps| && !run[k].lock.Free?
    ensures var o, o', step := run[k], run[k + 1], steps[k];
      if TakesNumber(step) then
        && o.reader.Reading? && o'.reader.Holding? && o'.lock == o.lock && o'.batch == o.batch
        && o'.pendingText == o.pendingText && o'.pendingThinking == o.pendingThinking && o'.handedOff == o.handedOff
      else step.AppendChunk? || step.EndThinking? || step.EndFlush? || step.EndError?
  {
    hide Chunks, Cleans;
    assert Moves(run[k], steps[k], run[k + 1]);
  }

  // The reader takes whatever comes when it is at liberty and the lock is free,
  // numbers tool messages without it, and holds on to a numbered one until it
  // gets the lock; either flusher begins when the lock is free, and of a section
  // under way there is always exactly one next step.
  lemma WhoMayGoOn(run: seq<Output>, steps: seq<Step>, k: nat, content: seq<Byte>, clean: seq<Byte>,
                   callId: string, tool: string, who: Flusher)
    requires IsRun(run, steps) && k < |run|
    ensures var o := run[k]; var free := o.lock.Free?; var idle := o.reader.Reading? && free;
      var sectionDone := !free && o.lock.left == [];
      && (Enabled(o, ReceiveText(content)) <==> idle && content != [])
      && (Enabled(o, ReceiveThinking(content)) <==> idle && content != [])
      && (Enabled(o, BeginError(content, clean)) <==> idle && Cleans(content, clean))
      && (Enabled(o, NumberToolUse(callId, tool, content)) <==> o.reader.Reading?)
      && (Enabled(o, NumberToolResult(callId, tool, content)) <==> o.reader.Reading?)
      && (Enabled(o, AppendTool) <==> o.reader.Holding? && free)
      && (Enabled(o, BeginFlush(who, clean)) <==>
            free && (who.Final? ==> idle) && Cleans(o.pendingThinking, clean))
      && (Enabled(o, AppendChunk) <==> !free && !sectionDone)
      && (Enabled(o, EndError) <==> o.reader.Reporting? && sectionDone)
      && (Enabled(o, EndThinking(clean)) <==> o.lock.ThinkingPart? && sectionDone && Cleans(o.pendingText, clean))
      && (Enabled(o, EndFlush) <==> sectionDone && !o.lock.ThinkingPart? && !o.reader.Reporting?)
  {
    hide NumbersInv, ToolsInv, ShapeInv, BoundsInv, ContentInv, ValidUtf8, CharLen, Chunks;
    RunKeepsInv(run, steps, k);
  }

  // ---------- which tool a result belongs to ----------

  // The tool named by the latest use with this call id among the first k steps.
  function LatestUse(steps: seq<Step>, k: nat, callId: string): string
    requires k <= |steps|
  {
    if k == 0 then ""
    else if steps[k - 1].NumberToolUse? && steps[k - 1].callId == callId then steps[k - 1].tool
    else LatestUse(steps, k - 1, callId)
  }

  lemma StepToolFor(o: Output, step: Step, callId: string)
    requires Enabled(o, step) && callId != ""
    ensures ToolFor(Do(o, step), callId)
         == if step.NumberToolUse? && step.callId == callId then step.tool else ToolFor(o, callId)
  {
    hide Chunks, ValidUtf8, CharLen;
  }

  lemma {:induction false} ToolOfIsLatestUse(run: seq<Output>, steps: seq<Step>, k: nat, callId: string)
    requires IsRun(run, steps) && k < |run| && callId != ""
    ensures ToolFor(run[k], callId) == LatestUse(steps, k, callId)
  {
    hide Enabled, Do;
    if k > 0 {
      ToolOfIsLatestUse(run, steps, k - 1, callId);
      assert Moves(run[k - 1], steps[k - 1], run[k]);
      StepToolFor(run[k - 1], steps[k - 1], callId);
    }
  }

  // A result that names no tool is reported under the tool of the latest use
  // with its call id; one that names a tool keeps it. Of its output the first
  // TOOL_OUTPUT_BYTES bytes are kept.
  lemma ResultAsReported(run: seq<Output>, steps: seq<Step>, k: nat)
    requires IsRun(run, steps) && k < |steps| && steps[k].NumberToolResult?
    ensures run[k + 1].reader.Holding?
    ensures var named := run[k + 1].reader.message.tool; var given := steps[k].tool;
      named == if given != "" || steps[k].callId == "" then given else LatestUse(steps, k, steps[k].callId)
    ensures var kept := run[k + 1].reader.message.content; var output := steps[k].output;
      kept <= output && |kept| == if |output| < 8192 then |output| else 8192
  {
    hide Chunks, ValidUtf8, CharLen, LatestUse;
    assert Moves(run[k], steps[k], run[k + 1]);
    if steps[k].callId != "" {
      ToolOfIsLatestUse(run, steps, k, steps[k].callId);
    }
  }

  // ---------- what came in ----------

  // The content of this kind that comes with a step.
  function Brings(step: Step, kind: Kind): seq<Byte> {
    match step
    case ReceiveText(content) => if kind == Text then content else []
    case ReceiveThinking(content) => if kind == Thinking then content else []
    case BeginError(content, _) => if kind == ErrorText then content else []
    case _ => []
  }

  // What came with the first k steps, in order.
  function Incoming(steps: seq<Step>, k: nat, kind: Kind): seq<Byte>
    requires k <= |steps|
  {
    if k == 0 then [] else Incoming(steps, k - 1, kind) + Brings(steps[k - 1], kind)
  }

  // All content that came with the first k steps was valid.
  ghost predicate ValidSoFar(steps: seq<Step>, k: nat)
    requires k <= |steps|
  {
    forall j | 0 <= j < k && (steps[j].ReceiveText? || steps[j].ReceiveThinking? || steps[j].BeginError?) ::
      ValidUtf8(steps[j].content)
  }

  // Where among the first k steps the tool messages came.
  function ToolSteps(steps: seq<Step>, k: nat): (ps: seq<nat>)
    requires k <= |steps|
    ensures forall j | 0 <= j < |ps| :: ps[j] < k
  {
    if k == 0 then [] else ToolSteps(steps, k - 1) + if TakesNumber(steps[k - 1]) then [k - 1] else []
  }

  // The message is what is to be reported of the tool message that came with step p.
  ghost predicate Reports(m: Message, steps: seq<Step>, p: nat)
    requires p < |steps|
  {
    match steps[p]
    case NumberToolUse(_, tool, input) =>
      m.kind == ToolUse && m.tool == tool && m.content == input
    case NumberToolResult(callId, tool, output) =>
      && m.kind == ToolResult
      && m.tool == (if tool != "" || callId == "" then tool else LatestUse(steps, p, callId))
      && m.content <= output && |m.content| == if |output| < 8192 then |output| else 8192
    case _ => false
  }

  lemma StepReceives(o: Output, step: Step, kind: Kind)
    requires Enabled(o, step)
    ensures Do(o, step).received.Content(kind) == o.received.Content(kind) + Brings(step, kind)
    ensures var valid := step.ReceiveText? || step.ReceiveThinking? || step.BeginError? ==> ValidUtf8(step.content);
      Do(o, step).received.allValid <==> o.received.allValid && valid
    ensures !TakesNumber(step) ==> Do(o, step).received.tools == o.received.tools
  {
    hide Chunks, ValidUtf8, CharLen;
    Nothing(o.received.Content(kind));
  }

  lemma {:induction false} ReceivedIsIncoming(run: seq<Output>, steps: seq<Step>, k: nat, kind: Kind)
    requires IsRun(run, steps) && k < |run|
    ensures run[k].received.Content(kind) == Incoming(steps, k, kind)
    ensures run[k].received.allValid <==> ValidSoFar(steps, k)
  {
    hide Enabled, Do, ValidUtf8, ValidSoFar, Brings;
    if k > 0 {
      ReceivedIsIncoming(run, steps, k - 1, kind);
      assert Moves(run[k - 1], steps[k - 1], run[k]);
      StepReceives(run[k - 1], steps[k - 1], kind);
      ValidOneMore(steps, k);
    } else {
      NothingIncoming(steps, kind);
    }
  }

  lemma ValidOneMore(steps: seq<Step>, k: nat)
    requires 0 < k <= |steps|
    ensures var step := steps[k - 1];
      var valid := step.ReceiveText? || step.ReceiveThinking? || step.BeginError? ==> ValidUtf8(step.content);
      ValidSoFar(steps, k) <==> ValidSoFar(steps, k - 1) && valid
  {
    hide ValidUtf8;
  }

  lemma NothingIncoming(steps: seq<Step>, kind: Kind)
    ensures START.received.Content(kind) == Incoming(steps, 0, kind) && ValidSoFar(steps, 0)
  {
  }

  lemma {:induction false} ToolsAreReported(run: seq<Output>, steps: seq<Step>, k: nat)
    requires IsRun(run, steps) && k < |run|
    ensures var tools, ps := run[k].received.tools, ToolSteps(steps, k);
      |tools| == |ps| && forall j | 0 <= j < |ps| :: Reports(tools[j], steps, ps[j])
  {
    hide Enabled, Do, Reports;
    if k > 0 {
      ToolsAreReported(run, steps, k - 1);
      assert Moves(run[k - 1], steps[k - 1], run[k]);
      StepReceives(run[k - 1], steps[k - 1], Text);
      if TakesNumber(steps[k - 1]) {
        NumberedToolReports(run, steps, k - 1);
      }
    }
  }

  lemma NumberedToolReports(run: seq<Output>, steps: seq<Step>, k: nat)
    requires IsRun(run, steps) && k < |steps| && TakesNumber(steps[k])
    ensures run[k + 1].reader.Holding? && Reports(run[k + 1].reader.message, steps, k)
    ensures run[k + 1].received.tools == run[k].received.tools + [run[k + 1].reader.message]
  {
    hide Chunks, ValidUtf8, CharLen, LatestUse;
    assert Moves(run[k], steps[k], run[k + 1]);
    if steps[k].NumberToolResult? {
      ResultAsReported(run, steps, k);
    }
  }

  // ---------- reading the output back in sequence order ----------

  function FindNumber(ms: seq<Message>, n: nat): Option<Message> {
    if ms == [] then None
    else if Last(ms).number == n then Some(Last(ms))
    else FindNumber(ms[..|ms| - 1], n)
  }

  // The content of the messages of this kind among those numbered 1..n, in
  // order of their numbers.
  function ContentByNumber(ms: seq<Message>, kind: Kind, n: nat): seq<Byte> {
    if n == 0 then []
    else ContentByNumber(ms, kind, n - 1) +
         (match FindNumber(ms, n)
          case Some(m) => if m.kind == kind then m.content else []
          case None => [])
  }

  lemma {:induction false} FindNumberExact(ms: seq<Message>, n: nat)
    ensures FindNumber(ms, n).None? ==> !HasNumber(ms, n)
    ensures FindNumber(ms, n).Some? ==> FindNumber(ms, n).value.number == n
    ensures FindNumber(ms, n).Some? ==> exists i | 0 <= i < |ms| :: ms[i] == FindNumber(ms, n).value
  {
    if ms != [] {
      FindNumberExact(ms[..|ms| - 1], n);
    }
  }

  // Dropping the last message changes nothing below its number.
  lemma {:induction false} ContentByNumberPrefix(ms: seq<Message>, kind: Kind, n: nat)
    requires ms != [] && (n < Last(ms).number || Last(ms).kind != kind)
    requires forall i | 0 <= i < |ms| - 1 :: ms[i].number != Last(ms).number
    ensures ContentByNumber(ms, kind, n) == ContentByNumber(ms[..|ms| - 1], kind, n)
  {
    if n > 0 {
      ContentByNumberPrefix(ms, kind, n - 1);
      FindNumberExact(ms[..|ms| - 1], n);
    }
  }

  // Above the numbers of all messages of the kind there is no more content.
  lemma {:induction false} ContentByNumberAbove(ms: seq<Message>, kind: Kind, m: nat, n: nat)
    requires m <= n
    requires forall i | 0 <= i < |ms| && ms[i].kind == kind :: ms[i].number <= m
    ensures ContentByNumber(ms, kind, n) == ContentByNumber(ms, kind, m)
  {
    if m < n {
      ContentByNumberAbove(ms, kind, m, n - 1);
      FindNumberExact(ms, n);
    }
  }

  lemma {:induction false} ContentInNumberOrder(ms: seq<Message>, kind: Kind, n: nat)
    requires forall i | 0 <= i < |ms| :: 1 <= ms[i].number <= n
    requires forall i, j | 0 <= i < j < |ms| :: ms[i].number != ms[j].number
    requires KindsInOrder(ms)
    ensures ContentByNumber(ms, kind, n) == ContentOf(ms, kind)
  {
    if ms == [] {
      ContentByNumberAbove(ms, kind, 0, n);
    } else {
      var front, m := ms[..|ms| - 1], Last(ms);
      ContentInNumberOrder(front, kind, n);
      if m.kind != kind {
        ContentByNumberPrefix(ms, kind, n);
      } else {
        ContentByNumberAbove(ms, kind, m.number, n);
        ContentByNumberPrefix(ms, kind, m.number - 1);
        ContentByNumberAbove(front, kind, m.number - 1, n);
      }
    }
  }

  lemma ReadBack(ms: seq<Message>, kind: Kind, n: nat)
    requires Numbered(ms, n) && KindsInOrder(ms)
    ensures ContentByNumber(ms, kind, n) == ContentOf(ms, kind)
  {
    ContentInNumberOrder(ms, kind, n);
  }

  // In every interleaving of the reader with any number of ticker flushes, once
  // the final flush is done: the batches handed off hold the numbers 1..n, each
  // exactly once, in order for each kind; no batch is empty and nothing is
  // pending; each tool message that came in is reported exactly once, in order;
  // every content message is valid UTF-8 within the field limit; and if what came
  // in was valid UTF-8, the text, thinking and error contents in number order are
  // what came in.
  lemma OutputIsConserved(run: seq<Output>, steps: seq<Step>, k: nat)
    requires IsRun(run, steps) && k < |run| && run[k].reader.Finished?
    ensures var o := run[k]; var ms := Flatten(o.handedOff); var ps := ToolSteps(steps, k);
      && Numbered(ms, |ms|) && KindsInOrder(ms)
      && (forall b | 0 <= b < |o.handedOff| :: o.handedOff[b] != [])
      && o.batch == [] && o.pendingText == [] && o.pendingThinking == []
      && |ToolsOf(ms)| == |ps| && (forall j | 0 <= j < |ps| :: Reports(ToolsOf(ms)[j], steps, ps[j]))
      && (forall i | 0 <= i < |ms| && !ms[i].kind.ToolUse? && !ms[i].kind.ToolResult? ::
            0 < |ms[i].content| <= 64 * 1024 && ValidUtf8(ms[i].content))
      && (ValidSoFar(steps, k) ==>
            forall kind: Kind | !kind.ToolUse? && !kind.ToolResult? ::
                ContentByNumber(ms, kind, |ms|) == Incoming(steps, k, kind))
  {
    hide CharLen, Moves, ContentByNumber, Flatten, ToolsOf, ContentOf, ValidUtf8, Numbered, KindsInOrder, Reports,
        ValidSoFar;
    RunKeepsInv(run, steps, k);
    var o := run[k];
    var ms := Flatten(o.handedOff);
    Nothing(ms);
    Nothing(ToolsOf(ms));
    CountNumbered(ms, o.counter);
    ToolsAreReported(run, steps, k);
    forall kind: Kind | !kind.ToolUse? && !kind.ToolResult?
      ensures ValidSoFar(steps, k) ==> ContentByNumber(ms, kind, |ms|) == Incoming(steps, k, kind)
    {
      ReceivedIsIncoming(run, steps, k, kind);
      ReadBack(ms, kind, o.counter);
      assert Unsent(o, kind) == [];
      Nothing(ContentOf(ms, kind));
    }
  }

  lemma WithoutTheLargest(ms: seq<Message>, i: nat, n: nat)
    requires Numbered(ms, n) && i < |ms| && ms[i].number == n
    ensures Numbered(ms[..i] + ms[i + 1..], n - 1)
  {
    var rest := ms[..i] + ms[i + 1..];
    assert forall j | 0 <= j < |rest| :: rest[j] == ms[if j < i then j else j + 1];
    forall k | 1 <= k <= n - 1
      ensures HasNumber(rest, k)
    {
      assert HasNumber(ms, k);
      var j :| 0 <= j < |ms| && ms[j].number == k;
      assert rest[if j < i then j else j - 1].number == k;
    }
  }

  lemma SomeNumber(ms: seq<Message>, n: nat)
    requires Numbered(ms, n) && ms != []
    ensures 1 <= n
  {
    assert 1 <= ms[0].number <= n;
  }

  // n distinct numbers filling 1..n are exactly n messages.
  lemma {:induction false} CountNumbered(ms: seq<Message>, n: nat)
    requires Numbered(ms, n)
    ensures |ms| == n
    decreases n
  {
    if ms != [] {
      SomeNumber(ms, n);
    }
    if n > 0 {
      assert HasNumber(ms, n);
      var i :| 0 <= i < |ms| && ms[i].number == n;
      WithoutTheLargest(ms, i, n);
      CountNumbered(ms[..i] + ms[i + 1..], n - 1);
    }
  }

  // protocol.TaskMessageBatchSize
  const BATCH_SIZE: nat := 100

  // ReportTaskMessages of client.go: a handed-off batch is posted in order, in
  // requests of at most BATCH_SIZE; the first failing post ends it.
  method ReportTaskMessages(messages: seq<Message>, accepts: nat -> bool)
      returns (posted: seq<seq<Message>>, failed: bool)
    ensures forall k | 0 <= k < |posted| ::
      && 100 * k < |messages|
      && posted[k] == messages[100 * k..if 100 * k + 100 < |messages| then 100 * k + 100 else |messages|]
    ensures forall k | 0 <= k < |posted| :: accepts(k)
    ensures failed ==> 100 * |posted| < |messages| && !accepts(|posted|)
    ensures Flatten(posted) <= messages && (!failed ==> Flatten(posted) == messages)
  {
    posted := [];
    var start := 0;
    assert Flatten([]) == messages[..0];
    hide Flatten;
    while start < |messages|
      invariant start == |posted| * BATCH_SIZE
      invariant Flatten(posted) == messages[..if start < |messages| then start else |messages|]
      invariant forall k | 0 <= k < |posted| ::
        && accepts(k) && 100 * k < |messages|
        && posted[k] == messages[100 * k..if 100 * k + 100 < |messages| then 100 * k + 100 else |messages|]
    {
      var end := if start + BATCH_SIZE < |messages| then start + BATCH_SIZE else |messages|;
      if !accepts(|posted|) {
        return posted, true;
      }
      FlattenAppend(posted, messages[start..end]);
      assert messages[..end] == messages[..start] + messages[start..end];
      posted := posted + [messages[start..end]];
      start := start + BATCH_SIZE;
    }
    assert messages[..|messages|] == messages;
    failed := false;
  }

  // ---------- the shared variables and their critical sections ----------

  // The state after a sequence of steps, if each was enabled.
  function After(o: Output, steps: seq<Step>): Option<Output> {
    if steps == [] then Some(o)
    else
      var before := After(o, steps[..|steps| - 1]);
      if before.Some? && Enabled(before.value, Last(steps)) then Some(Do(before.value, Last(steps))) else None
  }

  lemma AfterOneMore(o: Output, steps: seq<Step>, step: Step)
    requires After(o, steps).Some? && Enabled(After(o, steps).value, step)
    ensures After(o, steps + [step]) == Some(Do(After(o, steps).value, step))
  {
    assert (steps + [step])[..|steps|] == steps;
  }

  lemma {:induction false} AfterConcat(o: Output, first: seq<Step>, more: seq<Step>)
    requires After(o, first).Some?
    ensures After(o, first + more) == After(After(o, first).value, more)
  {
    if more == [] {
      assert first + more == first;
    } else {
      AfterConcat(o, first, more[..|more| - 1]);
      assert (first + more)[..|first + more| - 1] == first + more[..|more| - 1];
    }
  }

  lemma AfterNone(o: Output)
    ensures After(o, []) == Some(o)
  {
  }

  lemma {:induction false} AfterKeepsInv(o: Output, steps: seq<Step>)
    requires Inv(o) && After(o, steps).Some?
    ensures Inv(After(o, steps).value)
  {
    hide Inv, Do, Enabled;
    if steps != [] {
      AfterKeepsInv(o, steps[..|steps| - 1]);
      StepKeepsInv(After(o, steps[..|steps| - 1]).value, Last(steps));
    }
  }

  const M1 := Message(1, Thinking, "", [0x61])
  const M2 := Message(2, ToolUse, "sh", [])
  const M3 := Message(3, Text, "", [0x62])
  const HALFWAY := Output(1, [M1], [0x62], [0x61], map[], ThinkingPart(Ticker, []), Reading, [],
                          Received([0x62], [0x61], [], true, []), [M1])

  lemma FirstChunkAppended() returns (steps: seq<Step>)
    ensures After(START, steps) == Some(HALFWAY)
  {
    AfterNone(START);
    OneByteText(0x61);
    OneByteText(0x62);
    hide After, Chunks, ValidUtf8;
    var received := Received([0x62], [0x61], [], true, []);
    var o := START.(pendingThinking := [0x61], received := received.(text := []));
    steps := Extend([], ReceiveThinking([0x61]), START, o);
    var both := o.(pendingText := [0x62], received := received);
    steps := Extend(steps, ReceiveText([0x62]), o, both);
    var locked := both.(lock := ThinkingPart(Ticker, [[0x61]]));
    steps := Extend(steps, BeginFlush(Ticker, [0x61]), both, locked);
    assert locked.batch + [M1] == [M1] && [[0x61 as Byte]][1..] == [];
    steps := Extend(steps, AppendChunk, locked, HALFWAY);
  }

  // A tool number taken while a flush is under way: the flush hands off the
  // numbers 1 and 3, and 2 goes into the next batch.
  lemma ToolNumberInsideFlush() returns (steps: seq<Step>)
    ensures var o := After(START, steps);
      o.Some? && o.value.lock.Free? && o.value.handedOff == [[M1, M3]] && o.value.batch == [M2]
  {
    steps := FirstChunkAppended();
    OneByteText(0x62);
    hide After, Chunks, ValidUtf8;
    var numbered := HALFWAY.(counter := 2, reader := Holding(M2), received := HALFWAY.received.(tools := [M2]));
    steps := Extend(steps, NumberToolUse("", "sh", []), HALFWAY, numbered);
    var text := numbered.(pendingThinking := [], lock := TextPart(Ticker, [[0x62]]));
    steps := Extend(steps, EndThinking([0x62]), numbered, text);
    var last := text.(lock := TextPart(Ticker, []), counter := 3, batch := [M1, M3], log := [M1, M3]);
    assert [M1] + [M3] == [M1, M3] && [[0x62 as Byte]][1..] == [];
    steps := Extend(steps, AppendChunk, text, last);
    var flushed := last.(lock := Free, pendingText := [], batch := [], handedOff := [[M1, M3]]);
    steps := Extend(steps, EndFlush, last, flushed);
    steps := Extend(steps, AppendTool, flushed, flushed.(batch := [M2], log := [M1, M3] + [M2], reader := Reading));
  }

  lemma Extend(steps: seq<Step>, step: Step, o: Output, next: Output) returns (steps': seq<Step>)
    requires After(START, steps) == Some(o) && Enabled(o, step) && Do(o, step) == next
    ensures After(START, steps') == Some(next)
  {
    AfterOneMore(START, steps, step);
    steps' := steps + [step];
  }

  lemma OneByteText(b: Byte)
    requires b <= 0x7F
    ensures ValidUtf8([b]) && Chunks([b], FIELD_BYTES) == [[b]]
  {
    assert [b][1..] == [];
  }

  // The steps the reader may take while the ticker has the lock.
  predicate TakesNumber(step: Step) {
    step.NumberToolUse? || step.NumberToolResult?
  }

  // The messages of one section: the chunks in order, with growing numbers above n.
  ghost predicate Chunked(ms: seq<Message>, chunks: seq<seq<Byte>>, kind: Kind, n: nat) {
    && |ms| == |chunks|
    && (forall i | 0 <= i < |ms| :: ms[i] == Message(ms[i].number, kind, "", chunks[i]) && n < ms[i].number)
    && (forall i, j | 0 <= i < j < |ms| :: ms[i].number < ms[j].number)
  }

  lemma ChunkedNone(chunks: seq<seq<Byte>>, kind: Kind, n: nat)
    ensures Chunked([], chunks[..0], kind, n)
  {
  }

  lemma ChunkedOneMore(ms: seq<Message>, chunks: seq<seq<Byte>>, k: nat, kind: Kind, n: nat, m: Message)
    requires k < |chunks| && Chunked(ms, chunks[..k], kind, n)
    requires n < m.number && m == Message(m.number, kind, "", chunks[k])
    requires forall i | 0 <= i < |ms| :: ms[i].number < m.number
    ensures Chunked(ms + [m], chunks[..k + 1], kind, n)
  {
    assert forall i | 0 <= i < k :: chunks[..k + 1][i] == chunks[..k][i];
  }

  lemma ChunkedAbove(ms: seq<Message>, chunks: seq<seq<Byte>>, kind: Kind, n: nat, least: nat)
    requires Chunked(ms, chunks, kind, n) && least <= n
    ensures Chunked(ms, chunks, kind, least)
    ensures forall i | 0 <= i < |ms| :: n < ms[i].number
  {
  }

  class MessagePump {
    var counter: nat
    var batch: seq<Message>
    var pendingText: seq<Byte>
    var pendingThinking: seq<Byte>
    var toolOf: map<string, string>
    ghost var lock: Lock
    var reader: Reader
    ghost var handedOff: seq<seq<Message>>
    ghost var received: Received
    ghost var log: seq<Message>

    ghost function View(): Output
      reads this
    {
      Output(counter, batch, pendingText, pendingThinking, toolOf, lock, reader, handedOff, received, log)
    }

    constructor ()
      ensures View() == START
    {
      counter, batch, pendingText, pendingThinking, toolOf := 0, [], [], [], map[];
      lock, reader, handedOff, received, log := Free, Reading, [], Received([], [], [], true, []), [];
    }

    // The loop over the chunks of one part. other(k) is the tool message the
    // reader numbers just before chunk k, if it is at liberty to.
    method AppendContentLocked(kind: Kind, clean: seq<Byte>, other: nat -> Option<Step>)
        returns (ghost steps: seq<Step>)
      requires !lock.Free? && lock.Part() == kind && lock.left == Chunks(clean, FIELD_BYTES)
      requires forall k | other(k).Some? :: TakesNumber(other(k).value)
      modifies this
      ensures After(old(View()), steps) == Some(View())
      ensures forall s | s in steps :: s.AppendChunk? || TakesNumber(s)
      ensures lock == old(lock).(left := []) && old(counter) <= counter
      ensures !old(reader).Reading? ==> reader == old(reader) && received == old(received)
      ensures pendingText == old(pendingText) && pendingThinking == old(pendingThinking) && handedOff == old(handedOff)
      ensures |old(batch)| <= |batch| && batch[..|old(batch)|] == old(batch)
      ensures Chunked(batch[|old(batch)|..], Chunks(clean, 64 * 1024), kind, old(counter))
      ensures forall i | |old(batch)| <= i < |batch| :: batch[i].number <= counter
    {
      hide Chunks, Cleans, After, Chunked, Hold, ToolName, Truncate;
      var chunks := SplitTaskMessageContent(clean, FIELD_BYTES);
      ghost var news: seq<Message> := [];
      steps := [];
      AfterNone(View());
      ChunkedNone(chunks, kind, counter);
      for k := 0 to |chunks|
        invariant After(old(View()), steps) == Some(View())
        invariant forall s | s in steps :: s.AppendChunk? || TakesNumber(s)
        invariant lock == old(lock).(left := chunks[k..]) && old(counter) <= counter
        invariant pendingText == old(pendingText) && pendingThinking == old(pendingThinking)
            && handedOff == old(handedOff)
        invariant !old(reader).Reading? ==> reader == old(reader) && received == old(received)
        invariant batch == old(batch) + news && Chunked(news, chunks[..k], kind, old(counter))
        invariant forall i | 0 <= i < |news| :: news[i].number <= counter
      {
        steps := Interfere(other(k), old(View()), steps);
        AfterOneMore(old(View()), steps, AppendChunk);
        steps := steps + [AppendChunk];
        var m := PutChunk(kind, chunks[k]);
        ChunkedOneMore(news, chunks, k, kind, old(counter), m);
        Associative(old(batch), news, [m]);
        news := news + [m];
      }
      assert chunks[..|chunks|] == chunks && batch[|old(batch)|..] == news;
    }

    method PutChunk(kind: Kind, chunk: seq<Byte>) returns (m: Message)
      requires Enabled(View(), AppendChunk) && lock.Part() == kind && lock.left[0] == chunk
      modifies this
      ensures View() == Do(old(View()), AppendChunk) && m == NextChunk(old(View()))
    {
      counter := counter + 1;
      m := Message(counter, kind, "", chunk);
      batch, log := batch + [m], log + [m];
      lock := lock.(left := lock.left[1..]);
    }

    // What the reader does outside the lock with a tool message.
    method TakeNumber(step: Step)
      requires TakesNumber(step) && Enabled(View(), step)
      modifies this
      ensures View() == Do(old(View()), step)
      ensures lock == old(lock) && batch == old(batch) && handedOff == old(handedOff) && counter == old(counter) + 1
      ensures pendingText == old(pendingText) && pendingThinking == old(pendingThinking)
    {
      match step {
        case NumberToolUse(callId, tool, input) =>
          var _ := OnToolUse(callId, tool, input);
        case NumberToolResult(callId, tool, output) =>
          var _ := OnToolResult(callId, tool, output);
      }
    }

    // The reader numbers a tool message if there is one and it is at liberty to.
    method Interfere(step: Option<Step>, ghost start: Output, ghost steps: seq<Step>)
        returns (ghost steps': seq<Step>)
      requires step.Some? ==> TakesNumber(step.value)
      requires After(start, steps) == Some(View())
      modifies this
      ensures After(start, steps') == Some(View())
      ensures steps' == if step.Some? && old(reader).Reading? then steps + [step.value] else steps
      ensures lock == old(lock) && batch == old(batch) && handedOff == old(handedOff) && old(counter) <= counter
      ensures pendingText == old(pendingText) && pendingThinking == old(pendingThinking)
      ensures !old(reader).Reading? ==> reader == old(reader) && received == old(received)
    {
      hide After, Hold, ToolName, Truncate;
      steps' := steps;
      if step.Some? && reader.Reading? {
        AfterOneMore(start, steps, step.value);
        TakeNumber(step.value);
        steps' := steps + [step.value];
      }
    }

    // One flush. Whatever numbers the reader takes meanwhile, what was in the
    // batch comes first, then all thinking, then all text.
    method FlushOnce(who: Flusher, cleanThinking: seq<Byte>, cleanText: seq<Byte>,
                     duringThinking: nat -> Option<Step>, duringText: nat -> Option<Step>)
        returns (toSend: seq<Message>, ghost steps: seq<Step>, ghost thinking: seq<Message>, ghost text: seq<Message>)
      requires Enabled(View(), BeginFlush(who, cleanThinking)) && Cleans(pendingText, cleanText)
      requires forall k | duringThinking(k).Some? :: TakesNumber(duringThinking(k).value)
      requires forall k | duringText(k).Some? :: TakesNumber(duringText(k).value)
      modifies this
      ensures After(old(View()), steps) == Some(View())
      ensures lock.Free? && batch == [] && pendingText == [] && pendingThinking == []
      ensures handedOff == if toSend == [] then old(handedOff) else old(handedOff) + [toSend]
      ensures toSend == old(batch) + thinking + text
      ensures Chunked(thinking, Chunks(cleanThinking, FIELD_BYTES), Thinking, old(counter))
      ensures Chunked(text, Chunks(cleanText, FIELD_BYTES), Text, old(counter))
      ensures forall i, j | 0 <= i < |thinking| && 0 <= j < |text| :: thinking[i].number < text[j].number
    {
      hide Chunks, Chunked, ReceiveContent, CharLen, ValidUtf8, After, Do;
      ghost var start := View();
      ghost var more;
      steps := [];
      AfterNone(start);
      AfterOneMore(start, steps, BeginFlush(who, cleanThinking));
      steps := steps + [BeginFlush(who, cleanThinking)];
      Enter(who, cleanThinking);
      more := AppendContentLocked(Thinking, cleanThinking, duringThinking);
      AfterConcat(start, steps, more);
      steps := steps + more;
      thinking := batch[|old(batch)|..];
      AfterOneMore(start, steps, EndThinking(cleanText));
      steps := steps + [EndThinking(cleanText)];
      ResetThinking(cleanText);
      ghost var before, n := batch, counter;
      more := AppendContentLocked(Text, cleanText, duringText);
      AfterConcat(start, steps, more);
      steps := steps + more;
      text := batch[|before|..];
      ChunkedAbove(text, Chunks(cleanText, FIELD_BYTES), Text, n, old(counter));
      AfterOneMore(start, steps, EndFlush);
      steps := steps + [EndFlush];
      toSend := Leave(who);
    }

    method Enter(who: Flusher, clean: seq<Byte>)
      requires Enabled(View(), BeginFlush(who, clean))
      modifies this
      ensures View() == Do(old(View()), BeginFlush(who, clean))
      ensures lock == ThinkingPart(who, Chunks(clean, FIELD_BYTES))
      ensures counter == old(counter) && batch == old(batch) && handedOff == old(handedOff)
      ensures pendingText == old(pendingText) && pendingThinking == old(pendingThinking)
    {
      lock, reader := ThinkingPart(who, Chunks(clean, FIELD_BYTES)), if who.Final? then Closing else reader;
    }

    method ResetThinking(clean: seq<Byte>)
      requires Enabled(View(), EndThinking(clean))
      modifies this
      ensures View() == Do(old(View()), EndThinking(clean))
      ensures lock == TextPart(old(lock).who, Chunks(clean, FIELD_BYTES)) && pendingThinking == []
      ensures counter == old(counter) && batch == old(batch) && handedOff == old(handedOff)
      ensures pendingText == old(pendingText)
    {
      pendingThinking := [];
      lock := TextPart(lock.who, Chunks(clean, FIELD_BYTES));
    }

    method Leave(who: Flusher) returns (toSend: seq<Message>)
      requires Enabled(View(), EndFlush) && lock.who == who
      modifies this
      ensures View() == Do(old(View()), EndFlush)
      ensures lock.Free? && batch == [] && pendingText == [] && pendingThinking == old(pendingThinking)
      ensures toSend == old(batch)
      ensures handedOff == if toSend == [] then old(handedOff) else old(handedOff) + [toSend]
    {
      pendingText := [];
      toSend := batch;
      batch := [];
      lock, reader := Free, if who.Final? then Finished else reader;
      if |toSend| > 0 {
        handedOff := handedOff + [toSend];
      }
    }

    method OnText(content: seq<Byte>)
      requires Enabled(View(), ReceiveText(content))
      modifies this
      ensures View() == Do(old(View()), ReceiveText(content))
    {
      pendingText := pendingText + content;
      received := ReceiveContent(received, Text, content);
    }

    method OnThinking(content: seq<Byte>)
      requires Enabled(View(), ReceiveThinking(content))
      modifies this
      ensures View() == Do(old(View()), ReceiveThinking(content))
    {
      pendingThinking := pendingThinking + content;
      received := ReceiveContent(received, Thinking, content);
    }

    // The reader has the lock itself, so nobody takes a number meanwhile.
    method OnError(content: seq<Byte>, clean: seq<Byte>) returns (ghost steps: seq<Step>)
      requires Enabled(View(), BeginError(content, clean))
      modifies this
      ensures After(old(View()), steps) == Some(View())
      ensures lock.Free? && reader.Reading? && |old(batch)| <= |batch| && batch[..|old(batch)|] == old(batch)
      ensures Chunked(batch[|old(batch)|..], Chunks(clean, FIELD_BYTES), ErrorText, old(counter))
      ensures received == ReceiveContent(old(received), ErrorText, content)
    {
      ghost var start := View();
      steps := [];
      AfterNone(start);
      AfterOneMore(start, steps, BeginError(content, clean));
      steps := steps + [BeginError(content, clean)];
      lock, reader := ErrorPart(Chunks(clean, FIELD_BYTES)), Reporting;
      received := ReceiveContent(received, ErrorText, content);
      ghost var more := AppendContentLocked(ErrorText, clean, _ => None);
      AfterConcat(start, steps, more);
      steps := steps + more;
      AfterOneMore(start, steps, EndError);
      steps := steps + [EndError];
      lock, reader := Free, Reading;
    }

    // The number is taken outside the lock; a flush may come before the append.
    method OnToolUse(callId: string, tool: string, input: seq<Byte>) returns (m: Message)
      requires Enabled(View(), NumberToolUse(callId, tool, input))
      modifies this
      ensures View() == Do(old(View()), NumberToolUse(callId, tool, input)) && reader == Holding(m)
    {
      if callId != "" {
        toolOf := toolOf[callId := tool];
      }
      counter := counter + 1;
      m := Message(counter, ToolUse, tool, input);
      reader, received := Holding(m), received.(tools := received.tools + [m]);
    }

    method OnToolResult(callId: string, tool: string, output: seq<Byte>) returns (m: Message)
      requires Enabled(View(), NumberToolResult(callId, tool, output))
      modifies this
      ensures View() == Do(old(View()), NumberToolResult(callId, tool, output)) && reader == Holding(m)
    {
      counter := counter + 1;
      var kept := if |output| > TOOL_OUTPUT_BYTES then output[..TOOL_OUTPUT_BYTES] else output;
      var name := tool;
      if name == "" && callId != "" {
        name := if callId in toolOf then toolOf[callId] else "";
      }
      m := Message(counter, ToolResult, name, kept);
      reader, received := Holding(m), received.(tools := received.tools + [m]);
    }

    method AppendHeld(m: Message)
      requires reader == Holding(m) && lock.Free?
      modifies this
      ensures View() == Do(old(View()), AppendTool)
    {
      batch, log := batch + [m], log + [m];
      reader := Reading;
    }
  }
}
