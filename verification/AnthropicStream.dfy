/** Rewriting the gateway's internal stream chunks into Anthropic events
    (internal/gateway/anthropic.go), and Anthropic events into chunks (internal/gateway/stream.go). */
module AnthropicStream {
  import opened Lists

  /** One decoded chunk: its choices' text, chain of thought and finish reason, empty when absent. */
  datatype ChunkChoice = ChunkChoice(content: string, reasoning: string, finish: string)

  type Chunk = seq<ChunkChoice>

  datatype Kind = Thinking | Answer

  datatype Event =
    | MessageStart(promptTokens: nat)
    | BlockStart(index: nat, kind: Kind)
    | BlockDelta(index: nat, kind: Kind, text: string)
    | BlockStop(index: nat)
    | MessageDelta(stopReason: string, outputTokens: nat)
    | MessageStop

  function StopReason(finish: string): string {
    if finish == "length" then "max_tokens"
    else if finish == "tool_calls" || finish == "function_call" then "tool_use"
    else if finish == "content_filter" then "refusal"
    else "end_turn"
  }

  lemma StopReasonsAre(finish: string)
    ensures StopReason(finish) == "max_tokens" <==> finish == "length"
    ensures StopReason(finish) == "tool_use" <==> finish in {"tool_calls", "function_call"}
    ensures StopReason(finish) == "refusal" <==> finish == "content_filter"
    ensures StopReason(finish) in {"max_tokens", "tool_use", "refusal", "end_turn"}
  {
  }

  function Contents(chunk: Chunk): string {
    if chunk == [] then "" else Contents(chunk[..|chunk| - 1]) + chunk[|chunk| - 1].content
  }

  function Thoughts(chunk: Chunk): string {
    if chunk == [] then "" else Thoughts(chunk[..|chunk| - 1]) + chunk[|chunk| - 1].reasoning
  }

  /** The last finish reason of a chunk overrides the one known so far. */
  function StopAfter(chunk: Chunk, before: string): string {
    if chunk == [] then before
    else
      var finish := chunk[|chunk| - 1].finish;
      if finish != "" then StopReason(finish) else StopAfter(chunk[..|chunk| - 1], before)
  }

  // ---------------------------------------------------------------------------------------------
  // The rewriter
  // ---------------------------------------------------------------------------------------------

  datatype State = State(promptTokens: nat, started: bool, blockIndex: nat, blockKind: Option<Kind>, stopReason: string)

  function Initial(promptTokens: nat): State {
    State(promptTokens, false, 0, None, "end_turn")
  }

  function Opened(s: State): (seq<Event>, State) {
    if s.started then ([], s) else ([MessageStart(s.promptTokens)], s.(started := true))
  }

  function Switched(s: State, kind: Kind): (seq<Event>, State) {
    if s.blockKind == Some(kind) then ([], s)
    else if s.blockKind == None then ([BlockStart(s.blockIndex, kind)], s.(blockKind := Some(kind)))
    else ([BlockStop(s.blockIndex), BlockStart(s.blockIndex + 1, kind)],
          s.(blockIndex := s.blockIndex + 1, blockKind := Some(kind)))
  }

  /** One delta in the block of its kind; an empty text sends nothing. */
  function Sent(s: State, kind: Kind, text: string): (seq<Event>, State) {
    if text == "" then ([], s)
    else
      var (lines, s') := Switched(s, kind);
      (lines + [BlockDelta(s'.blockIndex, kind, text)], s')
  }

  function Rewritten(s: State, chunk: Chunk): (seq<Event>, State) {
    var s0 := s.(stopReason := StopAfter(chunk, s.stopReason));
    if Contents(chunk) == "" && Thoughts(chunk) == "" then ([], s0)
    else
      var (opening, s1) := Opened(s0);
      var (thinking, s2) := Sent(s1, Thinking, Thoughts(chunk));
      var (answer, s3) := Sent(s2, Answer, Contents(chunk));
      (opening + thinking + answer, s3)
  }

  function Finished(s: State, outputTokens: nat): (seq<Event>, State) {
    var (opening, s1) := Opened(s);
    var (switching, s2) := Switched(s1, Answer);
    (opening + switching + [BlockStop(s2.blockIndex), MessageDelta(s2.stopReason, outputTokens), MessageStop], s2)
  }

  class Rewriter {
    const promptTokens: nat
    var started: bool
    var blockIndex: nat
    var blockKind: Option<Kind>
    var stopReason: string

    function View(): State
      reads this
    {
      State(promptTokens, started, blockIndex, blockKind, stopReason)
    }

    constructor (promptTokens: nat)
      ensures View() == Initial(promptTokens)
    {
      this.promptTokens := promptTokens;
      started, blockIndex, blockKind, stopReason := false, 0, None, "end_turn";
    }

    method Rewrite(chunk: Chunk) returns (lines: seq<Event>)
      modifies this
      ensures (lines, View()) == Rewritten(old(View()), chunk)
    {
      var text, thinking := "", "";
      ghost var before := stopReason;
      for i := 0 to |chunk|
        invariant text == Contents(chunk[..i]) && thinking == Thoughts(chunk[..i])
        invariant View() == old(View()).(stopReason := StopAfter(chunk[..i], before))
      {
        assert chunk[..i + 1][..i] == chunk[..i];
        text := text + chunk[i].content;
        thinking := thinking + chunk[i].reasoning;
        if chunk[i].finish != "" {
          stopReason := StopReason(chunk[i].finish);
        }
      }
      assert chunk[..|chunk|] == chunk;
      if text == "" && thinking == "" {
        return [];
      }
      lines := Open();
      assert forall ls: seq<Event> :: ls + [] == ls;
      if thinking != "" {
        var switching := SwitchBlock(Thinking);
        lines := lines + (switching + [BlockDelta(blockIndex, Thinking, thinking)]);
      }
      if text != "" {
        var switching := SwitchBlock(Answer);
        lines := lines + (switching + [BlockDelta(blockIndex, Answer, text)]);
      }
    }

    method Open() returns (lines: seq<Event>)
      modifies this
      ensures (lines, View()) == Opened(old(View()))
    {
      if started {
        return [];
      }
      started := true;
      return [MessageStart(promptTokens)];
    }

    method SwitchBlock(kind: Kind) returns (lines: seq<Event>)
      modifies this
      ensures (lines, View()) == Switched(old(View()), kind)
    {
      if blockKind == Some(kind) {
        return [];
      }
      lines := [];
      if blockKind != None {
        lines := [BlockStop(blockIndex)];
        blockIndex := blockIndex + 1;
      }
      blockKind := Some(kind);
      lines := lines + [BlockStart(blockIndex, kind)];
      assert lines == Switched(old(View()), kind).0;
    }

    method Finish(outputTokens: nat) returns (lines: seq<Event>)
      modifies this
      ensures (lines, View()) == Finished(old(View()), outputTokens)
    {
      lines := Open();
      var switching := SwitchBlock(Answer);
      lines := lines + switching;
      lines := lines + [BlockStop(blockIndex), MessageDelta(stopReason, outputTokens), MessageStop];
    }

    method SetStopReason(reason: string)
      modifies this
      ensures View() == old(View()).(stopReason := reason)
    {
      stopReason := reason;
    }
  }

  // ---------------------------------------------------------------------------------------------
  // What a whole stream looks like
  // ---------------------------------------------------------------------------------------------

  /** The events of all chunks, in order. */
  function RewrittenAll(s: State, chunks: seq<Chunk>): (seq<Event>, State) {
    if chunks == [] then ([], s)
    else
      var (before, s') := RewrittenAll(s, chunks[..|chunks| - 1]);
      var (lines, s'') := Rewritten(s', chunks[|chunks| - 1]);
      (before + lines, s'')
  }

  /** The whole stream: all chunks, then the ending, where a forced stop reason wins. */
  function Stream(promptTokens: nat, chunks: seq<Chunk>, forced: Option<string>, outputTokens: nat): seq<Event> {
    var (lines, s) := RewrittenAll(Initial(promptTokens), chunks);
    lines + Finished(if forced.Some? then s.(stopReason := forced.value) else s, outputTokens).0
  }

  /** A content block: its kind and its deltas. */
  datatype Block = Block(kind: Kind, deltas: seq<string>)

  /** The i-th block while it is open: its start and its deltas, all of its own index and kind. */
  function OpenBlock(i: nat, b: Block): seq<Event> {
    [BlockStart(i, b.kind)] + seq(|b.deltas|, j requires 0 <= j < |b.deltas| => BlockDelta(i, b.kind, b.deltas[j]))
  }

  /** Blocks numbered from zero, each closed before the next one starts. */
  function Closed(blocks: seq<Block>): seq<Event> {
    if blocks == [] then []
    else Closed(blocks[..|blocks| - 1]) + OpenBlock(|blocks| - 1, blocks[|blocks| - 1]) + [BlockStop(|blocks| - 1)]
  }

  /** The same with the last block still open. */
  function StillOpen(blocks: seq<Block>): seq<Event>
    requires blocks != []
  {
    Closed(blocks[..|blocks| - 1]) + OpenBlock(|blocks| - 1, blocks[|blocks| - 1])
  }

  /** Neighbouring blocks differ in kind, and no delta is empty. */
  predicate Tidy(blocks: seq<Block>) {
    && (forall i :: 0 < i < |blocks| ==> blocks[i].kind != blocks[i - 1].kind)
    && (forall i, j :: 0 <= i < |blocks| && 0 <= j < |blocks[i].deltas| ==> blocks[i].deltas[j] != "")
  }

  /** The deltas of a list of blocks, in the order they are sent. */
  function Deltas(blocks: seq<Block>): seq<(Kind, string)> {
    if blocks == [] then []
    else Deltas(blocks[..|blocks| - 1]) + BlockDeltas(blocks[|blocks| - 1])
  }

  function BlockDeltas(b: Block): seq<(Kind, string)> {
    seq(|b.deltas|, j requires 0 <= j < |b.deltas| => (b.kind, b.deltas[j]))
  }

  /** What the chunks hold: per chunk first the thought, then the answer, without empty texts. */
  function Given(chunks: seq<Chunk>): seq<(Kind, string)> {
    if chunks == [] then []
    else Given(chunks[..|chunks| - 1]) + GivenBy(chunks[|chunks| - 1])
  }

  function GivenBy(chunk: Chunk): seq<(Kind, string)> {
    (if Thoughts(chunk) == "" then [] else [(Thinking, Thoughts(chunk))])
    + (if Contents(chunk) == "" then [] else [(Answer, Contents(chunk))])
  }

  function StopGiven(chunks: seq<Chunk>): string {
    if chunks == [] then "end_turn" else StopAfter(chunks[|chunks| - 1], StopGiven(chunks[..|chunks| - 1]))
  }

  /** The events so far are a message start and blocks of which the last one is open. */
  ghost predicate Shape(s: State, lines: seq<Event>, blocks: seq<Block>) {
    && Tidy(blocks)
    && (!s.started ==> lines == [] && blocks == [] && s.blockKind == None && s.blockIndex == 0)
    && (s.started ==>
          && blocks != []
          && lines == [MessageStart(s.promptTokens)] + StillOpen(blocks)
          && s.blockKind == Some(blocks[|blocks| - 1].kind)
          && s.blockIndex == |blocks| - 1)
  }

  /** Right after the message start there is no block yet. */
  ghost predicate ShapeOpened(s: State, lines: seq<Event>, blocks: seq<Block>) {
    || (s.started && Shape(s, lines, blocks))
    || (s.started && lines == [MessageStart(s.promptTokens)] && blocks == [] && s.blockKind == None
       && s.blockIndex == 0)
  }

  lemma OpenShape(s: State, lines: seq<Event>, blocks: seq<Block>)
    requires Shape(s, lines, blocks)
    ensures ShapeOpened(Opened(s).1, lines + Opened(s).0, blocks)
  {
  }

  /** Switching starts a block of the wanted kind unless that kind is open already. */
  lemma SwitchShape(s: State, lines: seq<Event>, blocks: seq<Block>, kind: Kind) returns (blocks': seq<Block>)
    requires ShapeOpened(s, lines, blocks)
    ensures Shape(Switched(s, kind).1, lines + Switched(s, kind).0, blocks')
    ensures blocks' != [] && blocks'[|blocks'| - 1].kind == kind
    ensures Deltas(blocks') == Deltas(blocks)
  {
    hide Deltas, StillOpen, Closed, Tidy;
    if s.blockKind == Some(kind) {
      blocks' := blocks;
    } else {
      blocks' := blocks + [Block(kind, [])];
      NewBlock(blocks, kind);
      NewBlockTidy(blocks, kind);
    }
  }

  lemma NewBlockTidy(blocks: seq<Block>, kind: Kind)
    requires Tidy(blocks) && (blocks != [] ==> blocks[|blocks| - 1].kind != kind)
    ensures Tidy(blocks + [Block(kind, [])])
  {
  }

  lemma NewBlock(blocks: seq<Block>, kind: Kind)
    ensures var blocks' := blocks + [Block(kind, [])];
            && Deltas(blocks') == Deltas(blocks)
            && blocks'[..|blocks|] == blocks
            && StillOpen(blocks') ==
               (if blocks == [] then [] else StillOpen(blocks) + [BlockStop(|blocks| - 1)])
               + [BlockStart(|blocks|, kind)]
  {
    var blocks' := blocks + [Block(kind, [])];
    assert blocks'[..|blocks|] == blocks;
    assert OpenBlock(|blocks|, Block(kind, [])) == [BlockStart(|blocks|, kind)];
    assert BlockDeltas(Block(kind, [])) == [];
  }

  /** A delta goes to the end of the open block. */
  lemma DeltaShape(s: State, lines: seq<Event>, blocks: seq<Block>, kind: Kind, text: string)
      returns (blocks': seq<Block>)
    requires Shape(s, lines, blocks) && s.started && blocks[|blocks| - 1].kind == kind && text != ""
    ensures Shape(s, lines + [BlockDelta(s.blockIndex, kind, text)], blocks')
    ensures Deltas(blocks') == Deltas(blocks) + [(kind, text)]
  {
    var n := |blocks| - 1;
    var open := blocks[n].(deltas := blocks[n].deltas + [text]);
    blocks' := blocks[..n] + [open];
    assert blocks'[..n] == blocks[..n] && blocks'[n] == open;
    assert OpenBlock(n, open) == OpenBlock(n, blocks[n]) + [BlockDelta(n, kind, text)];
    assert BlockDeltas(open) == BlockDeltas(blocks[n]) + [(kind, text)];
  }

  lemma SendShape(s: State, lines: seq<Event>, blocks: seq<Block>, kind: Kind, text: string)
      returns (blocks': seq<Block>)
    requires ShapeOpened(s, lines, blocks)
    ensures ShapeOpened(Sent(s, kind, text).1, lines + Sent(s, kind, text).0, blocks')
    ensures text != "" ==> Shape(Sent(s, kind, text).1, lines + Sent(s, kind, text).0, blocks')
    ensures text == "" ==> blocks' == blocks
    ensures Deltas(blocks') == Deltas(blocks) + if text == "" then [] else [(kind, text)]
  {
    if text == "" {
      blocks' := blocks;
      assert lines + [] == lines;
    } else {
      var (switching, s') := Switched(s, kind);
      blocks' := SwitchShape(s, lines, blocks, kind);
      hide Shape, ShapeOpened, Switched, Deltas;
      blocks' := DeltaShape(s', lines + switching, blocks', kind, text);
      assert lines + (switching + [BlockDelta(s'.blockIndex, kind, text)]) ==
             (lines + switching) + [BlockDelta(s'.blockIndex, kind, text)];
    }
  }

  lemma ChunkShape(s: State, lines: seq<Event>, blocks: seq<Block>, chunk: Chunk) returns (blocks': seq<Block>)
    requires Shape(s, lines, blocks)
    ensures Shape(Rewritten(s, chunk).1, lines + Rewritten(s, chunk).0, blocks')
    ensures Deltas(blocks') == Deltas(blocks) + GivenBy(chunk)
  {
    var s0 := s.(stopReason := StopAfter(chunk, s.stopReason));
    assert Shape(s0, lines, blocks);
    hide Shape, ShapeOpened, Deltas, Contents, Thoughts, StopAfter, Sent, Opened;
    if Contents(chunk) == "" && Thoughts(chunk) == "" {
      blocks' := blocks;
      assert lines + [] == lines && Deltas(blocks) + [] == Deltas(blocks);
    } else {
      var (opening, s1) := Opened(s0);
      OpenShape(s0, lines, blocks);
      blocks' := ChunkSent(s1, lines + opening, blocks, Thoughts(chunk), Contents(chunk));
      var (thinking, s2) := Sent(s1, Thinking, Thoughts(chunk));
      var (answer, s3) := Sent(s2, Answer, Contents(chunk));
      assert lines + (opening + thinking + answer) == lines + opening + thinking + answer;
    }
  }

  /** The thought, then the answer. */
  lemma ChunkSent(s: State, lines: seq<Event>, blocks: seq<Block>, thought: string, content: string)
      returns (blocks': seq<Block>)
    requires ShapeOpened(s, lines, blocks) && (thought != "" || content != "")
    ensures var (thinking, s2) := Sent(s, Thinking, thought);
            var (answer, s3) := Sent(s2, Answer, content);
            Shape(s3, lines + thinking + answer, blocks')
    ensures Deltas(blocks') == Deltas(blocks) + ((if thought == "" then [] else [(Thinking, thought)])
                                                 + (if content == "" then [] else [(Answer, content)]))
  {
    hide Shape, ShapeOpened, Deltas, Switched;
    var (thinking, s2) := Sent(s, Thinking, thought);
    var blocks1 := SendShape(s, lines, blocks, Thinking, thought);
    blocks' := SendShape(s2, lines + thinking, blocks1, Answer, content);
    assert lines + thinking + [] == lines + thinking;
  }

  lemma {:induction false} RunShape(promptTokens: nat, chunks: seq<Chunk>) returns (blocks: seq<Block>)
    ensures var (lines, s) := RewrittenAll(Initial(promptTokens), chunks);
            && Shape(s, lines, blocks)
            && s.promptTokens == promptTokens
            && s.stopReason == StopGiven(chunks)
    ensures Deltas(blocks) == Given(chunks)
  {
    if chunks == [] {
      blocks := [];
    } else {
      var init, chunk := chunks[..|chunks| - 1], chunks[|chunks| - 1];
      blocks := RunShape(promptTokens, init);
      var (lines, s) := RewrittenAll(Initial(promptTokens), init);
      blocks := ChunkShape(s, lines, blocks, chunk);
      StopIsKept(s, chunk);
      hide Shape, Rewritten, GivenBy;
    }
  }

  lemma StopIsKept(s: State, chunk: Chunk)
    ensures Rewritten(s, chunk).1.stopReason == StopAfter(chunk, s.stopReason)
    ensures Rewritten(s, chunk).1.promptTokens == s.promptTokens
  {
    hide StopAfter, Contents, Thoughts;
  }

  /** Every stream is one message start, blocks numbered from zero, each opened, filled with deltas of
      its own kind and closed before the next, one message delta with the stop reason and one message
      stop.  Its deltas are exactly the texts of the chunks, in their order; the last block is an answer
      block. */
  lemma StreamGrammar(promptTokens: nat, chunks: seq<Chunk>, forced: Option<string>, outputTokens: nat)
    returns (blocks: seq<Block>)
    ensures Stream(promptTokens, chunks, forced, outputTokens) ==
            [MessageStart(promptTokens)] + Closed(blocks)
            + [MessageDelta(if forced.Some? then forced.value else StopGiven(chunks), outputTokens), MessageStop]
    ensures blocks != [] && Tidy(blocks) && blocks[|blocks| - 1].kind == Answer
    ensures Deltas(blocks) == Given(chunks)
  {
    var (lines, s) := RewrittenAll(Initial(promptTokens), chunks);
    blocks := RunShape(promptTokens, chunks);
    hide RewrittenAll, Given, StopGiven;
    var s' := if forced.Some? then s.(stopReason := forced.value) else s;
    assert Shape(s', lines, blocks);
    blocks := FinishShape(s', lines, blocks, outputTokens);
  }

  lemma FinishShape(s: State, lines: seq<Event>, blocks: seq<Block>, outputTokens: nat) returns (blocks': seq<Block>)
    requires Shape(s, lines, blocks)
    ensures lines + Finished(s, outputTokens).0 ==
            [MessageStart(s.promptTokens)] + Closed(blocks') + [MessageDelta(s.stopReason, outputTokens), MessageStop]
    ensures blocks' != [] && Tidy(blocks') && blocks'[|blocks'| - 1].kind == Answer
    ensures Deltas(blocks') == Deltas(blocks)
  {
    var (opening, s1) := Opened(s);
    var (switching, s2) := Switched(s1, Answer);
    OpenShape(s, lines, blocks);
    blocks' := SwitchShape(s1, lines + opening, blocks, Answer);
    var all := lines + opening + switching;
    assert all == [MessageStart(s.promptTokens)] + StillOpen(blocks') && s2.blockIndex == |blocks'| - 1;
    assert Closed(blocks') == StillOpen(blocks') + [BlockStop(|blocks'| - 1)];
    hide Closed, StillOpen, Deltas, Tidy, Shape, Opened, Switched;
    var ending := [MessageDelta(s2.stopReason, outputTokens), MessageStop];
    assert lines + (opening + switching + ([BlockStop(s2.blockIndex)] + ending)) ==
           all + [BlockStop(s2.blockIndex)] + ending;
    assert [BlockStop(s2.blockIndex)] + ending ==
           [BlockStop(s2.blockIndex), MessageDelta(s2.stopReason, outputTokens), MessageStop];
  }

  /** All text of one kind. */
  function TextOf(deltas: seq<(Kind, string)>, kind: Kind): string {
    if deltas == [] then ""
    else TextOf(deltas[..|deltas| - 1], kind) + if deltas[|deltas| - 1].0 == kind then deltas[|deltas| - 1].1 else ""
  }

  function AllContents(chunks: seq<Chunk>): string {
    if chunks == [] then "" else AllContents(chunks[..|chunks| - 1]) + Contents(chunks[|chunks| - 1])
  }

  function AllThoughts(chunks: seq<Chunk>): string {
    if chunks == [] then "" else AllThoughts(chunks[..|chunks| - 1]) + Thoughts(chunks[|chunks| - 1])
  }

  lemma TextSnoc(deltas: seq<(Kind, string)>, d: (Kind, string), kind: Kind)
    ensures TextOf(deltas + [d], kind) == TextOf(deltas, kind) + if d.0 == kind then d.1 else ""
  {
    assert (deltas + [d])[..|deltas|] == deltas;
  }

  lemma TextOfChunk(before: seq<(Kind, string)>, chunk: Chunk)
    ensures TextOf(before + GivenBy(chunk), Answer) == TextOf(before, Answer) + Contents(chunk)
    ensures TextOf(before + GivenBy(chunk), Thinking) == TextOf(before, Thinking) + Thoughts(chunk)
  {
    hide TextOf, Contents, Thoughts;
    var thought := if Thoughts(chunk) == "" then [] else [(Thinking, Thoughts(chunk))];
    assert before + GivenBy(chunk) ==
           if Contents(chunk) == "" then before + thought else (before + thought) + [(Answer, Contents(chunk))];
    assert before + [] == before;
    TextSnoc(before, (Thinking, Thoughts(chunk)), Thinking);
    TextSnoc(before, (Thinking, Thoughts(chunk)), Answer);
    TextSnoc(before + thought, (Answer, Contents(chunk)), Answer);
    TextSnoc(before + thought, (Answer, Contents(chunk)), Thinking);
  }

  /** The answer text and the thought text of a stream are those of its chunks. */
  lemma {:induction false} TextIsPreserved(chunks: seq<Chunk>)
    ensures TextOf(Given(chunks), Answer) == AllContents(chunks)
    ensures TextOf(Given(chunks), Thinking) == AllThoughts(chunks)
  {
    if chunks != [] {
      TextIsPreserved(chunks[..|chunks| - 1]);
      TextOfChunk(Given(chunks[..|chunks| - 1]), chunks[|chunks| - 1]);
      hide TextOf, Contents, Thoughts, GivenBy;
    }
  }

  // ---------------------------------------------------------------------------------------------
  // The converter
  // ---------------------------------------------------------------------------------------------

  /** A decoded upstream event; a delta without a text field (a thinking delta) has an empty text. */
  datatype Upstream =
    | UpStart(model: Option<string>, inputTokens: Option<int>)
    | UpDelta(text: string)
    | UpEnd(outputTokens: Option<int>, stopReason: string)
    | UpOther

  datatype Usage = Usage(prompt: int, completion: int, total: int)

  datatype Conversion = Conversion(model: string, usage: Usage)

  function Converted(c: Conversion, e: Upstream): (seq<Chunk>, Conversion) {
    match e
    case UpStart(model, input) =>
      ([], Conversion(
             if c.model == "" && model.Some? then model.value else c.model,
             if input.Some? then Usage(input.value, c.usage.completion, input.value + c.usage.completion) else c.usage))
    case UpDelta(text) => (if text == "" then [] else [[ChunkChoice(text, "", "")]], c)
    case UpEnd(output, reason) =>
      ([[ChunkChoice("", "", if reason == "max_tokens" then "length" else "stop")]],
       c.(usage := if output.Some? then Usage(c.usage.prompt, output.value, c.usage.prompt + output.value)
         else c.usage))
    case UpOther => ([], c)
  }

  class Converter {
    var model: string
    var usage: Usage

    function View(): Conversion
      reads this
    {
      Conversion(model, usage)
    }

    constructor (model: string)
      ensures View() == Conversion(model, Usage(0, 0, 0))
    {
      this.model := model;
      usage := Usage(0, 0, 0);
    }

    method Convert(e: Upstream) returns (chunks: seq<Chunk>)
      modifies this
      ensures (chunks, View()) == Converted(old(View()), e)
    {
      match e
      case UpStart(name, input) =>
        if model == "" && name.Some? {
          model := name.value;
        }
        if input.Some? {
          usage := usage.(prompt := input.value);
          usage := usage.(total := usage.prompt + usage.completion);
        }
        return [];
      case UpDelta(text) =>
        if text == "" {
          return [];
        }
        return [[ChunkChoice(text, "", "")]];
      case UpEnd(output, reason) =>
        if output.Some? {
          usage := usage.(completion := output.value);
          usage := usage.(total := usage.prompt + usage.completion);
        }
        var finish := "stop";
        if reason == "max_tokens" {
          finish := "length";
        }
        return [[ChunkChoice("", "", finish)]];
      case UpOther =>
        return [];
    }
  }

  function ConvertedAll(c: Conversion, ups: seq<Upstream>): (seq<Chunk>, Conversion) {
    if ups == [] then ([], c)
    else
      var (before, c') := ConvertedAll(c, ups[..|ups| - 1]);
      var (chunks, c'') := Converted(c', ups[|ups| - 1]);
      (before + chunks, c'')
  }

  /** The last input count of an upstream stream, zero without one. */
  function LastInput(ups: seq<Upstream>): int {
    if ups == [] then 0
    else
      var last := ups[|ups| - 1];
      if last.UpStart? && last.inputTokens.Some? then last.inputTokens.value else LastInput(ups[..|ups| - 1])
  }

  function LastOutput(ups: seq<Upstream>): int {
    if ups == [] then 0
    else
      var last := ups[|ups| - 1];
      if last.UpEnd? && last.outputTokens.Some? then last.outputTokens.value else LastOutput(ups[..|ups| - 1])
  }

  /** The first name that is not empty. */
  function FirstModel(ups: seq<Upstream>): string {
    if ups == [] then ""
    else
      var before, last := FirstModel(ups[..|ups| - 1]), ups[|ups| - 1];
      if before == "" && last.UpStart? && last.model.Some? then last.model.value else before
  }

  /** The usage that is passed on has the last counts of the upstream and their sum, and the model is the given one
      or else the first that the upstream names. */
  lemma {:induction false} UsageOfLastEvents(model: string, ups: seq<Upstream>)
    ensures var c := ConvertedAll(Conversion(model, Usage(0, 0, 0)), ups).1;
            && c.usage == Usage(LastInput(ups), LastOutput(ups), LastInput(ups) + LastOutput(ups))
            && c.model == if model != "" then model else FirstModel(ups)
  {
    if ups != [] {
      UsageOfLastEvents(model, ups[..|ups| - 1]);
    }
  }

  /** Text of an upstream stream. */
  function UpText(ups: seq<Upstream>): string {
    if ups == [] then ""
    else UpText(ups[..|ups| - 1]) + if ups[|ups| - 1].UpDelta? then ups[|ups| - 1].text else ""
  }

  /** The stop reason that the client is told, given the upstream's. */
  function UpStop(ups: seq<Upstream>): string {
    if ups == [] then "end_turn"
    else if ups[|ups| - 1].UpEnd? then (if ups[|ups| - 1].stopReason == "max_tokens" then "max_tokens" else "end_turn")
    else UpStop(ups[..|ups| - 1])
  }

  lemma ChunksSnoc(chunks: seq<Chunk>, chunk: Chunk)
    ensures AllContents(chunks + [chunk]) == AllContents(chunks) + Contents(chunk)
    ensures AllThoughts(chunks + [chunk]) == AllThoughts(chunks) + Thoughts(chunk)
    ensures StopGiven(chunks + [chunk]) == StopAfter(chunk, StopGiven(chunks))
  {
    assert (chunks + [chunk])[..|chunks|] == chunks;
    hide Contents, Thoughts, StopAfter;
  }

  lemma OneChoice(c: ChunkChoice, before: string)
    ensures Contents([c]) == c.content && Thoughts([c]) == c.reasoning
    ensures StopAfter([c], before) == if c.finish != "" then StopReason(c.finish) else before
  {
    assert [c][..0] == [];
  }

  /** What one upstream event adds to the converted chunks. */
  lemma OneEvent(before: seq<Chunk>, c: Conversion, e: Upstream)
    ensures var after := before + Converted(c, e).0;
            && AllContents(after) == AllContents(before) + (if e.UpDelta? then e.text else "")
            && AllThoughts(after) == AllThoughts(before)
            && StopGiven(after) ==
               if e.UpEnd? then (if e.stopReason == "max_tokens" then "max_tokens" else "end_turn")
                 else StopGiven(before)
  {
    hide AllContents, AllThoughts, StopGiven, StopAfter, Contents, Thoughts;
    assert before + [] == before && AllContents(before) + "" == AllContents(before);
    assert AllThoughts(before) + "" == AllThoughts(before);
    var chunks := Converted(c, e).0;
    if chunks != [] {
      var choice := chunks[0][0];
      assert chunks == [[choice]];
      ChunksSnoc(before, [choice]);
      OneChoice(choice, StopGiven(before));
    }
  }

  /** The text of an upstream stream survives conversion and rewriting, its thinking deltas do not, and
      of its stop reasons only max_tokens is told apart. */
  lemma {:induction false} UpstreamSurvives(c: Conversion, ups: seq<Upstream>)
    ensures AllContents(ConvertedAll(c, ups).0) == UpText(ups)
    ensures AllThoughts(ConvertedAll(c, ups).0) == ""
    ensures StopGiven(ConvertedAll(c, ups).0) == UpStop(ups)
  {
    NoChunks();
    hide AllContents, AllThoughts, StopGiven, Converted;
    if ups != [] {
      var init, e := ups[..|ups| - 1], ups[|ups| - 1];
      UpstreamSurvives(c, init);
      OneEvent(ConvertedAll(c, init).0, ConvertedAll(c, init).1, e);
    }
  }

  lemma NoChunks()
    ensures AllContents([]) == "" == AllThoughts([]) && StopGiven([]) == "end_turn"
  {
  }

  /** What follows the last end event does not matter. */
  lemma {:induction false} LastEndDecides(before: seq<Upstream>, e: Upstream, after: seq<Upstream>)
    requires e.UpEnd? && forall i :: 0 <= i < |after| ==> !after[i].UpEnd?
    ensures UpStop(before + [e] + after) == if e.stopReason == "max_tokens" then "max_tokens" else "end_turn"
    decreases |after|
  {
    var ups := before + [e] + after;
    if after == [] {
      assert ups[|ups| - 1] == e;
    } else {
      LastEndDecides(before, e, after[..|after| - 1]);
      assert ups[..|ups| - 1] == before + [e] + after[..|after| - 1];
    }
  }

  /** The upstream's last stop reason, wherever it stands, reaches the client exactly when it is max_tokens or
      end_turn. */
  lemma StopReasonSurvives(c: Conversion, before: seq<Upstream>, e: Upstream, after: seq<Upstream>)
    requires e.UpEnd? && forall i :: 0 <= i < |after| ==> !after[i].UpEnd?
    ensures StopGiven(ConvertedAll(c, before + [e] + after).0) == e.stopReason
            <==> e.stopReason == "max_tokens" || e.stopReason == "end_turn"
  {
    hide ConvertedAll, StopGiven;
    UpstreamSurvives(c, before + [e] + after);
    LastEndDecides(before, e, after);
  }

  /** An upstream that stops to use a tool is reported as having ended its turn. */
  lemma ToolUseIsLost(c: Conversion)
    ensures StopGiven(ConvertedAll(c, [UpEnd(Some(1), "tool_use"), UpOther]).0) == "end_turn"
  {
    hide ConvertedAll, StopGiven;
    var e := UpEnd(Some(1), "tool_use");
    assert [] + [e] + [UpOther] == [e, UpOther];
    UpstreamSurvives(c, [e, UpOther]);
    LastEndDecides([], e, [UpOther]);
  }

  /** How a converter reads an event of the rewriter. */
  function AsUpstream(e: Event): Upstream {
    match e
    case MessageStart(prompt) => UpStart(None, Some(prompt))
    case BlockDelta(_, kind, text) => UpDelta(if kind == Answer then text else "")
    case MessageDelta(reason, output) => UpEnd(Some(output), reason)
    case _ => UpOther
  }

  function ReadBack(lines: seq<Event>): seq<Upstream> {
    seq(|lines|, i requires 0 <= i < |lines| => AsUpstream(lines[i]))
  }

  lemma UpTextSnoc(a: seq<Upstream>, e: Upstream)
    ensures UpText(a + [e]) == UpText(a) + if e.UpDelta? then e.text else ""
  {
    assert (a + [e])[..|a|] == a;
  }

  lemma {:induction false} UpTextConcat(a: seq<Upstream>, b: seq<Upstream>)
    ensures UpText(a + b) == UpText(a) + UpText(b)
    decreases |b|
  {
    hide *;
    if b == [] {
      assert a + b == a;
      NoUpText();
    } else {
      var init, last := b[..|b| - 1], b[|b| - 1];
      UpTextConcat(a, init);
      assert a + b == a + init + [last] && b == init + [last];
      UpTextSnoc(a + init, last);
      UpTextSnoc(init, last);
    }
  }

  lemma NoUpText()
    ensures UpText([]) == ""
  {
  }

  lemma {:induction false} BlockReadBack(i: nat, b: Block)
    ensures UpText(ReadBack(OpenBlock(i, b))) == TextOf(BlockDeltas(b), Answer)
    decreases |b.deltas|
  {
    var lines := ReadBack(OpenBlock(i, b));
    if b.deltas == [] {
      assert lines == [UpOther] && [UpOther][..0] == [];
    } else {
      var shorter := Block(b.kind, b.deltas[..|b.deltas| - 1]);
      BlockReadBack(i, shorter);
      assert lines[..|lines| - 1] == ReadBack(OpenBlock(i, shorter));
      assert BlockDeltas(b)[..|b.deltas| - 1] == BlockDeltas(shorter);
    }
  }

  lemma {:induction false} ClosedReadBack(blocks: seq<Block>)
    ensures UpText(ReadBack(Closed(blocks))) == TextOf(Deltas(blocks), Answer)
  {
    if blocks != [] {
      var init, n := blocks[..|blocks| - 1], |blocks| - 1;
      ClosedReadBack(init);
      BlockReadBack(n, blocks[n]);
      TextConcat(Deltas(init), BlockDeltas(blocks[n]));
      ReadBackClosed(init, n, blocks[n]);
    }
  }

  lemma ReadBackClosed(init: seq<Block>, n: nat, b: Block)
    ensures UpText(ReadBack(Closed(init) + OpenBlock(n, b) + [BlockStop(n)])) ==
            UpText(ReadBack(Closed(init))) + UpText(ReadBack(OpenBlock(n, b)))
  {
    hide *;
    var x, y, z := ReadBack(Closed(init)), ReadBack(OpenBlock(n, b)), [UpOther];
    ReadBackStops(Closed(init), OpenBlock(n, b), n);
    UpTextConcat(x + y, z);
    UpTextConcat(x, y);
  }

  lemma ReadBackStops(a: seq<Event>, b: seq<Event>, n: nat)
    ensures ReadBack(a + b + [BlockStop(n)]) == (ReadBack(a) + ReadBack(b)) + [UpOther]
    ensures UpText([UpOther]) == ""
  {
    assert [UpOther][..0] == [];
  }

  lemma {:induction false} TextConcat(a: seq<(Kind, string)>, b: seq<(Kind, string)>)
    ensures TextOf(a + b, Answer) == TextOf(a, Answer) + TextOf(b, Answer)
    decreases |b|
  {
    if b == [] {
      assert a + b == a;
    } else {
      TextConcat(a, b[..|b| - 1]);
      assert (a + b)[..|a + b| - 1] == a + b[..|b| - 1];
    }
  }

  /** Reading a rewritten stream back gives the answer text of the chunks and whether the stream was cut
      at its token limit. */
  lemma RoundTrip(promptTokens: nat, chunks: seq<Chunk>, forced: Option<string>, outputTokens: nat, c: Conversion)
    ensures var back := ReadBack(Stream(promptTokens, chunks, forced, outputTokens));
            var stop := if forced.Some? then forced.value else StopGiven(chunks);
            && AllContents(ConvertedAll(c, back).0) == AllContents(chunks)
            && StopGiven(ConvertedAll(c, back).0) == (if stop == "max_tokens" then "max_tokens" else "end_turn")
  {
    var lines := Stream(promptTokens, chunks, forced, outputTokens);
    var stop := if forced.Some? then forced.value else StopGiven(chunks);
    hide Stream, Closed, StopGiven, AllContents, AllThoughts, ConvertedAll, Given, Deltas, TextOf;
    var blocks := StreamGrammar(promptTokens, chunks, forced, outputTokens);
    TextIsPreserved(chunks);
    ClosedReadBack(blocks);
    UpstreamSurvives(c, ReadBack(lines));
    StreamReadBack(promptTokens, blocks, stop, outputTokens);
  }

  lemma StreamReadBack(promptTokens: nat, blocks: seq<Block>, stop: string, outputTokens: nat)
    ensures var lines := ReadBack([MessageStart(promptTokens)] + Closed(blocks)
            + [MessageDelta(stop, outputTokens), MessageStop]);
            && UpText(lines) == UpText(ReadBack(Closed(blocks)))
            && UpStop(lines) == if stop == "max_tokens" then "max_tokens" else "end_turn"
  {
    hide *;
    var start, body := [UpStart(None, Some(promptTokens))], ReadBack(Closed(blocks));
    MessageReadBack(promptTokens, Closed(blocks), stop, outputTokens);
    EndingReadBack(start + body, Some(outputTokens), stop);
    UpTextConcat(start, body);
  }

  lemma MessageReadBack(promptTokens: nat, inside: seq<Event>, stop: string, outputTokens: nat)
    ensures ReadBack([MessageStart(promptTokens)] + inside + [MessageDelta(stop, outputTokens), MessageStop]) ==
            ([UpStart(None, Some(promptTokens))] + ReadBack(inside)) + [UpEnd(Some(outputTokens), stop), UpOther]
    ensures UpText([UpStart(None, Some(promptTokens))]) == ""
  {
    assert [UpStart(None, Some(promptTokens))][..0] == [];
  }

  lemma EndingReadBack(before: seq<Upstream>, output: Option<int>, stop: string)
    ensures UpText(before + [UpEnd(output, stop), UpOther]) == UpText(before)
    ensures UpStop(before + [UpEnd(output, stop), UpOther]) == if stop == "max_tokens" then "max_tokens" else "end_turn"
  {
    var e := UpEnd(output, stop);
    LastEndDecides(before, e, [UpOther]);
    assert before + [e] + [UpOther] == before + [e, UpOther];
  }
}
