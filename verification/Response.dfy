/** A decoded completion response: what it counts (internal/tokenizer/tokenizer.go) and how the output
    limit is enforced on it in place (internal/gateway/inference.go). */
module Response {
  import opened Lists
  import opened Utf8
  import opened Tokenizer
  import opened OutputCap

  type Text = seq<Byte>

  /** One element of a content list; JsonPart carries the JSON text of anything else. */
  datatype Part = TextPart(text: Text) | ImagePart | JsonPart(json: Text)

  /** A content field: absent, a string, a list of parts, or the JSON text of another value. */
  datatype Content = Missing | Plain(text: Text) | Parts(parts: seq<Part>) | Other(json: Text)

  datatype Message = Message(content: Content, reasoningContent: Content, reasoning: Content, toolCalls: Option<Text>)

  datatype Choice = Choice(message: Option<Message>, text: Option<Text>, finishReason: string)

  datatype Body = Body(
    outputText: Option<Text>, output: seq<Content>, choices: seq<Choice>, content: Content,
    status: Option<string>, incompleteReason: Option<string>)

  // ---------------------------------------------------------------------------------------------
  // What a response counts
  // ---------------------------------------------------------------------------------------------

  const IMAGE_PART_TOKENS := 300

  /** One step of the counter: a text to add or a fixed number of tokens. */
  datatype Piece = Add(text: Text) | Fixed(tokens: nat)

  function Taken(m: Meter, p: Piece): Meter {
    match p
    case Add(text) => Fed(m, text)
    case Fixed(n) => m.(tokens := m.tokens + n)
  }

  function TakenAll(m: Meter, ps: seq<Piece>): Meter {
    if ps == [] then m else Taken(TakenAll(m, ps[..|ps| - 1]), ps[|ps| - 1])
  }

  function PartPiece(p: Part): Piece {
    match p
    case TextPart(text) => Add(text)
    case ImagePart => Fixed(IMAGE_PART_TOKENS)
    case JsonPart(json) => Add(json)
  }

  function PartPieces(parts: seq<Part>): seq<Piece> {
    seq(|parts|, i requires 0 <= i < |parts| => PartPiece(parts[i]))
  }

  function ContentPieces(c: Content): seq<Piece> {
    match c
    case Missing => []
    case Plain(text) => [Add(text)]
    case Parts(parts) => PartPieces(parts)
    case Other(json) => [Add(json)]
  }

  /** The chain of thought of a message: the first field that is present and not an empty string. */
  function ReasoningContent(m: Message): Content {
    if m.reasoningContent != Missing && m.reasoningContent != Plain([]) then m.reasoningContent
    else if m.reasoning != Plain([]) then m.reasoning
    else Missing
  }

  function ChoicePieces(c: Choice): seq<Piece> {
    match c.message
    case Some(m) =>
      ContentPieces(m.content) + ContentPieces(ReasoningContent(m))
      + (if m.toolCalls.Some? then [Add(m.toolCalls.value)] else [])
    case None => if c.text.Some? then [Add(c.text.value)] else []
  }

  function OutputPieces(output: seq<Content>): seq<Piece> {
    if output == [] then [] else OutputPieces(output[..|output| - 1]) + ContentPieces(output[|output| - 1])
  }

  function ChoicesPieces(choices: seq<Choice>): seq<Piece> {
    if choices == [] then [] else ChoicesPieces(choices[..|choices| - 1]) + ChoicePieces(choices[|choices| - 1])
  }

  function BodyPieces(b: Body): seq<Piece> {
    (if b.outputText.Some? then [Add(b.outputText.value)] else [])
    + OutputPieces(b.output) + ChoicesPieces(b.choices)
    + (if b.content.Parts? then ContentPieces(b.content) else [])
  }

  /** Tokens of a whole response, counted by one counter. */
  function BodyTokens(b: Body): nat {
    Reading(TakenAll(EMPTY, BodyPieces(b)))
  }

  lemma {:induction false} TakenInTurn(m: Meter, a: seq<Piece>, b: seq<Piece>)
    ensures TakenAll(m, a + b) == TakenAll(TakenAll(m, a), b)
    decreases |b|
  {
    hide Taken;
    if b == [] {
      assert a + b == a;
    } else {
      TakenInTurn(m, a, b[..|b| - 1]);
      assert (a + b)[..|a + b| - 1] == a + b[..|b| - 1];
    }
  }

  method TakePiece(counter: Counter, p: Piece)
    modifies counter
    ensures counter.State() == Taken(old(counter.State()), p)
  {
    match p
    case Add(text) => counter.Add(text);
    case Fixed(n) => counter.AddTokens(n);
  }

  method CountContentInto(counter: Counter, c: Content)
    modifies counter
    ensures counter.State() == TakenAll(old(counter.State()), ContentPieces(c))
  {
    ghost var start := counter.State();
    match c
    case Missing =>
    case Plain(text) =>
      TakePiece(counter, Add(text));
      assert [Add(text)][..0] == [];
    case Parts(parts) =>
      for i := 0 to |parts|
        invariant counter.State() == TakenAll(start, PartPieces(parts)[..i])
      {
        TakePiece(counter, PartPiece(parts[i]));
        assert PartPieces(parts)[..i + 1][..i] == PartPieces(parts)[..i];
      }
      assert PartPieces(parts)[..|parts|] == PartPieces(parts);
    case Other(json) =>
      TakePiece(counter, Add(json));
      assert [Add(json)][..0] == [];
  }

  /** A string, other JSON and the text or JSON of a part are fed as they are, and an image counts 300 tokens. */
  lemma ContentIsCounted(m: Meter, c: Content, parts: seq<Part>, p: Part)
    ensures c.Missing? ==> TakenAll(m, ContentPieces(c)) == m
    ensures c.Plain? ==> TakenAll(m, ContentPieces(c)) == Fed(m, c.text)
    ensures c.Other? ==> TakenAll(m, ContentPieces(c)) == Fed(m, c.json)
    ensures TakenAll(m, ContentPieces(Parts([]))) == m
    ensures var before := TakenAll(m, ContentPieces(Parts(parts)));
            TakenAll(m, ContentPieces(Parts(parts + [p]))) ==
            if p.TextPart? then Fed(before, p.text)
            else if p.ImagePart? then before.(tokens := before.tokens + 300)
            else Fed(before, p.json)
  {
    hide Fed;
    if c.Plain? { One(m, Add(c.text)); }
    if c.Other? { One(m, Add(c.json)); }
    assert PartPieces(parts + [p]) == PartPieces(parts) + [PartPiece(p)];
    TakenInTurn(m, PartPieces(parts), [PartPiece(p)]);
    One(TakenAll(m, PartPieces(parts)), PartPiece(p));
  }

  lemma One(m: Meter, p: Piece)
    ensures TakenAll(m, [p]) == Taken(m, p)
  {
    assert [p][..0] == [];
  }

  /** An output text is counted first, and without any field nothing is counted. */
  lemma OutputTextIsCounted(b: Body)
    requires b.output == [] && b.choices == [] && !b.content.Parts?
    ensures TakenAll(EMPTY, BodyPieces(b)) == if b.outputText.Some? then Fed(EMPTY, b.outputText.value) else EMPTY
  {
    hide Fed;
    if b.outputText.Some? { One(EMPTY, Add(b.outputText.value)); }
  }

  lemma OneMoreItem(b: Body, item: Content)
    requires b.choices == [] && !b.content.Parts?
    ensures BodyPieces(b.(output := b.output + [item])) == BodyPieces(b) + ContentPieces(item)
  {
    assert (b.output + [item])[..|b.output|] == b.output;
    hide ContentPieces;
    var first := if b.outputText.Some? then [Add(b.outputText.value)] else [];
    assert BodyPieces(b) == first + OutputPieces(b.output);
    Regrouped(first, OutputPieces(b.output), ContentPieces(item));
  }

  lemma OneMoreChoice(b: Body, c: Choice)
    requires !b.content.Parts?
    ensures BodyPieces(b.(choices := b.choices + [c])) == BodyPieces(b) + ChoicePieces(c)
  {
    assert (b.choices + [c])[..|b.choices|] == b.choices;
    hide ChoicePieces, OutputPieces;
    var first := if b.outputText.Some? then [Add(b.outputText.value)] else [];
    assert BodyPieces(b) == first + OutputPieces(b.output) + ChoicesPieces(b.choices);
    Regrouped(first + OutputPieces(b.output), ChoicesPieces(b.choices), ChoicePieces(c));
  }

  lemma Regrouped(a: seq<Piece>, b: seq<Piece>, c: seq<Piece>)
    ensures a + (b + c) == a + b + c
  {
  }

  /** An output item counts its content. */
  lemma ItemIsCounted(b: Body, item: Content)
    requires b.choices == [] && !b.content.Parts?
    ensures TakenAll(EMPTY, BodyPieces(b.(output := b.output + [item]))) ==
            TakenAll(TakenAll(EMPTY, BodyPieces(b)), ContentPieces(item))
  {
    hide *;
    OneMoreItem(b, item);
    TakenInTurn(EMPTY, BodyPieces(b), ContentPieces(item));
  }

  /** A choice with a message counts its content, then its reasoning, which is the field "reasoning_content" unless
      that is missing or empty and else "reasoning", and then its tool calls; the text of a choice counts only
      without a message. */
  lemma ChoiceIsCounted(b: Body, c: Choice)
    requires !b.content.Parts?
    ensures var before := TakenAll(EMPTY, BodyPieces(b));
            TakenAll(EMPTY, BodyPieces(b.(choices := b.choices + [c]))) ==
            if c.message.None? then
              if c.text.None? then before else Fed(before, c.text.value)
            else
              var m := c.message.value;
              var reasoning :=
                if m.reasoningContent == Missing || m.reasoningContent == Plain([]) then m.reasoning
                else m.reasoningContent;
              var said := TakenAll(before, ContentPieces(m.content));
              var thought := if reasoning == Plain([]) then said else TakenAll(said, ContentPieces(reasoning));
              if m.toolCalls.None? then thought else Fed(thought, m.toolCalls.value)
  {
    hide TakenAll, ContentPieces, Fed, BodyPieces;
    var before := TakenAll(EMPTY, BodyPieces(b));
    OneMoreChoice(b, c);
    TakenInTurn(EMPTY, BodyPieces(b), ChoicePieces(c));
    NoPieces(before);
    match c.message
    case None =>
      if c.text.Some? { One(before, Add(c.text.value)); }
    case Some(m) =>
      var calls := if m.toolCalls.Some? then [Add(m.toolCalls.value)] else [];
      var said := TakenAll(before, ContentPieces(m.content));
      var thought := TakenAll(said, ContentPieces(ReasoningContent(m)));
      TakenInTurn(before, ContentPieces(m.content) + ContentPieces(ReasoningContent(m)), calls);
      TakenInTurn(before, ContentPieces(m.content), ContentPieces(ReasoningContent(m)));
      NothingThought(said);
      NoPieces(thought);
      if m.toolCalls.Some? { One(thought, Add(m.toolCalls.value)); }
  }

  lemma NothingThought(m: Meter)
    ensures TakenAll(m, ContentPieces(Missing)) == m
  {
  }

  /** A content list of the response itself is counted last; anything else there is not. */
  lemma ContentListIsCounted(b: Body, content: Content)
    requires !b.content.Parts?
    ensures TakenAll(EMPTY, BodyPieces(b.(content := content))) ==
            if content.Parts? then TakenAll(TakenAll(EMPTY, BodyPieces(b)), ContentPieces(content))
            else TakenAll(EMPTY, BodyPieces(b))
  {
    hide TakenAll, ContentPieces;
    if content.Parts? {
      assert BodyPieces(b.(content := content)) == BodyPieces(b) + ContentPieces(content);
      TakenInTurn(EMPTY, BodyPieces(b), ContentPieces(content));
    }
  }

  /** One counter for all fields, so that a word may go on from one field into the next. */
  method CountCompletionPayload(b: Body) returns (n: nat)
    ensures n == BodyTokens(b)
  {
    hide Taken, TakenAll, ContentPieces;
    var counter := new Counter();
    ghost var first := if b.outputText.Some? then [Add(b.outputText.value)] else [];
    if b.outputText.Some? {
      CountContentInto(counter, Plain(b.outputText.value));
    }
    assert counter.State() == TakenAll(EMPTY, first) by { PlainPieces(b.outputText); }
    CountOutput(counter, b.output);
    CountChoices(counter, b.choices);
    if b.content.Parts? {
      CountContentInto(counter, b.content);
    }
    InTurn(first, OutputPieces(b.output), ChoicesPieces(b.choices),
      if b.content.Parts? then ContentPieces(b.content) else []);
    NoPieces(counter.State());
    n := counter.Total();
  }

  lemma PlainPieces(text: Option<Text>)
    ensures TakenAll(EMPTY, []) == EMPTY
    ensures text.Some? ==> ContentPieces(Plain(text.value)) == [Add(text.value)]
  {
  }

  lemma NoPieces(m: Meter)
    ensures TakenAll(m, []) == m
  {
  }

  lemma InTurn(a: seq<Piece>, b: seq<Piece>, c: seq<Piece>, d: seq<Piece>)
    ensures TakenAll(EMPTY, a + b + c + d) == TakenAll(TakenAll(TakenAll(TakenAll(EMPTY, a), b), c), d)
  {
    hide *;
    TakenInTurn(EMPTY, a + b + c, d);
    TakenInTurn(EMPTY, a + b, c);
    TakenInTurn(EMPTY, a, b);
  }

  method CountOutput(counter: Counter, output: seq<Content>)
    modifies counter
    ensures counter.State() == TakenAll(old(counter.State()), OutputPieces(output))
  {
    hide Taken, TakenAll, ContentPieces;
    ghost var start := counter.State();
    NoPieces(start);
    for i := 0 to |output|
      invariant counter.State() == TakenAll(start, OutputPieces(output[..i]))
    {
      CountContentInto(counter, output[i]);
      assert output[..i + 1][..i] == output[..i];
      TakenInTurn(start, OutputPieces(output[..i]), ContentPieces(output[i]));
    }
    assert output[..|output|] == output;
  }

  method CountChoices(counter: Counter, choices: seq<Choice>)
    modifies counter
    ensures counter.State() == TakenAll(old(counter.State()), ChoicesPieces(choices))
  {
    hide Taken, TakenAll, ChoicePieces;
    ghost var start := counter.State();
    NoPieces(start);
    for i := 0 to |choices|
      invariant counter.State() == TakenAll(start, ChoicesPieces(choices[..i]))
    {
      CountChoice(counter, choices[i]);
      assert choices[..i + 1][..i] == choices[..i];
      TakenInTurn(start, ChoicesPieces(choices[..i]), ChoicePieces(choices[i]));
    }
    assert choices[..|choices|] == choices;
  }

  method CountChoice(counter: Counter, c: Choice)
    modifies counter
    ensures counter.State() == TakenAll(old(counter.State()), ChoicePieces(c))
  {
    hide Taken, TakenAll;
    ghost var start := counter.State();
    NoPieces(start);
    match c.message
    case Some(m) =>
      CountContentInto(counter, m.content);
      CountContentInto(counter, ReasoningContent(m));
      if m.toolCalls.Some? {
        CountContentInto(counter, Other(m.toolCalls.value));
      }
      NoPieces(counter.State());
      ghost var calls := if m.toolCalls.Some? then [Add(m.toolCalls.value)] else [];
      TakenInTurn(start, ContentPieces(m.content) + ContentPieces(ReasoningContent(m)), calls);
      TakenInTurn(start, ContentPieces(m.content), ContentPieces(ReasoningContent(m)));
    case None =>
      if c.text.Some? {
        CountContentInto(counter, Plain(c.text.value));
      }
  }

  // ---------------------------------------------------------------------------------------------
  // Enforcing the limit
  // ---------------------------------------------------------------------------------------------

  function CutOption(t: Option<Text>, cap: nat): Option<Text> {
    if t.Some? then Some(Trimmed(t.value, cap)) else None
  }

  predicate OptionOver(t: Option<Text>, cap: nat) {
    t.Some? && IsOver(t.value, cap)
  }

  /** Only a string is cut in a message. */
  function CutContent(c: Content, cap: nat): Content {
    if c.Plain? then Plain(Trimmed(c.text, cap)) else c
  }

  predicate ContentOver(c: Content, cap: nat) {
    c.Plain? && IsOver(c.text, cap)
  }

  function CutMessage(m: Message, cap: nat): Message {
    m.(content := CutContent(m.content, cap),
       reasoningContent := CutContent(m.reasoningContent, cap),
       reasoning := CutContent(m.reasoning, cap))
  }

  predicate MessageOver(m: Message, cap: nat) {
    ContentOver(m.content, cap) || ContentOver(m.reasoningContent, cap) || ContentOver(m.reasoning, cap)
  }

  predicate ChoiceOver(c: Choice, cap: nat) {
    (c.message.Some? && MessageOver(c.message.value, cap)) || OptionOver(c.text, cap)
  }

  /** A choice is marked once it or an earlier choice was cut. */
  function CutChoice(c: Choice, cap: nat, marked: bool): Choice {
    Choice(
      if c.message.Some? then Some(CutMessage(c.message.value, cap)) else None,
      CutOption(c.text, cap),
      if marked then "length" else c.finishReason)
  }

  predicate AnyChoiceOver(choices: seq<Choice>, cap: nat) {
    exists i :: 0 <= i < |choices| && ChoiceOver(choices[i], cap)
  }

  function CutChoices(choices: seq<Choice>, cap: nat): seq<Choice> {
    seq(|choices|, i requires 0 <= i < |choices| => CutChoice(choices[i], cap, AnyChoiceOver(choices[..i + 1], cap)))
  }

  /** In an output item the text parts of its list are cut. */
  function CutPart(p: Part, cap: nat): Part {
    if p.TextPart? then TextPart(Trimmed(p.text, cap)) else p
  }

  predicate PartOver(p: Part, cap: nat) {
    p.TextPart? && IsOver(p.text, cap)
  }

  function CutItem(c: Content, cap: nat): Content {
    if c.Parts? then Parts(seq(|c.parts|, i requires 0 <= i < |c.parts| => CutPart(c.parts[i], cap))) else c
  }

  predicate ItemOver(c: Content, cap: nat) {
    c.Parts? && exists i :: 0 <= i < |c.parts| && PartOver(c.parts[i], cap)
  }

  function CutOutput(output: seq<Content>, cap: nat): seq<Content> {
    seq(|output|, i requires 0 <= i < |output| => CutItem(output[i], cap))
  }

  predicate AnyOutputOver(output: seq<Content>, cap: nat) {
    exists i :: 0 <= i < |output| && ItemOver(output[i], cap)
  }

  /** Some field that the limit applies to is over it. */
  predicate AnyOver(b: Body, cap: nat) {
    AnyChoiceOver(b.choices, cap) || OptionOver(b.outputText, cap) || AnyOutputOver(b.output, cap)
  }

  /** Enforcement acts when a limit is declared, the whole response is over the cap and some field is. */
  predicate Enforces(b: Body, limit: int) {
    OutputHardCap(limit) > 0 && BodyTokens(b) > OutputHardCap(limit) && AnyOver(b, OutputHardCap(limit))
  }

  function Enforced(b: Body, limit: int): Body {
    if !Enforces(b, limit) then b
    else
      var cap := OutputHardCap(limit);
      Body(
        CutOption(b.outputText, cap), CutOutput(b.output, cap), CutChoices(b.choices, cap), b.content,
        if b.status.Some? then Some("incomplete") else None,
        if b.status.Some? then Some("max_output_tokens") else b.incompleteReason)
  }

  lemma CutTextWithin(text: Text, cap: nat)
    requires cap > 0
    ensures !IsOver(Trimmed(text, cap), cap)
  {
    TrimmedText(text, cap);
  }

  lemma CutChoiceWithin(c: Choice, cap: nat, marked: bool)
    requires cap > 0
    ensures !ChoiceOver(CutChoice(c, cap, marked), cap)
  {
    hide Trimmed, IsOver;
    if c.message.Some? {
      var m := c.message.value;
      if m.content.Plain? { CutTextWithin(m.content.text, cap); }
      if m.reasoningContent.Plain? { CutTextWithin(m.reasoningContent.text, cap); }
      if m.reasoning.Plain? { CutTextWithin(m.reasoning.text, cap); }
    }
    if c.text.Some? { CutTextWithin(c.text.value, cap); }
  }

  lemma CutItemWithin(c: Content, cap: nat)
    requires cap > 0
    ensures !ItemOver(CutItem(c, cap), cap)
  {
    hide Trimmed, IsOver;
    if c.Parts? {
      forall i | 0 <= i < |c.parts| ensures !PartOver(CutPart(c.parts[i], cap), cap) {
        if c.parts[i].TextPart? { CutTextWithin(c.parts[i].text, cap); }
      }
    }
  }

  lemma CutListsWithin(choices: seq<Choice>, output: seq<Content>, cap: nat)
    requires cap > 0
    ensures !AnyChoiceOver(CutChoices(choices, cap), cap)
    ensures !AnyOutputOver(CutOutput(output, cap), cap)
  {
    hide ChoiceOver, CutChoice, ItemOver, CutItem;
    forall i | 0 <= i < |choices| ensures !ChoiceOver(CutChoices(choices, cap)[i], cap) {
      CutChoiceWithin(choices[i], cap, AnyChoiceOver(choices[..i + 1], cap));
    }
    forall i | 0 <= i < |output| ensures !ItemOver(CutOutput(output, cap)[i], cap) {
      CutItemWithin(output[i], cap);
    }
  }

  /** After a cut no field is over the cap any more. */
  lemma CutIsWithin(b: Body, limit: int)
    requires Enforces(b, limit)
    ensures !AnyOver(Enforced(b, limit), OutputHardCap(limit))
  {
    var cap := OutputHardCap(limit);
    CutListsWithin(b.choices, b.output, cap);
    if b.outputText.Some? { CutTextWithin(b.outputText.value, cap); }
    hide BodyTokens, Trimmed, IsOver, CutChoices, CutOutput, AnyChoiceOver, AnyOutputOver;
  }

  /** The margin is a quarter of the limit and eight tokens: without a limit, or up to there, a response stays as
      it is, and beyond it something is cut exactly when some field is longer than that by itself. */
  lemma EnforcesIff(b: Body, limit: int)
    ensures Enforces(b, limit) <==>
              limit > 0 && BodyTokens(b) > limit + limit / 4 + 8 && AnyOver(b, limit + limit / 4 + 8)
    ensures limit <= 0 || BodyTokens(b) <= limit + limit / 4 + 8 ==> Enforced(b, limit) == b
  {
    hide AnyOver, BodyTokens;
  }

  function Tokens(text: Text): nat {
    Count(Decode(text))
  }

  /** The choices from the first cut one on say that they were cut. */
  lemma MarkedFromCutOn(choices: seq<Choice>, cap: nat)
    ensures forall i :: 0 <= i < |choices| ==>
              CutChoices(choices, cap)[i].finishReason ==
              if exists j :: 0 <= j <= i && ChoiceOver(choices[j], cap) then "length" else choices[i].finishReason
  {
    hide ChoiceOver;
    forall i | 0 <= i < |choices|
      ensures CutChoices(choices, cap)[i].finishReason ==
              if exists j :: 0 <= j <= i && ChoiceOver(choices[j], cap) then "length" else choices[i].finishReason
    {
      OverUpTo(choices, i, cap);
    }
  }

  lemma OverUpTo(choices: seq<Choice>, i: nat, cap: nat)
    requires i < |choices|
    ensures AnyChoiceOver(choices[..i + 1], cap) <==> exists j :: 0 <= j <= i && ChoiceOver(choices[j], cap)
  {
    hide ChoiceOver;
    if j :| 0 <= j <= i && ChoiceOver(choices[j], cap) {
      assert choices[..i + 1][j] == choices[j];
    }
  }

  /** After a cut the text of every choice, its content and both fields of reasoning, the output text and every
      text part of the output are within the margin. */
  lemma CutFields(b: Body, limit: int)
    requires Enforces(b, limit)
    ensures var z, cap := Enforced(b, limit), limit + limit / 4 + 8;
            && (z.outputText.Some? ==> Tokens(z.outputText.value) <= cap)
            && (forall i :: 0 <= i < |z.output| && z.output[i].Parts? ==>
                  forall j :: 0 <= j < |z.output[i].parts| && z.output[i].parts[j].TextPart? ==>
                    Tokens(z.output[i].parts[j].text) <= cap)
            && (forall i :: 0 <= i < |z.choices| ==>
                  && (z.choices[i].text.Some? ==> Tokens(z.choices[i].text.value) <= cap)
                  && (z.choices[i].message.Some? ==>
                        var m := z.choices[i].message.value;
                        && (m.content.Plain? ==> Tokens(m.content.text) <= cap)
                        && (m.reasoningContent.Plain? ==> Tokens(m.reasoningContent.text) <= cap)
                        && (m.reasoning.Plain? ==> Tokens(m.reasoning.text) <= cap)))
  {
    var z, cap := Enforced(b, limit), limit + limit / 4 + 8;
    CutIsWithin(b, limit);
    hide Enforced, Count, Decode, BodyTokens;
    forall i | 0 <= i < |z.choices| ensures !ChoiceOver(z.choices[i], cap) {
    }
    forall i | 0 <= i < |z.output| ensures !ItemOver(z.output[i], cap) {
    }
    forall i, j | 0 <= i < |z.output| && z.output[i].Parts? && 0 <= j < |z.output[i].parts|
      ensures !PartOver(z.output[i].parts[j], cap)
    {
      assert !ItemOver(z.output[i], cap);
    }
  }

  /** A response that was cut and has a status says that it is incomplete; everything else about it stays. */
  lemma CutIsMarked(b: Body, limit: int)
    requires Enforces(b, limit)
    ensures var z := Enforced(b, limit);
            && z.choices == CutChoices(b.choices, limit + limit / 4 + 8)
            && |z.choices| == |b.choices| && |z.output| == |b.output| && z.content == b.content
            && (b.status.Some? ==> z.status == Some("incomplete") && z.incompleteReason == Some("max_output_tokens"))
            && (b.status.None? ==> z.status.None? && z.incompleteReason == b.incompleteReason)
  {
    hide CutChoices, CutOption, ChoiceOver, BodyTokens, AnyOver;
    ChoicesStay(b.choices, limit + limit / 4 + 8);
  }

  lemma ChoicesStay(choices: seq<Choice>, cap: nat)
    ensures |CutChoices(choices, cap)| == |choices|
  {
    hide CutChoice, AnyChoiceOver;
  }

  /** Enforcing the limit twice is the same as enforcing it once. */
  lemma EnforceIsIdempotent(b: Body, limit: int)
    ensures Enforced(Enforced(b, limit), limit) == Enforced(b, limit)
    ensures !Enforces(Enforced(b, limit), limit)
  {
    hide AnyOver, BodyTokens, OutputHardCap;
    if Enforces(b, limit) {
      CutIsWithin(b, limit);
    }
  }

  /** A response that is edited in place. */
  class Payload {
    var outputText: Option<Text>
    var output: seq<Content>
    var choices: seq<Choice>
    var content: Content
    var status: Option<string>
    var incompleteReason: Option<string>

    function State(): Body
      reads this
    {
      Body(outputText, output, choices, content, status, incompleteReason)
    }

    constructor (b: Body)
      ensures State() == b
    {
      outputText, output, choices, content, status, incompleteReason :=
        b.outputText, b.output, b.choices, b.content, b.status, b.incompleteReason;
    }

    method EnforceOutputLimit(limit: int) returns (truncated: bool)
      modifies this
      ensures State() == Enforced(old(State()), limit) && truncated == Enforces(old(State()), limit)
    {
      hide BodyTokens, Trimmed, IsOver, CutChoices, CutOutput, AnyChoiceOver, AnyOutputOver;
      var hardCap := OutputHardCap(limit);
      if hardCap <= 0 {
        return false;
      }
      var total := CountCompletionPayload(State());
      if total <= hardCap {
        return false;
      }
      NothingOver(old(State()), hardCap);
      truncated := TrimChoices(hardCap);
      if outputText.Some? {
        var kept, cut := TrimToTokens(outputText.value, hardCap);
        outputText := Some(kept);
        truncated := truncated || cut;
      }
      var cutOutput := TrimOutput(hardCap);
      truncated := truncated || cutOutput;
      if truncated && status.Some? {
        status := Some("incomplete");
        incompleteReason := Some("max_output_tokens");
      }
    }

    method TrimChoices(cap: nat) returns (truncated: bool)
      modifies this`choices
      ensures choices == CutChoices(old(choices), cap) && truncated == AnyChoiceOver(old(choices), cap)
    {
      hide ChoiceOver, CutChoice, AnyChoiceOver;
      ghost var all := choices;
      AnyOverPrefix(all, [], cap);
      truncated := false;
      var i := 0;
      while i < |choices|
        invariant i <= |choices| == |all|
        invariant forall j :: 0 <= j < i ==> choices[j] == CutChoice(all[j], cap, AnyChoiceOver(all[..j + 1], cap))
        invariant forall j :: i <= j < |all| ==> choices[j] == all[j]
        invariant truncated == AnyChoiceOver(all[..i], cap)
      {
        var c, cut := TrimChoice(choices[i], cap, truncated);
        AnyOverPrefix(all[..i + 1], [], cap);
        assert all[..i + 1][..i] == all[..i];
        truncated := cut;
        choices := choices[i := c];
        i := i + 1;
      }
      assert all[..i] == all;
    }

    method TrimOutput(cap: nat) returns (truncated: bool)
      modifies this`output
      ensures output == CutOutput(old(output), cap) && truncated == AnyOutputOver(old(output), cap)
    {
      hide ItemOver, CutItem, AnyOutputOver;
      ghost var all := output;
      AnyOverPrefix([], all, cap);
      truncated := false;
      var i := 0;
      while i < |output|
        invariant i <= |output| == |all|
        invariant forall j :: 0 <= j < i ==> output[j] == CutItem(all[j], cap)
        invariant forall j :: i <= j < |all| ==> output[j] == all[j]
        invariant truncated == AnyOutputOver(all[..i], cap)
      {
        var c, cut := TrimItem(output[i], cap);
        AnyOverPrefix([], all[..i + 1], cap);
        assert all[..i + 1][..i] == all[..i];
        truncated := truncated || cut;
        output := output[i := c];
        i := i + 1;
      }
      assert all[..i] == all;
    }
  }

  /** Being over the cap, from one end of a list. */
  lemma AnyOverPrefix(choices: seq<Choice>, output: seq<Content>, cap: nat)
    ensures !AnyChoiceOver(choices[..0], cap) && !AnyOutputOver(output[..0], cap)
    ensures choices != [] ==>
              (AnyChoiceOver(choices, cap) <==>
               AnyChoiceOver(choices[..|choices| - 1], cap) || ChoiceOver(choices[|choices| - 1], cap))
    ensures output != [] ==>
              (AnyOutputOver(output, cap) <==>
               AnyOutputOver(output[..|output| - 1], cap) || ItemOver(output[|output| - 1], cap))
  {
    hide ChoiceOver, ItemOver;
  }

  /** Cutting a response in which nothing is over the cap leaves every field as it is. */
  lemma NothingOver(b: Body, cap: nat)
    requires cap > 0
    ensures !AnyOver(b, cap) ==> CutOption(b.outputText, cap) == b.outputText
    ensures !AnyOver(b, cap) ==> CutOutput(b.output, cap) == b.output
    ensures !AnyOver(b, cap) ==> CutChoices(b.choices, cap) == b.choices
  {
    hide IsOver;
    forall text: Text ensures !IsOver(text, cap) ==> Trimmed(text, cap) == text { }
    hide Trimmed;
    if !AnyOver(b, cap) {
      forall i | 0 <= i < |b.choices| ensures CutChoices(b.choices, cap)[i] == b.choices[i] {
        assert !ChoiceOver(b.choices[i], cap);
      }
      forall i | 0 <= i < |b.output| ensures CutOutput(b.output, cap)[i] == b.output[i] {
        assert !ItemOver(b.output[i], cap);
      }
    }
  }

  method TrimContent(c: Content, cap: nat) returns (kept: Content, cut: bool)
    ensures kept == CutContent(c, cap) && cut == ContentOver(c, cap)
  {
    if !c.Plain? || c.text == [] {
      EmptyIsKept(cap);
      return c, false;
    }
    var text, over := TrimToTokens(c.text, cap);
    return Plain(text), over;
  }

  lemma EmptyIsKept(cap: nat)
    ensures !IsOver([], cap) && Trimmed([], cap) == []
  {
  }

  method TrimChoice(c: Choice, cap: nat, before: bool) returns (kept: Choice, truncated: bool)
    ensures truncated == (before || ChoiceOver(c, cap))
    ensures kept == CutChoice(c, cap, truncated)
  {
    hide Trimmed, IsOver;
    kept, truncated := c, before;
    if c.message.Some? {
      var content, cut := TrimContent(c.message.value.content, cap);
      var thought, cutThought := TrimContent(c.message.value.reasoningContent, cap);
      var reasoning, cutReasoning := TrimContent(c.message.value.reasoning, cap);
      kept := kept.(message :=
        Some(c.message.value.(content := content, reasoningContent := thought, reasoning := reasoning)));
      truncated := truncated || cut || cutThought || cutReasoning;
    }
    if c.text.Some? {
      var text, cut := TrimToTokens(c.text.value, cap);
      kept := kept.(text := Some(text));
      truncated := truncated || cut;
    }
    if truncated {
      kept := kept.(finishReason := "length");
    }
  }

  method TrimItem(c: Content, cap: nat) returns (kept: Content, truncated: bool)
    ensures kept == CutItem(c, cap) && truncated == ItemOver(c, cap)
  {
    hide Trimmed, IsOver;
    kept, truncated := c, false;
    if c.Parts? {
      var parts, i := c.parts, 0;
      while i < |parts|
        invariant i <= |parts| == |c.parts|
        invariant forall j :: 0 <= j < |parts| ==> parts[j] == if j < i then CutPart(c.parts[j], cap) else c.parts[j]
        invariant truncated <==> exists j :: 0 <= j < i && PartOver(c.parts[j], cap)
      {
        if parts[i].TextPart? {
          var text, cut := TrimToTokens(parts[i].text, cap);
          parts := parts[i := TextPart(text)];
          truncated := truncated || cut;
        }
        i := i + 1;
      }
      kept := Parts(parts);
    }
  }
}
