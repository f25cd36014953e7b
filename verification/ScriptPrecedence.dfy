/** Which operand belongs to which operator in a balance script (internal/script/parser.go): what any chain of
    operands and operators parses to, and what surrounds it, whatever tokens the operands are written with. */
module ScriptPrecedence {
  import opened Lists
  import opened ScriptGrammar
  import opened ScriptPrinter

  // ---------------------------------------------------------------------------------------------
  // Operators and operands
  // ---------------------------------------------------------------------------------------------

  /** How tightly an operator binds; zero for anything that is no operator between two operands. */
  function Rank(op: string): nat {
    if op in {"*", "/", "%"} then 7
    else if op in {"+", "-"} then 6
    else if op in {"<", "<=", ">", ">="} then 5
    else if op in {"===", "!==", "==", "!="} then 4
    else if op == "&&" then 3
    else if op in {"||", "??"} then 2
    else 0
  }

  function Operation(op: string, left: Node, right: Node): Node {
    if op in {"&&", "||", "??"} then Logical(op, left, right) else Binary(op, left, right)
  }

  /** Tokens, the tree that they stand for, and the nodes that parsing them counts. */
  datatype Phrase = Phrase(toks: seq<Token>, tree: Node, nodes: nat)

  /** What follows a complete expression. */
  predicate Ends(rest: seq<Token>) {
    rest == [] || (rest[0].Punct? && rest[0].text in {":", ")", "]", "}", ",", ";"})
  }

  predicate IsAssignment(op: string) {
    op in {"=", "+=", "-=", "*=", "/=", "%="}
  }

  /** What follows an operand. */
  predicate Follows(rest: seq<Token>) {
    || Ends(rest)
    || (rest[0].Punct? && (Rank(rest[0].text) > 0 || IsAssignment(rest[0].text) || rest[0].text == "?"))
  }

  function RankOf(rest: seq<Token>): nat {
    if rest != [] && rest[0].Punct? then Rank(rest[0].text) else 0
  }

  /** Members, elements and calls may follow. */
  ghost predicate IsBase(x: Phrase) {
    && (forall rest, n: nat :: !At(rest, "=>") && n + x.nodes <= MAX_NODES ==>
          ParsePostfix(x.toks + rest, n) == ParseTail(x.tree, rest, n + x.nodes))
    && x.toks != [] && !IsUnaryOp(x.toks[0])
  }

  /** May stand on either side of any operator. */
  ghost predicate IsOperand(x: Phrase) {
    forall rest, n: nat :: Follows(rest) && n + x.nodes <= MAX_NODES ==>
        ParseLevel(8, x.toks + rest, n) == Got(x.tree, rest, n + x.nodes)
  }

  /** May stand where a whole expression is expected. */
  ghost predicate IsWhole(x: Phrase) {
    forall rest, n: nat :: Ends(rest) && n + x.nodes <= MAX_NODES ==>
        ParseAssign(x.toks + rest, n) == Got(x.tree, rest, n + x.nodes)
  }

  ghost predicate AllOperands(xs: seq<Phrase>) {
    forall i :: 0 <= i < |xs| ==> IsOperand(xs[i])
  }

  /** All operators bind at least as tightly as level k. */
  predicate Bind(ops: seq<string>, k: nat) {
    forall i :: 0 <= i < |ops| ==> k <= Rank(ops[i])
  }

  // ---------------------------------------------------------------------------------------------
  // Chains
  // ---------------------------------------------------------------------------------------------

  function Written(xs: seq<Phrase>, ops: seq<string>): seq<Token>
    requires |xs| == |ops| + 1
  {
    if ops == [] then xs[0].toks else xs[0].toks + ([Punct(ops[0])] + Written(xs[1..], ops[1..]))
  }

  function Nodes(xs: seq<Phrase>): nat {
    if xs == [] then 0 else xs[0].nodes + Nodes(xs[1..])
  }

  /** The last of the operators that bind least. */
  function Loosest(ops: seq<string>): (i: nat)
    requires ops != []
    ensures i < |ops|
    ensures forall j :: 0 <= j < |ops| ==> Rank(ops[i]) <= Rank(ops[j])
    ensures forall j :: i < j < |ops| ==> Rank(ops[i]) < Rank(ops[j])
  {
    if |ops| == 1 then 0
    else
      var i := 1 + Loosest(ops[1..]);
      assert forall j :: 1 <= j < |ops| ==> ops[j] == ops[1..][j - 1];
      if Rank(ops[0]) < Rank(ops[i]) then 0 else i
  }

  /** The tree whose root is the last of the loosest operators, with such trees on both sides. */
  function TreeOf(xs: seq<Phrase>, ops: seq<string>): Node
    requires |xs| == |ops| + 1
    decreases |ops|
  {
    if ops == [] then xs[0].tree
    else
      var i := Loosest(ops);
      Operation(ops[i], TreeOf(xs[..i + 1], ops[..i]), TreeOf(xs[i + 1..], ops[i + 1..]))
  }

  lemma {:induction false} WrittenSplits(xs: seq<Phrase>, ops: seq<string>, i: nat)
    requires |xs| == |ops| + 1 && i < |ops|
    ensures Written(xs, ops) ==
            Written(xs[..i + 1], ops[..i]) + ([Punct(ops[i])] + Written(xs[i + 1..], ops[i + 1..]))
    ensures Nodes(xs) == Nodes(xs[..i + 1]) + Nodes(xs[i + 1..])
    decreases i
  {
    if i == 0 {
      assert xs[..1][1..] == [] && Nodes([]) == 0;
    } else {
      WrittenSplits(xs[1..], ops[1..], i - 1);
      assert xs[1..][..i] == xs[..i + 1][1..] && ops[1..][..i - 1] == ops[..i][1..];
      assert xs[1..][i..] == xs[i + 1..] && ops[1..][i..] == ops[i + 1..];
    }
  }

  /** The parser's levels are the ranks. */
  lemma LevelsAreRanks(k: nat, t: Token, left: Node, right: Node)
    requires 2 <= k <= 7
    ensures IsOp(k, t) <==> t.Punct? && Rank(t.text) == k
    ensures IsOp(k, t) ==> Combined(k, t.text, left, right) == Operation(t.text, left, right)
  {
  }

  lemma RankIsLevel(k: nat, rest: seq<Token>)
    requires 2 <= k <= 7
    ensures IsOp(k, Peek(rest)) <==> RankOf(rest) == k
  {
  }

  lemma NoneBindsTighter(ops: seq<string>)
    requires Bind(ops, 8)
    ensures ops == []
  {
    assert ops != [] ==> Rank(ops[0]) <= 7;
  }

  lemma OperatorFollows(op: string, rest: seq<Token>)
    requires Rank(op) > 0
    ensures var toks := [Punct(op)] + rest;
            Follows(toks) && RankOf(toks) == Rank(op) && Peek(toks) == toks[0] == Punct(op) && Rest(toks) == rest
  {
    hide Rank;
    Peeked(Punct(op), rest);
  }

  /** A chain whose operators bind at least as tightly as level k, before something that binds no tighter, is
      what the parser goes on from. */
  lemma {:induction false} ChainIsOpen(k: nat, xs: seq<Phrase>, ops: seq<string>, rest: seq<Token>, n: nat)
    requires 2 <= k <= 7 && |xs| == |ops| + 1 && AllOperands(xs) && Follows(rest) && RankOf(rest) <= k
    requires Bind(ops, k)
    requires n + Nodes(xs) + |ops| <= MAX_NODES
    ensures ParseLevel(k, Written(xs, ops) + rest, n) ==
            ParseChain(k, TreeOf(xs, ops), rest, n + Nodes(xs) + |ops|)
    decreases |ops|, 8 - k, 0
  {
    hide *;
    if ops == [] || Rank(ops[Loosest(ops)]) > k {
      TightUnfolds(k, ops);
      ChainIsRead(k + 1, xs, ops, rest, n);
      LevelUnfolds(k, Written(xs, ops) + rest, n);
    } else {
      var i := Loosest(ops);
      var (xs1, ops1, xs2, ops2) := (xs[..i + 1], ops[..i], xs[i + 1..], ops[i + 1..]);
      LoosestSplits(xs, ops, k);
      TreeUnfolds(xs, ops);
      WrittenSplits(xs, ops, i);
      var after := Written(xs2, ops2) + rest;
      OperatorFollows(ops[i], after);
      assert Written(xs, ops) + rest == Written(xs1, ops1) + ([Punct(ops[i])] + after);
      ChainIsOpen(k, xs1, ops1, [Punct(ops[i])] + after, n);
      var n1 := n + Nodes(xs1) + |ops1|;
      ChainIsRead(k + 1, xs2, ops2, rest, n1);
      RankIsLevel(k, [Punct(ops[i])] + after);
      ChainUnfolds(k, TreeOf(xs1, ops1), [Punct(ops[i])] + after, n1);
      LevelsAreRanks(k, Punct(ops[i]), TreeOf(xs1, ops1), TreeOf(xs2, ops2));
    }
  }

  lemma TightUnfolds(k: nat, ops: seq<string>)
    requires ops == [] || Rank(ops[Loosest(ops)]) > k
    ensures Bind(ops, k + 1)
  {
    hide Rank;
  }

  lemma LoosestSplits(xs: seq<Phrase>, ops: seq<string>, k: nat)
    requires |xs| == |ops| + 1 && AllOperands(xs) && ops != [] && Rank(ops[Loosest(ops)]) <= k
    requires Bind(ops, k)
    ensures var i := Loosest(ops);
            && Rank(ops[i]) == k
            && AllOperands(xs[..i + 1]) && AllOperands(xs[i + 1..])
            && Bind(ops[..i], k) && Bind(ops[i + 1..], k + 1)
  {
    hide Rank, IsOperand;
  }

  lemma TreeUnfolds(xs: seq<Phrase>, ops: seq<string>)
    requires |xs| == |ops| + 1 && ops != []
    ensures var i := Loosest(ops);
            TreeOf(xs, ops) == Operation(ops[i], TreeOf(xs[..i + 1], ops[..i]), TreeOf(xs[i + 1..], ops[i + 1..]))
  {
    hide Operation, Rank;
  }

  /** The same before something that binds less tightly: the chain is read as its tree. */
  lemma {:induction false} ChainIsRead(k: nat, xs: seq<Phrase>, ops: seq<string>, rest: seq<Token>, n: nat)
    requires 2 <= k <= 8 && |xs| == |ops| + 1 && AllOperands(xs) && Follows(rest) && RankOf(rest) < k
    requires Bind(ops, k)
    requires n + Nodes(xs) + |ops| <= MAX_NODES
    ensures ParseLevel(k, Written(xs, ops) + rest, n) == Got(TreeOf(xs, ops), rest, n + Nodes(xs) + |ops|)
    decreases |ops|, 8 - k, 1
  {
    hide *;
    if k == 8 {
      NoneBindsTighter(ops);
      OneOperand(xs, rest, n);
    } else {
      ChainIsOpen(k, xs, ops, rest, n);
      RankIsLevel(k, rest);
      ChainUnfolds(k, TreeOf(xs, ops), rest, n + Nodes(xs) + |ops|);
    }
  }

  lemma OneOperand(xs: seq<Phrase>, rest: seq<Token>, n: nat)
    requires |xs| == 1 && AllOperands(xs) && Follows(rest) && n + Nodes(xs) <= MAX_NODES
    ensures ParseLevel(8, Written(xs, []) + rest, n) == Got(TreeOf(xs, []), rest, n + Nodes(xs))
  {
    assert xs[1..] == [] && Nodes([]) == 0;
    assert IsOperand(xs[0]);
    hide ParseLevel, Follows;
  }

  // ---------------------------------------------------------------------------------------------
  // Whole expressions
  // ---------------------------------------------------------------------------------------------

  lemma EndFollowsToo(rest: seq<Token>)
    requires Ends(rest)
    ensures Follows(rest) && RankOf(rest) == 0 && !At(rest, "?") && !IsAssignOp(Peek(rest)) && !At(rest, "=>")
  {
  }

  lemma ChainReadsAt(xs: seq<Phrase>, ops: seq<string>, rest: seq<Token>, n: nat)
    requires |xs| == |ops| + 1 && AllOperands(xs) && Bind(ops, 2)
    requires Ends(rest) && n + Nodes(xs) + |ops| <= MAX_NODES
    ensures ParseAssign(Written(xs, ops) + rest, n) == Got(TreeOf(xs, ops), rest, n + Nodes(xs) + |ops|)
  {
    hide *;
    var toks := Written(xs, ops) + rest;
    EndFollowsToo(rest);
    ChainIsRead(2, xs, ops, rest, n);
    ConditionalUnfolds(toks, n);
    AssignUnfolds(toks, n);
  }

  /** Any chain of operands and operators is read as its tree. */
  lemma ChainIsWhole(xs: seq<Phrase>, ops: seq<string>)
    requires |xs| == |ops| + 1 && AllOperands(xs) && Bind(ops, 2)
    ensures IsWhole(Phrase(Written(xs, ops), TreeOf(xs, ops), Nodes(xs) + |ops|))
  {
    hide ParseAssign, Written, TreeOf, Nodes, Ends, AllOperands, Bind;
    forall rest, n: nat | Ends(rest) && n + (Nodes(xs) + |ops|) <= MAX_NODES
      ensures ParseAssign(Written(xs, ops) + rest, n) == Got(TreeOf(xs, ops), rest, n + (Nodes(xs) + |ops|))
    {
      ChainReadsAt(xs, ops, rest, n);
    }
  }

  lemma MarkFollows(rest: seq<Token>)
    ensures var toks := [Punct("?")] + rest;
            Follows(toks) && RankOf(toks) == 0 && toks != [] && At(toks, "?") && Rest(toks) == rest
  {
    Peeked(Punct("?"), rest);
  }

  lemma ColonFollows(rest: seq<Token>)
    ensures var toks := [Punct(":")] + rest;
            Ends(toks) && toks != [] && At(toks, ":") && Rest(toks) == rest
  {
    Peeked(Punct(":"), rest);
  }

  lemma AssignmentFollows(op: string, rest: seq<Token>)
    requires IsAssignment(op)
    ensures var toks := [Punct(op)] + rest;
            && Follows(toks) && RankOf(toks) == 0 && !At(toks, "?") && IsAssignOp(Peek(toks))
            && toks != [] && toks[0] == Punct(op) && Rest(toks) == rest
  {
    Peeked(Punct(op), rest);
  }

  lemma WholeReads(x: Phrase, rest: seq<Token>, n: nat)
    requires IsWhole(x) && Ends(rest) && n + x.nodes <= MAX_NODES
    ensures ParseAssign(x.toks + rest, n) == Got(x.tree, rest, n + x.nodes)
  {
    hide ParseAssign, Ends;
  }

  function Conditional(test: Phrase, yes: Phrase, no: Phrase): Phrase {
    Phrase(test.toks + [Punct("?")] + yes.toks + [Punct(":")] + no.toks,
           Cond(test.tree, yes.tree, no.tree),
           test.nodes + yes.nodes + no.nodes)
  }

  function Chain(xs: seq<Phrase>, ops: seq<string>): Phrase
    requires |xs| == |ops| + 1
  {
    Phrase(Written(xs, ops), TreeOf(xs, ops), Nodes(xs) + |ops|)
  }

  lemma ConditionReadsAt(xs: seq<Phrase>, ops: seq<string>, yes: Phrase, no: Phrase, rest: seq<Token>, n: nat)
    requires |xs| == |ops| + 1 && AllOperands(xs) && Bind(ops, 2) && IsWhole(yes) && IsWhole(no)
    requires Ends(rest) && n + Nodes(xs) + |ops| + yes.nodes + no.nodes <= MAX_NODES
    ensures ParseAssign(Written(xs, ops) + ([Punct("?")] + (yes.toks + ([Punct(":")] + (no.toks + rest)))), n) ==
            Got(Cond(TreeOf(xs, ops), yes.tree, no.tree), rest, n + Nodes(xs) + |ops| + yes.nodes + no.nodes)
  {
    hide *;
    var behind := [Punct(":")] + (no.toks + rest);
    var middle := [Punct("?")] + (yes.toks + behind);
    MarkFollows(yes.toks + behind);
    ColonFollows(no.toks + rest);
    EndFollowsToo(rest);
    ChainIsRead(2, xs, ops, middle, n);
    var n1 := n + Nodes(xs) + |ops|;
    WholeReads(yes, behind, n1);
    WholeReads(no, rest, n1 + yes.nodes);
    ConditionalUnfolds(Written(xs, ops) + middle, n);
    AssignUnfolds(Written(xs, ops) + middle, n);
  }

  /** A condition binds less tightly than every operator, and its branches are whole expressions. */
  lemma ConditionIsWhole(xs: seq<Phrase>, ops: seq<string>, yes: Phrase, no: Phrase)
    requires |xs| == |ops| + 1 && AllOperands(xs) && Bind(ops, 2) && IsWhole(yes) && IsWhole(no)
    ensures IsWhole(Conditional(Chain(xs, ops), yes, no))
  {
    var x := Conditional(Chain(xs, ops), yes, no);
    hide ParseAssign, Written, TreeOf, Nodes, Ends, AllOperands, Bind;
    forall rest, n: nat | Ends(rest) && n + x.nodes <= MAX_NODES
      ensures ParseAssign(x.toks + rest, n) == Got(x.tree, rest, n + x.nodes)
    {
      hide IsWhole;
      ConditionReadsAt(xs, ops, yes, no, rest, n);
      assert x.toks + rest ==
             Written(xs, ops) + ([Punct("?")] + (yes.toks + ([Punct(":")] + (no.toks + rest))));
    }
  }

  function Assignment(target: Phrase, op: string, value: Phrase): Phrase {
    Phrase(target.toks + [Punct(op)] + value.toks, Assign(target.tree, op, value.tree), target.nodes + value.nodes)
  }

  lemma AssignmentReadsAt(target: Phrase, op: string, value: Phrase, rest: seq<Token>, n: nat)
    requires IsOperand(target) && (target.tree.Ident? || target.tree.Member? || target.tree.Element?)
    requires IsAssignment(op) && IsWhole(value) && Ends(rest) && n + target.nodes + value.nodes <= MAX_NODES
    ensures ParseAssign(target.toks + ([Punct(op)] + (value.toks + rest)), n) ==
            Got(Assign(target.tree, op, value.tree), rest, n + target.nodes + value.nodes)
  {
    hide IsOperand, IsWhole, ParseLevel, ParseConditional, ParseAssign, Written, TreeOf, Nodes, Rank, Ends, Follows;
    var after := [Punct(op)] + (value.toks + rest);
    var toks := target.toks + after;
    AssignmentFollows(op, value.toks + rest);
    OneIsChain(target);
    ChainIsRead(2, [target], [], after, n);
    ConditionalUnfolds(toks, n);
    AssignUnfolds(toks, n);
    WholeReads(value, rest, n + target.nodes);
  }

  lemma OneIsChain(x: Phrase)
    ensures Written([x], []) == x.toks && TreeOf([x], []) == x.tree && Nodes([x]) == x.nodes
  {
    assert [x][1..] == [] && Nodes([]) == 0;
  }

  /** An assignment binds least and takes everything to its right. */
  lemma AssignmentIsWhole(target: Phrase, op: string, value: Phrase)
    requires IsOperand(target) && (target.tree.Ident? || target.tree.Member? || target.tree.Element?)
    requires op in {"=", "+=", "-=", "*=", "/=", "%="} && IsWhole(value)
    ensures IsWhole(Assignment(target, op, value))
  {
    var x := Assignment(target, op, value);
    assert IsAssignment(op);
    hide ParseAssign, Ends, IsOperand, IsAssignment;
    forall rest, n: nat | Ends(rest) && n + x.nodes <= MAX_NODES
      ensures ParseAssign(x.toks + rest, n) == Got(x.tree, rest, n + x.nodes)
    {
      hide IsWhole;
      AssignmentReadsAt(target, op, value, rest, n);
      assert x.toks + rest == target.toks + ([Punct(op)] + (value.toks + rest));
    }
  }

  /** A script is a whole expression, after which a semicolon may stand. */
  lemma WholeIsScript(x: Phrase)
    requires IsWhole(x) && 1 + x.nodes <= MAX_NODES
    ensures ParseProgram(x.toks) == Some(x.tree) && ParseProgram(x.toks + P(";")) == Some(x.tree)
  {
    hide *;
    EndsHere();
    WholeReads(x, [], 1);
    WholeReads(x, P(";"), 1);
    assert x.toks + [] == x.toks;
    ScriptEnds(x.tree, x.toks, [], 1 + x.nodes);
    ScriptEnds(x.tree, x.toks + P(";"), P(";"), 1 + x.nodes);
  }

  lemma EndsHere()
    ensures Ends([]) && Ends(P(";"))
  {
  }

  /** The operators, loosest first. */
  const LEVELS: seq<set<string>> := [
    {"||", "??"}, {"&&"}, {"===", "!==", "==", "!="}, {"<", "<=", ">", ">="}, {"+", "-"}, {"*", "/", "%"}]

  /** Of two operators the tighter one takes the operand between them, and of two on one level the left one;
      "&&", "||" and "??" give logical nodes. */
  lemma ThreeOperands(a: Phrase, b: Phrase, c: Phrase, op1: string, op2: string, i: nat, j: nat)
    requires IsOperand(a) && IsOperand(b) && IsOperand(c) && a.nodes + b.nodes + c.nodes + 3 <= MAX_NODES
    requires i < 6 && j < 6 && op1 in LEVELS[i] && op2 in LEVELS[j]
    ensures var node := (op: string, left: Node, right: Node) =>
              if op in {"&&", "||", "??"} then Logical(op, left, right) else Binary(op, left, right);
            ParseProgram(a.toks + [Punct(op1)] + b.toks + [Punct(op2)] + c.toks) == Some(
              if i >= j then node(op2, node(op1, a.tree, b.tree), c.tree)
              else node(op1, a.tree, node(op2, b.tree, c.tree)))
  {
    var xs, ops := [a, b, c], [op1, op2];
    RankIsPlace(op1, i);
    RankIsPlace(op2, j);
    ChainIsWhole(xs, ops);
    ThreeAreWritten(a, b, c, op1, op2);
    WholeIsScript(Chain(xs, ops));
    hide IsWhole, IsOperand, ParseProgram, Rank, Written, TreeOf, Nodes;
  }

  lemma RankIsPlace(op: string, i: nat)
    requires i < 6 && op in LEVELS[i]
    ensures Rank(op) == i + 2
  {
  }

  lemma ThreeAreWritten(a: Phrase, b: Phrase, c: Phrase, op1: string, op2: string)
    ensures var x := Chain([a, b, c], [op1, op2]);
            && x.toks == a.toks + [Punct(op1)] + b.toks + [Punct(op2)] + c.toks
            && x.nodes == a.nodes + b.nodes + c.nodes + 2
            && x.tree == if Rank(op1) >= Rank(op2) then Operation(op2, Operation(op1, a.tree, b.tree), c.tree)
               else Operation(op1, a.tree, Operation(op2, b.tree, c.tree))
  {
    hide Rank, Operation, Loosest, Written, TreeOf, Nodes;
    var xs, ops := [a, b, c], [op1, op2];
    var k := Loosest(ops);
    TreeUnfolds(xs, ops);
    LoosestOfTwo(op1, op2);
    WrittenSplits(xs, ops, k);
    if k == 0 {
      assert xs[..1] == [a] && ops[..0] == [] && xs[1..] == [b, c] && ops[1..] == [op2];
      OneIsChain(a);
      TwoAreWritten(b, c, op2);
    } else {
      assert xs[..2] == [a, b] && ops[..1] == [op1] && xs[2..] == [c] && ops[2..] == [];
      OneIsChain(c);
      TwoAreWritten(a, b, op1);
    }
  }

  lemma LoosestOfTwo(op1: string, op2: string)
    ensures Loosest([op1]) == 0 && Loosest([op1, op2]) == if Rank(op1) >= Rank(op2) then 1 else 0
  {
    hide Rank;
    var i := Loosest([op1, op2]);
    assert Rank([op1, op2][i]) <= Rank([op1, op2][0]) && Rank([op1, op2][i]) <= Rank([op1, op2][1]);
    assert i == 0 ==> Rank([op1, op2][0]) < Rank([op1, op2][1]);
  }

  lemma TwoAreWritten(a: Phrase, b: Phrase, op: string)
    ensures Written([a, b], [op]) == a.toks + [Punct(op)] + b.toks && Nodes([a, b]) == a.nodes + b.nodes
    ensures TreeOf([a, b], [op]) == Operation(op, a.tree, b.tree)
  {
    hide *;
    LoosestOfTwo(op, op);
    TreeUnfolds([a, b], [op]);
    WrittenSplits([a, b], [op], 0);
    assert [a, b][..1] == [a] && [op][..0] == [] && [a, b][1..] == [b] && [op][1..] == [];
    OneIsChain(a);
    OneIsChain(b);
  }

  // ---------------------------------------------------------------------------------------------
  // What may be an operand
  // ---------------------------------------------------------------------------------------------

  /** A printed expression, in parentheses where it binds less tightly than a unary operator. */
  lemma PrintedIsOperand(e: Node)
    requires Printable(e)
    ensures IsOperand(Phrase(Print(e, 8), e, CostAt(e, 8)))
  {
    hide Printable, Print, CostAt, ParseLevel, Follows, Stops;
    forall rest, n: nat | Follows(rest) && n + CostAt(e, 8) <= MAX_NODES
      ensures ParseLevel(8, Print(e, 8) + rest, n) == Got(e, rest, n + CostAt(e, 8))
    {
      FollowsStops(rest);
      ReadLevel(e, 8, rest, n);
    }
  }

  lemma FollowsStops(rest: seq<Token>)
    requires Follows(rest)
    ensures Stops(Peek(rest), 8) && !At(rest, "=>")
  {
  }

  /** An operand in parentheses is whatever stands in them, however loosely it binds. */
  lemma ParenthesisedIsOperand(x: Phrase)
    requires IsWhole(x) && Balanced(x.toks)
    ensures IsOperand(Phrase(P("(") + x.toks + P(")"), x.tree, x.nodes + 3))
  {
    hide Balanced, ParseLevel, Follows, IsWhole, P;
    forall rest, n: nat | Follows(rest) && n + (x.nodes + 3) <= MAX_NODES
      ensures ParseLevel(8, P("(") + x.toks + P(")") + rest, n) == Got(x.tree, rest, n + (x.nodes + 3))
    {
      ParenthesisedReadsAt(x, rest, n);
    }
  }

  lemma ParenthesisedReadsAt(x: Phrase, rest: seq<Token>, n: nat)
    requires IsWhole(x) && Balanced(x.toks) && Follows(rest) && n + x.nodes + 3 <= MAX_NODES
    ensures ParseLevel(8, P("(") + x.toks + P(")") + rest, n) == Got(x.tree, rest, n + x.nodes + 3)
  {
    hide *;
    var toks := P("(") + x.toks + P(")") + rest;
    FollowsStops(rest);
    CloserEnds(rest);
    WholeReads(x, P(")") + rest, n + 2);
    ReadParens(x.tree, x.toks, rest, n, n + 2 + x.nodes);
    PostfixUnfolds(toks, n);
    assert toks == P("(") + (x.toks + P(")") + rest);
    ParenIsNoOperator(x.toks + P(")") + rest);
    UpFromPostfix(8, toks, n, x.tree, rest, n + x.nodes + 2);
  }

  lemma CloserEnds(rest: seq<Token>)
    ensures Ends(P(")") + rest)
  {
  }

  /** A unary operator binds more tightly than any operator between two operands. */
  lemma UnaryIsOperand(op: string, x: Phrase)
    requires op in {"!", "-", "+", "typeof"} && IsOperand(x)
    ensures IsOperand(Phrase([if op == "typeof" then Name(op) else Punct(op)] + x.toks, Unary(op, x.tree), x.nodes + 1))
  {
    var t := if op == "typeof" then Name(op) else Punct(op);
    hide ParseLevel, Follows;
    forall rest, n: nat | Follows(rest) && n + (x.nodes + 1) <= MAX_NODES
      ensures ParseLevel(8, [t] + x.toks + rest, n) == Got(Unary(op, x.tree), rest, n + (x.nodes + 1))
    {
      Peeked(t, x.toks + rest);
      assert [t] + x.toks + rest == [t] + (x.toks + rest);
      UnaryUnfolds([t] + x.toks + rest, n);
      assert ParseLevel(8, x.toks + rest, n) == Got(x.tree, rest, n + x.nodes);
    }
  }

  /** Members, elements and calls bind more tightly than unary operators. */
  lemma BaseIsOperand(x: Phrase)
    requires IsBase(x)
    ensures IsOperand(Phrase(x.toks, x.tree, x.nodes + 1))
  {
    hide ParseLevel, ParsePostfix, ParseTail, Follows;
    forall rest, n: nat | Follows(rest) && n + (x.nodes + 1) <= MAX_NODES
      ensures ParseLevel(8, x.toks + rest, n) == Got(x.tree, rest, n + (x.nodes + 1))
    {
      FollowsStops(rest);
      assert ParsePostfix(x.toks + rest, n) == ParseTail(x.tree, rest, n + x.nodes);
      HeadPeeked(x.toks, rest);
      UpFromPostfix(8, x.toks + rest, n, x.tree, rest, n + x.nodes);
    }
  }

  lemma NumberIsBase(number: real, key: string)
    ensures IsBase(Phrase([Number(number, key)], NumLit(number), 1))
  {
    hide ParsePostfix, ParseTail;
    forall rest, n: nat | !At(rest, "=>") && n + 1 <= MAX_NODES
      ensures ParsePostfix([Number(number, key)] + rest, n) == ParseTail(NumLit(number), rest, n + 1)
    {
      PostfixUnfolds([Number(number, key)] + rest, n);
      Peeked(Number(number, key), rest);
    }
  }

  lemma VariableIsBase(name: string)
    requires IsVariable(name)
    ensures IsBase(Phrase([Name(name)], Ident(name), 1))
  {
    hide ParsePostfix, ParseTail, IsBanned;
    forall rest, n: nat | !At(rest, "=>") && n + 1 <= MAX_NODES
      ensures ParsePostfix([Name(name)] + rest, n) == ParseTail(Ident(name), rest, n + 1)
    {
      PostfixUnfolds([Name(name)] + rest, n);
      Peeked(Name(name), rest);
    }
  }

  lemma MemberIsBase(x: Phrase, name: string)
    requires IsBase(x)
    ensures IsBase(Phrase(x.toks + [Punct("."), Name(name)], Member(x.tree, name, false), x.nodes + 1))
  {
    hide ParsePostfix, ParseTail;
    forall rest, n: nat | !At(rest, "=>") && n + (x.nodes + 1) <= MAX_NODES
      ensures ParsePostfix(x.toks + [Punct("."), Name(name)] + rest, n) ==
              ParseTail(Member(x.tree, name, false), rest, n + (x.nodes + 1))
    {
      var after := [Punct(".")] + ([Name(name)] + rest);
      assert x.toks + [Punct("."), Name(name)] + rest == x.toks + after;
      Peeked(Punct("."), [Name(name)] + rest);
      Peeked(Name(name), rest);
      TailUnfolds(x.tree, after, n + x.nodes);
    }
  }

  /** What a word is on its own: a literal, refused, or a variable. */
  lemma WordsAre(word: string, rest: seq<Token>, n: nat)
    requires n < MAX_NODES && !At(rest, "=>") && word != "function"
    ensures ParsePrimary([Name(word)] + rest, n) ==
            if word == "true" then Got(BoolLit(true), rest, n + 1)
            else if word == "false" then Got(BoolLit(false), rest, n + 1)
            else if word == "null" then Got(NullLit, rest, n + 1)
            else if word == "undefined" then Got(UndefLit, rest, n + 1)
            else if word in {
              "require", "import", "process", "globalThis", "global", "eval", "Function", "fetch", "XMLHttpRequest",
              "WebSocket", "setTimeout", "setInterval", "Buffer", "window", "document", "new", "class", "async",
              "await", "yield", "this", "try", "catch", "throw", "while", "do", "switch", "delete", "void", "in",
              "instanceof"} then Fail
            else Got(Ident(word), rest, n + 1)
  {
    Peeked(Name(word), rest);
    hide ParseFunction, ParseArrowBody;
  }
}
