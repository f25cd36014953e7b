/** Writing balance scripts back as tokens, functions and their statements included, with parentheses where
    precedence asks for them, and the proof that the parser (internal/script/parser.go) reads everything written
    back. */
module ScriptPrinter {
  import opened Lists
  import opened ScriptGrammar

  // ---------------------------------------------------------------------------------------------
  // Printing
  // ---------------------------------------------------------------------------------------------

  /** The level of a binary operator, zero for anything else. */
  function LevelOfOp(op: string): nat {
    if IsOp(2, Punct(op)) then 2
    else if IsOp(3, Punct(op)) then 3
    else if IsOp(4, Punct(op)) then 4
    else if IsOp(5, Punct(op)) then 5
    else if IsOp(6, Punct(op)) then 6
    else if IsOp(7, Punct(op)) then 7
    else 0
  }

  /** How tightly an expression binds: 0 for assignments and arrow functions up to 10 for literals. */
  function LevelOf(e: Node): nat {
    match e
    case Assign(_, _, _) => 0
    case ArrowLit(_, _) => 0
    case Cond(_, _, _) => 1
    case Logical(op, _, _) => LevelOfOp(op)
    case Binary(op, _, _) => LevelOfOp(op)
    case Unary(_, _) => 8
    case Member(_, _, _) => 9
    case Element(_, _, _) => 9
    case Call(_, _, _) => 9
    case _ => 10
  }

  function P(text: string): seq<Token> {
    [Punct(text)]
  }

  function UnaryToken(op: string): Token {
    if op == "typeof" then Name(op) else Punct(op)
  }

  /** An expression where level k is expected. */
  function Print(e: Node, k: nat): seq<Token>
    decreases e, 1
  {
    if LevelOf(e) < k then P("(") + Bare(e) + P(")") else Bare(e)
  }

  function Bare(e: Node): seq<Token>
    decreases e, 0
  {
    match e
    case NumLit(number) => [Number(number, "")]
    case StrLit(str) => [Text(str)]
    case BoolLit(truth) => [Name(if truth then "true" else "false")]
    case NullLit => [Name("null")]
    case UndefLit => [Name("undefined")]
    case TmplLit(chunks, exprs) => [Template(chunks, PrintSources(exprs))]
    case Ident(name) => [Name(name)]
    case ObjLit(keys, values) => P("{") + PrintFields(keys, values) + P("}")
    case ArrLit(items) => P("[") + PrintList(items) + P("]")
    case Member(base, name, optional) => Print(base, 9) + P(if optional then "?." else ".") + [Name(name)]
    case Element(base, prop, optional) =>
      Print(base, 9) + (if optional then P("?.") else []) + (P("[") + Print(prop, 0) + P("]"))
    case Call(callee, args, optional) =>
      Print(callee, 9) + (if optional then P("?.") else []) + (P("(") + PrintList(args) + P(")"))
    case Unary(op, arg) => [UnaryToken(op)] + Print(arg, 8)
    case Binary(op, left, right) => Print(left, LevelOfOp(op)) + (P(op) + Print(right, LevelOfOp(op) + 1))
    case Logical(op, left, right) => Print(left, LevelOfOp(op)) + (P(op) + Print(right, LevelOfOp(op) + 1))
    case Cond(test, cons, alt) => Print(test, 2) + (P("?") + (Print(cons, 0) + (P(":") + Print(alt, 0))))
    case Assign(target, op, value) => Print(target, 1) + (P(op) + Print(value, 0))
    case ArrowLit(params, expr) => P("(") + PrintNames(params) + P(")") + (P("=>") + Print(expr, BodyLevel(expr)))
    case FnLit(params, body) =>
      [Name("function")] + ((P("(") + PrintNames(params) + P(")")) + (P("{") + PrintBody(body) + P("}")))
  }

  /** The body of an arrow function is put in parentheses when it would start with a brace. */
  function BodyLevel(e: Node): nat
    decreases e, 2
  {
    if At(Print(e, 0), "{") then 11 else 0
  }

  function PrintList(items: seq<Node>): seq<Token>
    decreases items
  {
    if items == [] then []
    else if |items| == 1 then Print(items[0], 0)
    else Print(items[0], 0) + (P(",") + PrintList(items[1..]))
  }

  function PrintFields(keys: seq<string>, values: seq<Node>): seq<Token>
    decreases values
  {
    if values == [] || keys == [] then []
    else
      var field := [Text(keys[0])] + (P(":") + Print(values[0], 0));
      if |values| == 1 then field else field + (P(",") + PrintFields(keys[1..], values[1..]))
  }

  function PrintSources(exprs: seq<Node>): seq<Source>
    decreases exprs
  {
    if exprs == [] then [] else [Source(Print(exprs[0], 0))] + PrintSources(exprs[1..])
  }

  function PrintBody(body: seq<Stmt>): seq<Token>
    decreases body
  {
    if body == [] then [] else PrintStmt(body[0]) + PrintBody(body[1..])
  }

  /** An expression that is a statement stands in parentheses, so that it never starts like another one. */
  function PrintStmt(s: Stmt): seq<Token>
    decreases s
  {
    match s
    case VarDecl(names, inits) => [Name("var")] + PrintDecls(names, inits) + P(";")
    case Return(arg) => [Name("return")] + (if arg.None? then [] else Print(arg.value, 0)) + P(";")
    case If(test, cons, alt) =>
      [Name("if")] + (P("(") + Print(test, 0) + P(")"))
      + (PrintStmt(cons) + if alt.None? then [] else [Name("else")] + PrintStmt(alt.value))
    case Block(body) => P("{") + PrintBody(body) + P("}")
    case ExprStmt(expr) => P("(") + Bare(expr) + P(")") + P(";")
    case ForOf(name, iter, loopBody) =>
      [Name("for")] + (P("(") + (LoopHead(name) + Print(iter, 0)) + P(")")) + PrintStmt(loopBody)
  }

  function LoopHead(name: string): seq<Token> {
    [Name("let"), Name(name), Name("of")]
  }

  function PrintDecls(names: seq<string>, inits: seq<Option<Node>>): seq<Token>
    decreases inits
  {
    if names == [] || inits == [] then []
    else
      var one := [Name(names[0])] + PrintInit(inits[0]);
      if |inits| == 1 then one else one + (P(",") + PrintDecls(names[1..], inits[1..]))
  }

  function PrintInit(init: Option<Node>): seq<Token>
    decreases init
  {
    match init
    case None => []
    case Some(e) => P("=") + Print(e, 0)
  }

  function PrintNames(names: seq<string>): seq<Token> {
    if names == [] then []
    else if |names| == 1 then [Name(names[0])]
    else PrintNames(names[..|names| - 1]) + (P(",") + [Name(names[|names| - 1])])
  }

  // ---------------------------------------------------------------------------------------------
  // Nodes that parsing the printed form counts
  // ---------------------------------------------------------------------------------------------

  /** As part of a bigger expression that expects level k. */
  function CostAt(e: Node, k: nat): nat
    decreases e, 1
  {
    if LevelOf(e) < k then CostBare(e) + 3 else CostBare(e)
  }

  /** Before a member, an element or a call. */
  function CostBase(e: Node): nat
    decreases e, 1
  {
    if LevelOf(e) < 9 then CostBare(e) + 2 else CostBare(e) - 1
  }

  function CostBare(e: Node): (n: nat)
    ensures LevelOf(e) >= 9 ==> n >= 1
    decreases e, 0
  {
    match e
    case ObjLit(_, values) => 2 + CostList(values)
    case ArrLit(items) => 2 + CostList(items)
    case Member(base, _, _) => CostBase(base) + 2
    case Element(base, prop, _) => CostBase(base) + 3 + CostAt(prop, 0)
    case Call(callee, args, _) => CostBase(callee) + 2 + CostList(args)
    case Unary(_, arg) => CostAt(arg, 8) + 1
    case Binary(op, left, right) => CostAt(left, LevelOfOp(op)) + CostAt(right, LevelOfOp(op) + 1) + 1
    case Logical(op, left, right) => CostAt(left, LevelOfOp(op)) + CostAt(right, LevelOfOp(op) + 1) + 1
    case Cond(test, cons, alt) => CostAt(test, 2) + CostAt(cons, 0) + CostAt(alt, 0)
    case Assign(target, _, value) => CostAt(target, 1) + CostAt(value, 0)
    case ArrowLit(_, expr) => CostAt(expr, BodyLevel(expr)) + 2
    case FnLit(_, body) => 2 + CostBody(body)
    case _ => 2
  }

  function CostBody(body: seq<Stmt>): nat
    decreases body
  {
    if body == [] then 0 else CostStmt(body[0]) + CostBody(body[1..])
  }

  function CostStmt(s: Stmt): (n: nat)
    ensures n >= 1
    decreases s
  {
    match s
    case VarDecl(_, inits) => 1 + CostInits(inits)
    case Return(arg) => if arg.None? then 1 else 2 + CostBare(arg.value)
    case If(test, cons, alt) =>
      2 + CostBare(test) + CostStmt(cons) + if alt.None? then 0 else CostStmt(alt.value)
    case Block(body) => 1 + CostBody(body)
    case ExprStmt(expr) => 5 + CostBare(expr)
    case ForOf(_, iter, loopBody) => 2 + CostBare(iter) + CostStmt(loopBody)
  }

  function CostInits(inits: seq<Option<Node>>): nat
    decreases inits
  {
    if inits == [] then 0
    else CostInit(inits[0]) + CostInits(inits[1..])
  }

  function CostInit(init: Option<Node>): nat
    decreases init
  {
    match init
    case None => 0
    case Some(e) => CostBare(e)
  }

  function CostList(items: seq<Node>): nat
    decreases items
  {
    if items == [] then 0 else CostAt(items[0], 0) + CostList(items[1..])
  }

  // ---------------------------------------------------------------------------------------------
  // Expressions that can be printed
  // ---------------------------------------------------------------------------------------------

  predicate IsVariable(name: string) {
    name !in {"true", "false", "null", "undefined", "function", "typeof"} && !IsBanned(name)
  }

  /** Operators and names that occur in trees; the expressions of a template fit a budget of their own. */
  predicate Printable(e: Node)
    decreases e
  {
    match e
    case TmplLit(_, exprs) => AllPrintable(exprs) && AllFit(exprs)
    case Ident(name) => IsVariable(name)
    case ObjLit(keys, values) => |keys| == |values| && AllPrintable(values)
    case ArrLit(items) => AllPrintable(items)
    case Member(base, _, _) => Printable(base)
    case Element(base, prop, _) => Printable(base) && Printable(prop)
    case Call(callee, args, _) => Printable(callee) && AllPrintable(args)
    case Unary(op, arg) => (op == "typeof" || IsUnaryOp(Punct(op))) && Printable(arg)
    case Binary(op, left, right) => 4 <= LevelOfOp(op) && Printable(left) && Printable(right)
    case Logical(op, left, right) => 2 <= LevelOfOp(op) <= 3 && Printable(left) && Printable(right)
    case Cond(test, cons, alt) => Printable(test) && Printable(cons) && Printable(alt)
    case Assign(target, op, value) => Assignable(target) && IsAssignOp(Punct(op)) && Printable(target)
      && Printable(value)
    case ArrowLit(_, expr) => Printable(expr)
    case FnLit(_, body) => AllStmtsPrintable(body)
    case _ => true
  }

  predicate AllStmtsPrintable(body: seq<Stmt>)
    decreases body
  {
    body == [] || (StmtPrintable(body[0]) && AllStmtsPrintable(body[1..]))
  }

  /** An `else` belongs to the nearest `if`, so no tree has one behind a branch that is still open. */
  predicate StmtPrintable(s: Stmt)
    decreases s
  {
    match s
    case VarDecl(names, inits) => |names| == |inits| && |names| > 0 && AllInitsPrintable(inits)
    case Return(arg) => arg.None? || Printable(arg.value)
    case If(test, cons, alt) =>
      Printable(test) && StmtPrintable(cons) && (alt.None? || (!EndsOpen(cons) && StmtPrintable(alt.value)))
    case Block(body) => AllStmtsPrintable(body)
    case ExprStmt(expr) => Printable(expr)
    case ForOf(_, iter, loopBody) => Printable(iter) && StmtPrintable(loopBody)
  }

  predicate AllInitsPrintable(inits: seq<Option<Node>>)
    decreases inits
  {
    inits == [] || (InitPrintable(inits[0]) && AllInitsPrintable(inits[1..]))
  }

  predicate InitPrintable(init: Option<Node>)
    decreases init
  {
    match init
    case None => true
    case Some(e) => Printable(e)
  }

  /** An `else` right behind the statement would be taken for a part of it. */
  predicate EndsOpen(s: Stmt) {
    match s
    case If(_, _, alt) => alt.None? || EndsOpen(alt.value)
    case ForOf(_, _, loopBody) => EndsOpen(loopBody)
    case _ => false
  }

  predicate AllPrintable(es: seq<Node>)
    decreases es
  {
    es == [] || (Printable(es[0]) && AllPrintable(es[1..]))
  }

  predicate AllFit(es: seq<Node>) {
    forall i :: 0 <= i < |es| ==> 1 + CostAt(es[i], 0) <= MAX_NODES
  }

  // ---------------------------------------------------------------------------------------------
  // Parentheses in printed expressions match
  // ---------------------------------------------------------------------------------------------

  /** Open parentheses after some tokens, unless the last one closes on the way. */
  function Net(toks: seq<Token>, depth: nat): Option<nat> {
    if toks == [] then Some(depth)
    else
      match Net(toks[..|toks| - 1], depth)
      case None => None
      case Some(d) =>
        var last := toks[|toks| - 1];
        if last == EndOfFile then None
        else if last == Punct("(") then Some(d + 1)
        else if last == Punct(")") then (if d <= 1 then None else Some(d - 1))
        else Some(d)
  }

  ghost predicate Balanced(toks: seq<Token>) {
    forall d: nat :: d >= 1 ==> Net(toks, d) == Some(d)
  }

  lemma {:induction false} NetConcat(a: seq<Token>, b: seq<Token>, d: nat)
    ensures Net(a + b, d) == match Net(a, d) { case None => None case Some(d') => Net(b, d') }
    decreases |b|
  {
    if b == [] {
      assert a + b == a;
    } else {
      NetConcat(a, b[..|b| - 1], d);
      assert (a + b)[..|a + b| - 1] == a + b[..|b| - 1];
    }
  }

  lemma BalancedConcat(a: seq<Token>, b: seq<Token>)
    requires Balanced(a) && Balanced(b)
    ensures Balanced(a + b)
  {
    hide Net;
    forall d: nat | d >= 1 ensures Net(a + b, d) == Some(d) {
      NetConcat(a, b, d);
    }
  }

  predicate Plain(t: Token) {
    t != EndOfFile && t != Punct("(") && t != Punct(")")
  }

  lemma BalancedToken(t: Token)
    requires Plain(t)
    ensures Balanced([t])
  {
    assert [t][..0] == [];
  }

  lemma BalancedNothing()
    ensures Balanced([])
  {
  }

  lemma NetOfParens(d: nat)
    requires d >= 1
    ensures Net(P("("), d) == Some(d + 1) && Net(P(")"), d + 1) == Some(d)
  {
    assert P("(")[..0] == [] && P(")")[..0] == [];
  }

  lemma BalancedInParens(toks: seq<Token>)
    requires Balanced(toks)
    ensures Balanced(P("(") + toks + P(")"))
  {
    hide Net, P;
    forall d: nat | d >= 1 ensures Net(P("(") + toks + P(")"), d) == Some(d) {
      NetOfParens(d);
      NetConcat(P("("), toks, d);
      NetConcat(P("(") + toks, P(")"), d);
    }
  }

  lemma BalancedTwo(t: Token, toks: seq<Token>)
    requires Plain(t) && Balanced(toks)
    ensures Balanced([t] + toks)
  {
    BalancedToken(t);
    BalancedConcat([t], toks);
  }

  lemma {:induction false} PrintIsBalanced(e: Node, k: nat)
    requires Printable(e)
    ensures Balanced(Print(e, k))
    decreases e, 2
  {
    BareIsBalanced(e);
    BalancedInParens(Bare(e));
    hide Balanced, Bare, Printable;
  }

  lemma {:induction false} BareIsBalanced(e: Node)
    requires Printable(e)
    ensures Balanced(Bare(e))
    decreases e, 1
  {
    hide Balanced, Print, PrintList, PrintFields, PrintBody, LevelOfOp, IsOp, IsBanned, BodyLevel;
    match e {
      case ObjLit(keys, values) =>
        FieldsAreBalanced(keys, values);
        Wrapped("{", PrintFields(keys, values), "}");
      case ArrLit(items) =>
        ListIsBalanced(items);
        Wrapped("[", PrintList(items), "]");
      case Member(base, name, optional) =>
        PrintIsBalanced(base, 9);
        BalancedToken(Punct(if optional then "?." else "."));
        BalancedToken(Name(name));
        BalancedConcat(Print(base, 9), P(if optional then "?." else "."));
        BalancedConcat(Print(base, 9) + P(if optional then "?." else "."), [Name(name)]);
      case Element(base, prop, optional) =>
        PrintIsBalanced(base, 9);
        PrintIsBalanced(prop, 0);
        Wrapped("[", Print(prop, 0), "]");
        AfterBase(Print(base, 9), optional, P("[") + Print(prop, 0) + P("]"));
      case Call(callee, args, optional) =>
        PrintIsBalanced(callee, 9);
        ListIsBalanced(args);
        BalancedInParens(PrintList(args));
        AfterBase(Print(callee, 9), optional, P("(") + PrintList(args) + P(")"));
      case ArrowLit(params, expr) =>
        NamesAreBalanced(params);
        BalancedInParens(PrintNames(params));
        PrintIsBalanced(expr, BodyLevel(expr));
        BalancedTwo(Punct("=>"), Print(expr, BodyLevel(expr)));
        BalancedConcat(P("(") + PrintNames(params) + P(")"), P("=>") + Print(expr, BodyLevel(expr)));
      case Unary(_, _) => OperatorIsBalanced(e);
      case Binary(_, _, _) => OperatorIsBalanced(e);
      case Logical(_, _, _) => OperatorIsBalanced(e);
      case Cond(_, _, _) => OperatorIsBalanced(e);
      case Assign(_, _, _) => OperatorIsBalanced(e);
      case FnLit(params, body) =>
        NamesAreBalanced(params);
        BalancedInParens(PrintNames(params));
        BodyIsBalanced(body);
        Wrapped("{", PrintBody(body), "}");
        BalancedConcat(P("(") + PrintNames(params) + P(")"), P("{") + PrintBody(body) + P("}"));
        BalancedTwo(Name("function"), (P("(") + PrintNames(params) + P(")")) + (P("{") + PrintBody(body) + P("}")));
      case _ =>
        LiteralIsBalanced(e);
    }
  }

  lemma {:induction false} BodyIsBalanced(body: seq<Stmt>)
    requires AllStmtsPrintable(body)
    ensures Balanced(PrintBody(body))
    decreases body
  {
    hide Balanced, PrintStmt, StmtPrintable;
    BalancedNothing();
    if body != [] {
      StmtIsBalanced(body[0]);
      BodyIsBalanced(body[1..]);
      BalancedConcat(PrintStmt(body[0]), PrintBody(body[1..]));
    }
  }

  lemma {:induction false} StmtIsBalanced(s: Stmt)
    requires StmtPrintable(s)
    ensures Balanced(PrintStmt(s))
    decreases s
  {
    hide Balanced, Print, Bare, Printable, PrintBody, PrintDecls, EndsOpen;
    BalancedToken(Punct(";"));
    BalancedNothing();
    match s {
      case VarDecl(names, inits) =>
        DeclsAreBalanced(names, inits);
        BalancedTwo(Name("var"), PrintDecls(names, inits));
        BalancedConcat([Name("var")] + PrintDecls(names, inits), P(";"));
      case Return(arg) =>
        var printed := if arg.None? then [] else Print(arg.value, 0);
        if arg.Some? {
          PrintIsBalanced(arg.value, 0);
        }
        BalancedTwo(Name("return"), printed);
        BalancedConcat([Name("return")] + printed, P(";"));
      case If(test, cons, alt) =>
        PrintIsBalanced(test, 0);
        StmtIsBalanced(cons);
        var tail := if alt.None? then [] else [Name("else")] + PrintStmt(alt.value);
        if alt.Some? {
          StmtIsBalanced(alt.value);
          BalancedTwo(Name("else"), PrintStmt(alt.value));
        }
        BalancedConcat(PrintStmt(cons), tail);
        HeadedStmt("if", Print(test, 0), PrintStmt(cons) + tail);
      case Block(body) =>
        BodyIsBalanced(body);
        Wrapped("{", PrintBody(body), "}");
      case ExprStmt(expr) =>
        BareIsBalanced(expr);
        BalancedInParens(Bare(expr));
        BalancedConcat(P("(") + Bare(expr) + P(")"), P(";"));
      case ForOf(name, iter, loopBody) =>
        PrintIsBalanced(iter, 0);
        HeadIsBalanced(name, Print(iter, 0));
        StmtIsBalanced(loopBody);
        HeadedStmt("for", LoopHead(name) + Print(iter, 0), PrintStmt(loopBody));
    }
  }

  /** A word, something in parentheses, and more. */
  lemma HeadedStmt(word: string, inside: seq<Token>, tail: seq<Token>)
    requires Balanced(inside) && Balanced(tail)
    ensures Balanced([Name(word)] + (P("(") + inside + P(")")) + tail)
  {
    hide Balanced;
    BalancedInParens(inside);
    BalancedTwo(Name(word), P("(") + inside + P(")"));
    BalancedConcat([Name(word)] + (P("(") + inside + P(")")), tail);
  }

  lemma HeadIsBalanced(name: string, iter: seq<Token>)
    requires Balanced(iter)
    ensures Balanced(LoopHead(name) + iter)
  {
    hide Balanced;
    BalancedTwo(Name("of"), iter);
    BalancedTwo(Name(name), [Name("of")] + iter);
    BalancedTwo(Name("let"), [Name(name)] + ([Name("of")] + iter));
    assert LoopHead(name) + iter == [Name("let")] + ([Name(name)] + ([Name("of")] + iter));
  }

  lemma {:induction false} DeclsAreBalanced(names: seq<string>, inits: seq<Option<Node>>)
    requires AllInitsPrintable(inits)
    ensures Balanced(PrintDecls(names, inits))
    decreases inits
  {
    hide Balanced, PrintInit, InitPrintable;
    BalancedNothing();
    if names != [] && inits != [] {
      InitIsBalanced(inits[0]);
      BalancedTwo(Name(names[0]), PrintInit(inits[0]));
      DeclsAreBalanced(names[1..], inits[1..]);
      BalancedTwo(Punct(","), PrintDecls(names[1..], inits[1..]));
      BalancedConcat([Name(names[0])] + PrintInit(inits[0]), P(",") + PrintDecls(names[1..], inits[1..]));
    }
  }

  lemma {:induction false} InitIsBalanced(init: Option<Node>)
    requires InitPrintable(init)
    ensures Balanced(PrintInit(init))
    decreases init
  {
    hide Balanced, Print, Printable;
    match init {
      case None => BalancedNothing();
      case Some(e) =>
        PrintIsBalanced(e, 0);
        BalancedTwo(Punct("="), Print(e, 0));
    }
  }

  lemma LiteralIsBalanced(e: Node)
    requires Printable(e)
    requires e.NumLit? || e.StrLit? || e.BoolLit? || e.NullLit? || e.UndefLit? || e.TmplLit? || e.Ident?
    ensures Balanced(Bare(e))
  {
    hide Balanced, Printable, PrintSources;
    BalancedToken(Bare(e)[0]);
  }

  lemma {:induction false} OperatorIsBalanced(e: Node)
    requires Printable(e) && (e.Unary? || e.Binary? || e.Logical? || e.Cond? || e.Assign?)
    ensures Balanced(Bare(e))
    decreases e, 0
  {
    hide Balanced, Print, LevelOfOp, IsOp, IsBanned;
    if e.Unary? {
      PrintIsBalanced(e.arg, 8);
      BalancedTwo(UnaryToken(e.op), Print(e.arg, 8));
    } else if e.Cond? {
      PrintIsBalanced(e.test, 2);
      PrintIsBalanced(e.cons, 0);
      PrintIsBalanced(e.alt, 0);
      Joined(Print(e.cons, 0), ":", Print(e.alt, 0));
      Joined(Print(e.test, 2), "?", Print(e.cons, 0) + (P(":") + Print(e.alt, 0)));
    } else if e.Assign? {
      PrintIsBalanced(e.target, 1);
      PrintIsBalanced(e.value, 0);
      Joined(Print(e.target, 1), e.op, Print(e.value, 0));
    } else {
      var k := LevelOfOp(e.op);
      OperatorIsPlain(e.op);
      PrintIsBalanced(e.left, k);
      PrintIsBalanced(e.right, k + 1);
      Joined(Print(e.left, k), e.op, Print(e.right, k + 1));
    }
  }

  lemma OperatorIsPlain(op: string)
    ensures LevelOfOp(op) > 0 ==> Plain(Punct(op))
  {
  }

  lemma Wrapped(left: string, inside: seq<Token>, right: string)
    requires Plain(Punct(left)) && Plain(Punct(right)) && Balanced(inside)
    ensures Balanced(P(left) + inside + P(right))
  {
    hide Balanced;
    BalancedTwo(Punct(left), inside);
    BalancedToken(Punct(right));
    BalancedConcat(P(left) + inside, P(right));
  }

  lemma AfterBase(base: seq<Token>, optional: bool, suffix: seq<Token>)
    requires Balanced(base) && Balanced(suffix)
    ensures Balanced(base + (if optional then P("?.") else []) + suffix)
  {
    hide Balanced;
    BalancedToken(Punct("?."));
    BalancedNothing();
    BalancedConcat(base, if optional then P("?.") else []);
    BalancedConcat(base + (if optional then P("?.") else []), suffix);
  }

  lemma Joined(left: seq<Token>, op: string, right: seq<Token>)
    requires Balanced(left) && Balanced(right) && Plain(Punct(op))
    ensures Balanced(left + (P(op) + right))
  {
    hide Balanced;
    BalancedTwo(Punct(op), right);
    BalancedConcat(left, P(op) + right);
  }

  lemma {:induction false} ListIsBalanced(items: seq<Node>)
    requires AllPrintable(items)
    ensures Balanced(PrintList(items))
    decreases items
  {
    hide Balanced, Print, Printable;
    BalancedNothing();
    if items != [] {
      PrintIsBalanced(items[0], 0);
      ListIsBalanced(items[1..]);
      BalancedTwo(Punct(","), PrintList(items[1..]));
      BalancedConcat(Print(items[0], 0), P(",") + PrintList(items[1..]));
    }
  }

  lemma {:induction false} FieldsAreBalanced(keys: seq<string>, values: seq<Node>)
    requires AllPrintable(values)
    ensures Balanced(PrintFields(keys, values))
    decreases values
  {
    hide Balanced, Print, Printable;
    BalancedNothing();
    if values != [] && keys != [] {
      PrintIsBalanced(values[0], 0);
      FieldsAreBalanced(keys[1..], values[1..]);
      BalancedTwo(Punct(":"), Print(values[0], 0));
      BalancedTwo(Text(keys[0]), P(":") + Print(values[0], 0));
      BalancedTwo(Punct(","), PrintFields(keys[1..], values[1..]));
      BalancedConcat([Text(keys[0])] + (P(":") + Print(values[0], 0)), P(",") + PrintFields(keys[1..], values[1..]));
    }
  }

  lemma {:induction false} NamesAreBalanced(names: seq<string>)
    ensures Balanced(PrintNames(names))
  {
    hide Balanced;
    BalancedNothing();
    if names != [] {
      var last := names[|names| - 1];
      BalancedToken(Name(last));
      NamesAreBalanced(names[..|names| - 1]);
      BalancedTwo(Punct(","), [Name(last)]);
      BalancedConcat(PrintNames(names[..|names| - 1]), P(",") + [Name(last)]);
      assert |names| == 1 ==> names[0] == last;
    }
  }

  // ---------------------------------------------------------------------------------------------
  // Arrow parameters are recognised exactly in arrow functions
  // ---------------------------------------------------------------------------------------------

  lemma {:induction false} ClosingSkips(toks: seq<Token>, i: nat, inside: seq<Token>, depth: nat)
    requires i + |inside| <= |toks| && Net(inside, depth).Some?
    requires forall j :: 0 <= j < |inside| ==> toks[i + j] == inside[j]
    ensures Closing(toks, i, depth) == Closing(toks, i + |inside|, Net(inside, depth).value)
    decreases |inside|
  {
    if inside != [] {
      var init, n := inside[..|inside| - 1], |inside| - 1;
      assert toks[i + n] == inside[n];
      ClosingSkips(toks, i, init, depth);
    }
  }

  lemma ClosingIs(inside: seq<Token>, rest: seq<Token>)
    requires Balanced(inside)
    ensures Closing(P("(") + inside + P(")") + rest, 0, 0) == Some(1 + |inside|)
  {
    var toks := P("(") + inside + P(")") + rest;
    assert toks[0] == Punct("(") && toks[1 + |inside|] == Punct(")");
    assert Net(inside, 1) == Some(1);
    ClosingSkips(toks, 1, inside, 1);
    hide Net;
  }

  lemma NotArrow(inside: seq<Token>, rest: seq<Token>)
    requires Balanced(inside) && !At(rest, "=>")
    ensures ArrowParams(P("(") + inside + P(")") + rest).None?
  {
    var toks := P("(") + inside + P(")") + rest;
    ClosingIs(inside, rest);
    hide Closing, Balanced;
    BehindParenthesis(toks, 1 + |inside|);
    assert rest != [] ==> toks[|inside| + 2] == rest[0];
  }

  lemma IsArrow(params: seq<string>, rest: seq<Token>)
    ensures ArrowParams(P("(") + PrintNames(params) + P(")") + (P("=>") + rest)) == Some((params, rest))
  {
    hide *;
    var inside := PrintNames(params);
    var toks := P("(") + inside + P(")") + (P("=>") + rest);
    NamesAreBalanced(params);
    ClosingIs(inside, P("=>") + rest);
    NamesReadBack(params);
    ParenIsAt(inside + P(")") + (P("=>") + rest));
    assert toks == P("(") + (inside + P(")") + (P("=>") + rest));
    BehindParenthesis(toks, 1 + |inside|);
    ArrowSlices(inside, rest);
  }

  lemma ParenIsAt(rest: seq<Token>)
    ensures At(P("(") + rest, "(")
  {
    Peeked(Punct("("), rest);
  }

  lemma ArrowSlices(inside: seq<Token>, rest: seq<Token>)
    ensures var toks := P("(") + inside + P(")") + (P("=>") + rest);
            && |inside| + 2 < |toks| && toks[1..1 + |inside|] == inside
            && toks[|inside| + 2] == Punct("=>") && toks[|inside| + 3..] == rest
  {
  }

  lemma {:induction false} NamesReadBack(names: seq<string>)
    ensures NamesOnly(PrintNames(names)) == Some(names)
  {
    if names != [] {
      var init, last := names[..|names| - 1], names[|names| - 1];
      NamesReadBack(init);
      var printed := PrintNames(init);
      if |names| == 1 {
        assert PrintNames(names)[..0] == [] && names == [] + [last];
      } else {
        var all := printed + (P(",") + [Name(last)]);
        assert all[..|all| - 1] == printed + P(",") && (printed + P(","))[..|printed|] == printed;
        assert names == init + [last];
      }
    }
  }

  // ---------------------------------------------------------------------------------------------
  // First tokens
  // ---------------------------------------------------------------------------------------------

  /** Begins an expression; never closes, separates or continues one. */
  predicate Starts(t: Token) {
    t.Number? || t.Text? || t.Template? || t.Name? || t == Punct("(") || t == Punct("[") || t == Punct("{")
      || IsUnaryOp(t)
  }

  ghost predicate Headed(toks: seq<Token>, tight: bool) {
    toks != [] && Starts(toks[0]) && (tight ==> !IsUnaryOp(toks[0]))
  }

  lemma {:induction false} PrintIsHeaded(e: Node, k: nat)
    requires Printable(e)
    ensures Headed(Print(e, k), k >= 9 || LevelOf(e) >= 9)
    decreases e, 1
  {
    BareIsHeaded(e);
    hide Bare, Printable;
  }

  lemma {:induction false} BareIsHeaded(e: Node)
    requires Printable(e)
    ensures Headed(Bare(e), LevelOf(e) >= 9)
    decreases e, 0
  {
    hide Print, PrintList, PrintFields, PrintNames, PrintBody, PrintSources, IsBanned, LevelOfOp, BodyLevel, IsOp,
         IsAssignOp, AllPrintable, AllStmtsPrintable, AllFit, CostAt, Assignable;
    match e {
      case Member(base, _, _) => PrintIsHeaded(base, 9);
      case Element(base, _, _) => PrintIsHeaded(base, 9);
      case Call(callee, _, _) => PrintIsHeaded(callee, 9);
      case Binary(op, left, _) => PrintIsHeaded(left, LevelOfOp(op));
      case Logical(op, left, _) => PrintIsHeaded(left, LevelOfOp(op));
      case Cond(test, _, _) => PrintIsHeaded(test, 2);
      case Assign(target, _, _) => PrintIsHeaded(target, 1);
      case _ =>
    }
  }

  // ---------------------------------------------------------------------------------------------
  // Last tokens
  // ---------------------------------------------------------------------------------------------

  /** A token at which an expression of level k ends. */
  predicate Stops(t: Token, k: nat) {
    && t != Punct("=>")
    && (k <= 9 ==> t != Punct(".") && t != Punct("?.") && t != Punct("[") && t != Punct("("))
    && (k <= 7 ==> !IsOp(7, t)) && (k <= 6 ==> !IsOp(6, t)) && (k <= 5 ==> !IsOp(5, t))
    && (k <= 4 ==> !IsOp(4, t)) && (k <= 3 ==> !IsOp(3, t)) && (k <= 2 ==> !IsOp(2, t))
    && (k <= 1 ==> t != Punct("?"))
    && (k == 0 ==> !IsAssignOp(t))
  }

  lemma StopsAt(k: nat, t: Token)
    requires 2 <= k <= 7 && Stops(t, k)
    ensures !IsOp(k, t)
  {
  }

  /** What stops a level stops the tighter ones. */
  lemma StopsTighter(t: Token, k: nat, m: nat)
    requires Stops(t, k) && k <= m
    ensures Stops(t, m)
  {
  }

  lemma ClosersStop(t: Token)
    requires t in {Punct(")"), Punct("]"), Punct("}"), Punct(","), Punct(":"), EndOfFile}
    ensures Stops(t, 0)
  {
  }

  /** An operator ends a left operand that is bare at its own level. */
  lemma OperatorStops(op: string, k: nat)
    requires LevelOfOp(op) == k && k >= 2
    ensures Stops(Punct(op), k + 1) && IsOp(k, Punct(op)) && k <= 7
  {
  }

  lemma AssignmentStops(op: string)
    requires IsAssignOp(Punct(op))
    ensures Stops(Punct(op), 1)
  {
  }

  lemma QuestionStops()
    ensures Stops(Punct("?"), 2)
  {
  }

  lemma Peeked(t: Token, rest: seq<Token>)
    ensures Peek([t] + rest) == t && Rest([t] + rest) == rest
  {
    assert ([t] + rest)[1..] == rest;
  }

  lemma HeadPeeked(toks: seq<Token>, rest: seq<Token>)
    requires toks != []
    ensures Peek(toks + rest) == toks[0] && toks + rest != []
  {
  }

  // ---------------------------------------------------------------------------------------------
  // From the inside out
  // ---------------------------------------------------------------------------------------------

  /** Nothing of the levels from k to m follows. */
  lemma {:induction false} UpFrom(k: nat, m: nat, toks: seq<Token>, n: nat, e: Node, rest: seq<Token>, left: nat)
    requires 2 <= k <= m <= 8 && ParseLevel(m, toks, n) == Got(e, rest, left) && Stops(Peek(rest), k)
    ensures ParseLevel(k, toks, n) == Got(e, rest, left)
    decreases m - k
  {
    hide *;
    if k < m {
      StopsTighter(Peek(rest), k, k + 1);
      UpFrom(k + 1, m, toks, n, e, rest, left);
      LevelUnfolds(k, toks, n);
      ChainUnfolds(k, e, rest, left);
      StopsAt(k, Peek(rest));
    }
  }

  lemma TopStops(rest: seq<Token>)
    requires Stops(Peek(rest), 0)
    ensures !IsAssignOp(Peek(rest)) && !At(rest, "?")
  {
  }

  /** Neither a condition nor an assignment follows. */
  lemma UpToAssign(toks: seq<Token>, n: nat, e: Node, rest: seq<Token>, left: nat)
    requires ParseLevel(2, toks, n) == Got(e, rest, left) && Stops(Peek(rest), 0)
    ensures ParseAssign(toks, n) == Got(e, rest, left)
  {
    hide *;
    ConditionalUnfolds(toks, n);
    AssignUnfolds(toks, n);
    TopStops(rest);
  }

  lemma TailStops(e: Node, rest: seq<Token>, n: nat)
    requires Stops(Peek(rest), 9) && n < MAX_NODES
    ensures ParseTail(e, rest, n) == Got(e, rest, n + 1)
  {
    hide ParseTail, ParseArgs, ParseElement, ParseMember;
    TailUnfolds(e, rest, n);
  }

  /** A complete postfix expression that no operator follows. */
  lemma UpFromPostfix(k: nat, toks: seq<Token>, n: nat, e: Node, rest: seq<Token>, left: nat)
    requires 2 <= k <= 8 && !IsUnaryOp(Peek(toks))
    requires ParsePostfix(toks, n) == ParseTail(e, rest, left) && Stops(Peek(rest), k) && left < MAX_NODES
    ensures ParseLevel(k, toks, n) == Got(e, rest, left + 1)
  {
    hide *;
    StopsTighter(Peek(rest), k, 9);
    StopsTighter(Peek(rest), k, 8);
    TailStops(e, rest, left);
    UnaryUnfolds(toks, n);
    UpFrom(k, 8, toks, n, e, rest, left + 1);
  }

  // ---------------------------------------------------------------------------------------------
  // Reading back
  // ---------------------------------------------------------------------------------------------

  /** Parentheses around what reads back as an assignment-level expression. */
  lemma ReadParens(e: Node, inside: seq<Token>, rest: seq<Token>, n: nat, left: nat)
    requires Balanced(inside) && !At(rest, "=>") && n + 2 <= MAX_NODES
    requires ParseAssign(inside + (P(")") + rest), n + 2) == Got(e, P(")") + rest, left)
    ensures ParsePrimary(P("(") + inside + P(")") + rest, n) == Got(e, rest, left)
  {
    var toks := P("(") + inside + P(")") + rest;
    NotArrow(inside, rest);
    assert toks[0] == Punct("(") && toks[1..] == inside + (P(")") + rest);
    Peeked(Punct(")"), rest);
    hide ParseAssign, ArrowParams, Balanced, ParseList, ParseFields, ParseName, ParseArrowBody, ParseTemplate;
  }

  lemma ReadSimple(e: Node, rest: seq<Token>, n: nat)
    requires Printable(e) && !At(rest, "=>") && n < MAX_NODES
    requires e.NumLit? || e.StrLit? || e.BoolLit? || e.NullLit? || e.UndefLit? || e.Ident?
    ensures ParsePrimary(Bare(e) + rest, n) == Got(e, rest, n + 1)
  {
    Peeked(Bare(e)[0], rest);
    assert Bare(e) + rest == [Bare(e)[0]] + rest;
    hide ParseExpression, ParseList, ParseFields, ParseArrowBody, ParseTemplate, ArrowParams, IsBanned, ParseFunction;
  }

  predicate IsOperator(e: Node) {
    e.Binary? || e.Logical?
  }

  lemma OperatorShape(e: Node)
    requires Printable(e) && IsOperator(e)
    ensures var k := LevelOf(e);
            && (e.Binary? || e.Logical?) && 2 <= k <= 7 && LevelOfOp(e.op) == k
            && Combined(k, e.op, e.left, e.right) == e
            && Printable(e.left) && Printable(e.right)
            && Bare(e) == Print(e.left, k) + (P(e.op) + Print(e.right, k + 1))
            && CostBare(e) == CostAt(e.left, k) + CostAt(e.right, k + 1) + 1
  {
    hide IsOp, IsBanned, LevelOfOp, Print, CostAt, P;
    OpLevels(e.op);
  }

  lemma OpLevels(op: string)
    ensures LevelOfOp(op) == 0 || 2 <= LevelOfOp(op) <= 7
  {
    hide IsOp;
  }

  /** An operator expression leaves the chain of its level with itself as left operand. */
  lemma {:induction false} ReadOperator(e: Node, rest: seq<Token>, n: nat)
    requires Printable(e) && IsOperator(e) && Stops(Peek(rest), LevelOf(e) + 1) && n + CostBare(e) <= MAX_NODES
    ensures 2 <= LevelOf(e) <= 7
    ensures ParseLevel(LevelOf(e), Bare(e) + rest, n) == ParseChain(LevelOf(e), e, rest, n + CostBare(e))
    decreases e, 0
  {
    hide *;
    OperatorShape(e);
    var k, op := LevelOf(e), e.op;
    var after := Print(e.right, k + 1) + rest;
    var tail := P(op) + after;
    var n1 := n + CostAt(e.left, k);
    OperatorStops(op, k);
    OpToken(op, after);
    ReadLeft(e.left, k, tail, n);
    ChainUnfolds(k, e.left, tail, n1);
    ReadLevel(e.right, k + 1, rest, n1);
    Reassociated(Print(e.left, k), P(op), Print(e.right, k + 1), rest);
  }

  lemma OpToken(op: string, rest: seq<Token>)
    ensures P(op) + rest != [] && Peek(P(op) + rest) == (P(op) + rest)[0] == Punct(op) && Rest(P(op) + rest) == rest
  {
    Peeked(Punct(op), rest);
  }

  lemma Reassociated(a: seq<Token>, b: seq<Token>, c: seq<Token>, d: seq<Token>)
    ensures a + (b + c) + d == a + (b + (c + d))
  {
  }

  lemma UnaryShape(e: Node)
    requires Printable(e) && e.Unary?
    ensures LevelOf(e) == 8 && Printable(e.arg) && IsUnaryOp(UnaryToken(e.op)) && UnaryToken(e.op).text == e.op
    ensures UnaryToken(e.op).Name? || UnaryToken(e.op).Punct?
    ensures Bare(e) == [UnaryToken(e.op)] + Print(e.arg, 8) && CostBare(e) == CostAt(e.arg, 8) + 1
  {
  }

  lemma {:induction false} ReadUnary(e: Node, rest: seq<Token>, n: nat)
    requires Printable(e) && e.Unary? && Stops(Peek(rest), 8) && n + CostBare(e) <= MAX_NODES
    ensures ParseLevel(8, Bare(e) + rest, n) == Got(e, rest, n + CostBare(e))
    decreases e, 0
  {
    hide *;
    UnaryShape(e);
    var t := UnaryToken(e.op);
    Peeked(t, Print(e.arg, 8) + rest);
    assert [t] + Print(e.arg, 8) + rest == [t] + (Print(e.arg, 8) + rest);
    UnaryUnfolds(Bare(e) + rest, n);
    ReadLevel(e.arg, 8, rest, n);
  }

  /** An expression where a member, an element or a call may follow. */
  lemma {:induction false} ReadBase(e: Node, rest: seq<Token>, n: nat)
    requires Printable(e) && !At(rest, "=>") && n + CostBase(e) <= MAX_NODES
    ensures ParsePostfix(Print(e, 9) + rest, n) == ParseTail(e, rest, n + CostBase(e))
    decreases e, 4
  {
    hide *;
    BaseShape(e);
    PostfixUnfolds(Print(e, 9) + rest, n);
    if LevelOf(e) < 9 {
      BareIsBalanced(e);
      CloserFollows(rest);
      ReadAssign(e, P(")") + rest, n + 2);
      ReadParens(e, Bare(e), rest, n, n + CostBase(e));
    } else if LevelOf(e) == 9 {
      ReadTail(e, rest, n);
    } else {
      ReadLiteral(e, rest, n);
    }
  }

  lemma CloserFollows(rest: seq<Token>)
    ensures Stops(Peek(P(")") + rest), 0)
  {
    Peeked(Punct(")"), rest);
    ClosersStop(Punct(")"));
  }

  lemma BaseShape(e: Node)
    ensures LevelOf(e) <= 10
    ensures LevelOf(e) < 9 ==> Print(e, 9) == P("(") + Bare(e) + P(")") && CostBase(e) == CostBare(e) + 2
    ensures LevelOf(e) >= 9 ==> Print(e, 9) == Bare(e) && CostBase(e) + 1 == CostBare(e)
  {
    hide Bare, CostBare;
  }

  /** An expression where level k is expected. */
  lemma {:induction false} ReadLevel(e: Node, k: nat, rest: seq<Token>, n: nat)
    requires Printable(e) && 2 <= k <= 8 && Stops(Peek(rest), k) && n + CostAt(e, k) <= MAX_NODES
    ensures ParseLevel(k, Print(e, k) + rest, n) == Got(e, rest, n + CostAt(e, k))
    decreases e, 5
  {
    hide *;
    LevelShape(e, k);
    if LevelOf(e) < k {
      ReadWrapped(e, k, rest, n);
    } else {
      ReadBare(e, k, rest, n);
    }
  }

  lemma LevelShape(e: Node, k: nat)
    ensures LevelOf(e) < k ==> Print(e, k) == P("(") + Bare(e) + P(")") && CostAt(e, k) == CostBare(e) + 3
    ensures LevelOf(e) >= k ==> Print(e, k) == Bare(e) && CostAt(e, k) == CostBare(e)
  {
    hide Bare, CostBare;
  }

  /** An expression in parentheses, as an operand or on its own. */
  lemma {:induction false} ReadWrapped(e: Node, k: nat, rest: seq<Token>, n: nat)
    requires Printable(e) && 2 <= k <= 8 && Stops(Peek(rest), k) && n + CostBare(e) + 3 <= MAX_NODES
    ensures ParseLevel(k, P("(") + Bare(e) + P(")") + rest, n) == Got(e, rest, n + CostBare(e) + 3)
    decreases e, 4
  {
    hide *;
    var toks := P("(") + Bare(e) + P(")") + rest;
    StopsArrow(rest, k);
    BareIsBalanced(e);
    CloserFollows(rest);
    ReadAssign(e, P(")") + rest, n + 2);
    ReadParens(e, Bare(e), rest, n, n + 2 + CostBare(e));
    PostfixUnfolds(toks, n);
    assert toks == P("(") + (Bare(e) + P(")") + rest);
    ParenIsNoOperator(Bare(e) + P(")") + rest);
    UpFromPostfix(k, toks, n, e, rest, n + CostBare(e) + 2);
  }

  lemma StopsArrow(rest: seq<Token>, k: nat)
    requires Stops(Peek(rest), k)
    ensures !At(rest, "=>")
  {
  }

  lemma ParenIsNoOperator(rest: seq<Token>)
    ensures !IsUnaryOp(Peek(P("(") + rest))
  {
    Peeked(Punct("("), rest);
  }

  /** A left operand of level k, after which the chain goes on. */
  lemma {:induction false} ReadLeft(e: Node, k: nat, rest: seq<Token>, n: nat)
    requires Printable(e) && 2 <= k <= 7 && Stops(Peek(rest), k + 1) && n + CostAt(e, k) <= MAX_NODES
    ensures ParseLevel(k, Print(e, k) + rest, n) == ParseChain(k, e, rest, n + CostAt(e, k))
    decreases e, 6
  {
    hide *;
    LevelShape(e, k);
    LevelShape(e, k + 1);
    if LevelOf(e) == k {
      OnlyOperators(e);
      ReadOperator(e, rest, n);
    } else {
      ReadLevel(e, k + 1, rest, n);
      LevelUnfolds(k, Print(e, k) + rest, n);
    }
  }

  lemma OnlyOperators(e: Node)
    requires Printable(e)
    ensures 2 <= LevelOf(e) <= 7 ==> IsOperator(e)
    ensures LevelOf(e) == 8 ==> e.Unary?
    ensures LevelOf(e) == 0 ==> e.Assign? || e.ArrowLit?
    ensures LevelOf(e) == 1 ==> e.Cond?
  {
  }

  /** An expression that is bare at level k. */
  lemma {:induction false} ReadBare(e: Node, k: nat, rest: seq<Token>, n: nat)
    requires Printable(e) && 2 <= k <= 8 && k <= LevelOf(e) && Stops(Peek(rest), k) && n + CostBare(e) <= MAX_NODES
    ensures ParseLevel(k, Bare(e) + rest, n) == Got(e, rest, n + CostBare(e))
    decreases e, 2
  {
    hide *;
    OnlyOperators(e);
    BaseShape(e);
    var toks, m := Bare(e) + rest, LevelOf(e);
    if m >= 9 {
      StopsArrow(rest, k);
      BareIsHeaded(e);
      TightHead(Bare(e), rest);
      if m == 9 {
        ReadTail(e, rest, n);
      } else {
        ReadLiteral(e, rest, n);
        PostfixUnfolds(toks, n);
      }
      UpFromPostfix(k, toks, n, e, rest, n + CostBare(e) - 1);
    } else if m == 8 {
      StopsTighter(Peek(rest), k, 8);
      ReadUnary(e, rest, n);
      UpFrom(k, 8, toks, n, e, rest, n + CostBare(e));
    } else {
      StopsTighter(Peek(rest), k, m + 1);
      StopsTighter(Peek(rest), k, m);
      ReadOperator(e, rest, n);
      ChainUnfolds(m, e, rest, n + CostBare(e));
      StopsAt(m, Peek(rest));
      UpFrom(k, m, toks, n, e, rest, n + CostBare(e));
    }
  }

  lemma TightHead(toks: seq<Token>, rest: seq<Token>)
    requires Headed(toks, true)
    ensures !IsUnaryOp(Peek(toks + rest))
  {
    HeadPeeked(toks, rest);
  }

  /** Members, elements and calls: the loop goes on with the bigger expression. */
  lemma {:induction false} ReadTail(e: Node, rest: seq<Token>, n: nat)
    requires Printable(e) && LevelOf(e) == 9 && !At(rest, "=>") && n + CostBare(e) <= MAX_NODES + 1
    ensures ParsePostfix(Bare(e) + rest, n) == ParseTail(e, rest, n + CostBare(e) - 1)
    decreases e, 1
  {
    hide *;
    TailShape(e);
    if e.Member? {
      ReadMember(e, rest, n);
    } else if e.Element? {
      ReadElement(e, rest, n);
    } else {
      ReadCall(e, rest, n);
    }
  }

  lemma {:induction false} ReadMember(e: Node, rest: seq<Token>, n: nat)
    requires Printable(e) && e.Member? && n + CostBare(e) <= MAX_NODES + 1
    ensures ParsePostfix(Bare(e) + rest, n) == ParseTail(e, rest, n + CostBare(e) - 1)
    decreases e, 0
  {
    hide *;
    TailShape(e);
    var after := [Name(e.name)] + rest;
    var mark := if e.optional then "?." else ".";
    MemberFollows(e, rest, n + CostBase(e.base));
    MarkIsNoArrow(mark, after);
    ReadBase(e.base, P(mark) + after, n);
    assert Print(e.base, 9) + P(mark) + [Name(e.name)] + rest == Print(e.base, 9) + (P(mark) + after);
  }

  lemma {:induction false} ReadElement(e: Node, rest: seq<Token>, n: nat)
    requires Printable(e) && e.Element? && n + CostBare(e) <= MAX_NODES + 1
    ensures ParsePostfix(Bare(e) + rest, n) == ParseTail(e, rest, n + CostBare(e) - 1)
    decreases e, 0
  {
    hide *;
    TailShape(e);
    var mark := if e.optional then P("?.") else [];
    LevelShape(e.prop, 0);
    BracketFollows(e.prop, rest);
    ReadAssign(e.prop, P("]") + rest, n + CostBase(e.base) + 2);
    ElementFollows(e, rest, n + CostBase(e.base));
    NoArrowFollows(e.optional, "[", Print(e.prop, 0) + P("]") + rest);
    Grouped("[", Print(e.prop, 0), "]", rest, Print(e.base, 9), mark);
    ReadBase(e.base, mark + (P("[") + Print(e.prop, 0) + P("]") + rest), n);
  }

  lemma {:induction false} ReadCall(e: Node, rest: seq<Token>, n: nat)
    requires Printable(e) && e.Call? && n + CostBare(e) <= MAX_NODES + 1
    ensures ParsePostfix(Bare(e) + rest, n) == ParseTail(e, rest, n + CostBare(e) - 1)
    decreases e, 0
  {
    hide *;
    TailShape(e);
    var mark := if e.optional then P("?.") else [];
    ReadList(")", e.args, [], rest, n + CostBase(e.callee) + 1);
    assert [] + e.args == e.args;
    CallFollows(e, rest, n + CostBase(e.callee));
    NoArrowFollows(e.optional, "(", PrintList(e.args) + P(")") + rest);
    Grouped("(", PrintList(e.args), ")", rest, Print(e.callee, 9), mark);
    ReadBase(e.callee, mark + (P("(") + PrintList(e.args) + P(")") + rest), n);
  }

  lemma Grouped(open: string, inside: seq<Token>, close: string, rest: seq<Token>, base: seq<Token>, mark: seq<Token>)
    ensures P(open) + inside + P(close) + rest == P(open) + (inside + P(close) + rest)
    ensures base + mark + (P(open) + inside + P(close)) + rest == base + (mark + (P(open) + inside + P(close) + rest))
  {
  }

  lemma TailShape(e: Node)
    requires Printable(e) && (LevelOf(e) == 9 || e.Member? || e.Element? || e.Call?)
    ensures e.Member? || e.Element? || e.Call?
    ensures e.Member? ==>
              && Printable(e.base) && CostBare(e) == CostBase(e.base) + 2
              && Bare(e) == Print(e.base, 9) + P(if e.optional then "?." else ".") + [Name(e.name)]
    ensures e.Element? ==>
              && Printable(e.base) && Printable(e.prop) && CostBare(e) == CostBase(e.base) + 3 + CostAt(e.prop, 0)
              && Bare(e) == Print(e.base, 9) + (if e.optional then P("?.") else [])
                            + (P("[") + Print(e.prop, 0) + P("]"))
    ensures e.Call? ==>
              && Printable(e.callee) && AllPrintable(e.args) && CostBare(e) == CostBase(e.callee) + 2 + CostList(e.args)
              && Bare(e) == Print(e.callee, 9) + (if e.optional then P("?.") else [])
                            + (P("(") + PrintList(e.args) + P(")"))
  {
  }

  lemma MarkIsNoArrow(mark: string, rest: seq<Token>)
    requires mark != "=>"
    ensures !At(P(mark) + rest, "=>")
  {
    Peeked(Punct(mark), rest);
  }

  lemma NoArrowFollows(optional: bool, open: string, inner: seq<Token>)
    requires open != "=>"
    ensures !At((if optional then P("?.") else []) + (P(open) + inner), "=>")
  {
    Peeked(Punct("?."), P(open) + inner);
    Peeked(Punct(open), inner);
    assert [] + (P(open) + inner) == P(open) + inner;
  }

  lemma BracketFollows(prop: Node, rest: seq<Token>)
    ensures Stops(Peek(P("]") + rest), 0)
  {
    Peeked(Punct("]"), rest);
    ClosersStop(Punct("]"));
  }

  lemma MemberFollows(e: Node, rest: seq<Token>, n: nat)
    requires e.Member? && n < MAX_NODES
    ensures ParseTail(e.base, P(if e.optional then "?." else ".") + ([Name(e.name)] + rest), n) ==
            ParseTail(e, rest, n + 1)
  {
    var mark := if e.optional then "?." else ".";
    var toks := P(mark) + ([Name(e.name)] + rest);
    Peeked(Punct(mark), [Name(e.name)] + rest);
    Peeked(Name(e.name), rest);
    TailUnfolds(e.base, toks, n);
    hide ParseTail, ParseArgs, ParseElement;
  }

  lemma ElementFollows(e: Node, rest: seq<Token>, n: nat)
    requires e.Element? && n + 2 + CostBare(e.prop) <= MAX_NODES
    requires ParseAssign(Print(e.prop, 0) + (P("]") + rest), n + 2) ==
             Got(e.prop, P("]") + rest, n + 2 + CostBare(e.prop))
    ensures ParseTail(e.base, (if e.optional then P("?.") else []) + (P("[") + Print(e.prop, 0) + P("]") + rest), n)
            == ParseTail(e, rest, n + 2 + CostBare(e.prop))
  {
    hide *;
    var inside := Print(e.prop, 0) + (P("]") + rest);
    assert P("[") + Print(e.prop, 0) + P("]") + rest == P("[") + inside;
    TailAtElement(e.base, e.optional, inside, n);
    BracketIsRead(e.base, e.prop, e.optional, inside, rest, n + 1, n + 2 + CostBare(e.prop));
  }

  lemma TailAtElement(e: Node, optional: bool, inside: seq<Token>, n: nat)
    requires n < MAX_NODES
    ensures ParseTail(e, (if optional then P("?.") else []) + (P("[") + inside), n) ==
            ParseElement(e, optional, inside, n + 1)
  {
    hide ParseTail, ParseElement, ParseMember, ParseArgs, Size;
    var inner := P("[") + inside;
    Peeked(Punct("["), inside);
    Peeked(Punct("?."), inner);
    assert [] + inner == inner;
    TailUnfolds(e, (if optional then P("?.") else []) + inner, n);
  }

  lemma BracketIsRead(base: Node, prop: Node, optional: bool, inside: seq<Token>, rest: seq<Token>, n: nat, left: nat)
    requires n < MAX_NODES && ParseAssign(inside, n + 1) == Got(prop, P("]") + rest, left)
    ensures ParseElement(base, optional, inside, n) == ParseTail(Element(base, prop, optional), rest, left)
  {
    hide ParseTail, ParseAssign, Size;
    Peeked(Punct("]"), rest);
  }

  lemma CallFollows(e: Node, rest: seq<Token>, n: nat)
    requires e.Call? && n + 1 + CostList(e.args) <= MAX_NODES
    requires ParseList(")", PrintList(e.args) + (P(")") + rest), n + 1, []) ==
             Got(e.args, rest, n + 1 + CostList(e.args))
    ensures ParseTail(e.callee, (if e.optional then P("?.") else []) + (P("(") + PrintList(e.args) + P(")") + rest), n)
            == ParseTail(e, rest, n + 1 + CostList(e.args))
  {
    hide *;
    var inside := PrintList(e.args) + (P(")") + rest);
    assert P("(") + PrintList(e.args) + P(")") + rest == P("(") + inside;
    TailAtCall(e.callee, e.optional, inside, n);
  }

  lemma TailAtCall(e: Node, optional: bool, inside: seq<Token>, n: nat)
    requires n < MAX_NODES
    ensures ParseTail(e, (if optional then P("?.") else []) + (P("(") + inside), n) ==
            match ParseList(")", inside, n + 1, []) {
              case Fail => Fail
              case Got(args, t1, n1) => ParseTail(Call(e, args, optional), t1, n1)
            }
  {
    hide ParseTail, ParseElement, ParseMember, ParseList, Size;
    var inner := P("(") + inside;
    Peeked(Punct("("), inside);
    Peeked(Punct("?."), inner);
    assert [] + inner == inner;
    TailUnfolds(e, (if optional then P("?.") else []) + inner, n);
  }

  lemma ListShape(items: seq<Node>)
    requires items != [] && AllPrintable(items)
    ensures Printable(items[0]) && AllPrintable(items[1..])
            && CostList(items) == CostAt(items[0], 0) + CostList(items[1..])
    ensures |items| == 1 ==> PrintList(items) == Print(items[0], 0) && CostList(items[1..]) == 0
    ensures |items| > 1 ==> PrintList(items) == Print(items[0], 0) + (P(",") + PrintList(items[1..]))
    ensures CostAt(items[0], 0) == CostBare(items[0]) && Print(items[0], 0) == Bare(items[0])
  {
  }

  lemma EmptyList()
    ensures PrintList([]) == [] && CostList([]) == 0
  {
  }

  lemma LastItem(close: string, printed: seq<Token>, item: Node, before: seq<Node>, rest: seq<Token>, n: nat, left: nat)
    requires (close == ")" || close == "]") && Headed(printed, false)
    requires ParseAssign(printed + (P(close) + rest), n) == Got(item, P(close) + rest, left)
    ensures ParseList(close, printed + (P(close) + rest), n, before) == Got(before + [item], rest, left)
  {
    hide *;
    ListUnfolds(close, printed + (P(close) + rest), n, before);
    HeadIsNoCloser(printed, P(close) + rest, close);
    OpToken(close, rest);
    CloserIsAt(close, rest);
  }

  lemma NextItem(close: string, printed: seq<Token>, item: Node, before: seq<Node>, tail: seq<Token>, n: nat, left: nat)
    requires (close == ")" || close == "]") && Headed(printed, false)
    requires ParseAssign(printed + (P(",") + tail), n) == Got(item, P(",") + tail, left)
    ensures ParseList(close, printed + (P(",") + tail), n, before) == ParseList(close, tail, left, before + [item])
  {
    hide *;
    ListUnfolds(close, printed + (P(",") + tail), n, before);
    HeadIsNoCloser(printed, P(",") + tail, close);
    CommaFollows(tail);
  }

  lemma NoItem(close: string, before: seq<Node>, rest: seq<Token>, n: nat)
    requires close == ")" || close == "]"
    ensures ParseList(close, P(close) + rest, n, before) == Got(before, rest, n)
  {
    hide *;
    ListUnfolds(close, P(close) + rest, n, before);
    OpToken(close, rest);
    CloserIsAt(close, rest);
  }

  lemma ItemIsHeaded(e: Node)
    requires Printable(e)
    ensures Headed(Bare(e), false)
  {
    BareIsHeaded(e);
    hide Bare, Printable;
  }

  /** Expressions between commas, up to the closing token. */
  lemma {:induction false} ReadList(close: string, items: seq<Node>, before: seq<Node>, rest: seq<Token>, n: nat)
    requires AllPrintable(items) && (close == ")" || close == "]") && n + CostList(items) <= MAX_NODES
    ensures ParseList(close, PrintList(items) + (P(close) + rest), n, before) ==
            Got(before + items, rest, n + CostList(items))
    decreases items
  {
    hide *;
    EmptyList();
    if items == [] {
      assert [] + (P(close) + rest) == P(close) + rest && before + [] == before;
      NoItem(close, before, rest, n);
    } else {
      var item := items[0];
      ListShape(items);
      ItemIsHeaded(item);
      var left := n + CostBare(item);
      if |items| == 1 {
        CloserIsAt(close, rest);
        ReadAssign(item, P(close) + rest, n);
        LastItem(close, Bare(item), item, before, rest, n, left);
        assert items == [item];
      } else {
        var tail := PrintList(items[1..]) + (P(close) + rest);
        CommaFollows(tail);
        ReadAssign(item, P(",") + tail, n);
        NextItem(close, Bare(item), item, before, tail, n, left);
        ReadList(close, items[1..], before + [item], rest, left);
        Reassociated(Bare(item), P(","), PrintList(items[1..]), P(close) + rest);
        assert before + [item] + items[1..] == before + items;
      }
    }
  }

  lemma CloserIsAt(close: string, rest: seq<Token>)
    requires close == ")" || close == "]"
    ensures At(P(close) + rest, close) && !At(P(close) + rest, ",") && Stops(Peek(P(close) + rest), 0)
  {
    Peeked(Punct(close), rest);
    ClosersStop(Punct(close));
  }

  lemma CommaFollows(rest: seq<Token>)
    ensures At(P(",") + rest, ",") && Rest(P(",") + rest) == rest && Stops(Peek(P(",") + rest), 0)
  {
    Peeked(Punct(","), rest);
    ClosersStop(Punct(","));
  }

  lemma HeadIsNoCloser(toks: seq<Token>, rest: seq<Token>, close: string)
    requires Headed(toks, false) || Headed(toks, true)
    requires close == ")" || close == "]" || close == "}"
    ensures !At(toks + rest, close)
  {
    HeadPeeked(toks, rest);
  }

  // ---------------------------------------------------------------------------------------------
  // Objects, arrays and templates
  // ---------------------------------------------------------------------------------------------

  lemma LastField(printed: seq<Token>, key: string, value: Node, keys: seq<string>, values: seq<Node>, rest: seq<Token>,
      n: nat, left: nat)
    requires ParseAssign(printed + (P("}") + rest), n) == Got(value, P("}") + rest, left)
    ensures ParseFields([Text(key)] + (P(":") + (printed + (P("}") + rest))), n, keys, values)
            == Got(ObjLit(keys + [key], values + [value]), rest, left)
  {
    FieldHead(key, printed + (P("}") + rest));
    Peeked(Punct("}"), rest);
    FieldsUnfold([Text(key)] + (P(":") + (printed + (P("}") + rest))), n, keys, values);
    hide ParseFields, ParseAssign, Size;
  }

  lemma NextField(printed: seq<Token>, key: string, value: Node, keys: seq<string>, values: seq<Node>, tail: seq<Token>,
      n: nat, left: nat)
    requires ParseAssign(printed + (P(",") + tail), n) == Got(value, P(",") + tail, left)
    ensures ParseFields([Text(key)] + (P(":") + (printed + (P(",") + tail))), n, keys, values)
            == ParseFields(tail, left, keys + [key], values + [value])
  {
    FieldHead(key, printed + (P(",") + tail));
    Peeked(Punct(","), tail);
    FieldsUnfold([Text(key)] + (P(":") + (printed + (P(",") + tail))), n, keys, values);
    hide ParseFields, ParseAssign, Size;
  }

  lemma FieldHead(key: string, value: seq<Token>)
    ensures var toks := [Text(key)] + (P(":") + value);
            && toks != [] && toks[0] == Text(key) == Peek(toks) && Rest(toks) == P(":") + value
            && At(Rest(toks), ":") && Rest(Rest(toks)) == value
  {
    Peeked(Text(key), P(":") + value);
    Peeked(Punct(":"), value);
  }

  lemma FieldsShape(keys: seq<string>, values: seq<Node>)
    requires values != [] && |keys| == |values| && AllPrintable(values)
    ensures Printable(values[0]) && AllPrintable(values[1..])
            && CostList(values) == CostBare(values[0]) + CostList(values[1..])
    ensures |values| == 1 ==>
              PrintFields(keys, values) == [Text(keys[0])] + (P(":") + Bare(values[0])) && CostList(values[1..]) == 0
    ensures |values| > 1 ==>
              PrintFields(keys, values) == [Text(keys[0])] + (P(":") + Bare(values[0]))
                + (P(",") + PrintFields(keys[1..], values[1..]))
  {
  }

  lemma NoField(keys: seq<string>, values: seq<Node>, rest: seq<Token>, n: nat)
    ensures ParseFields(P("}") + rest, n, keys, values) == Got(ObjLit(keys, values), rest, n)
    ensures PrintFields([], []) == [] && CostList([]) == 0
  {
    Peeked(Punct("}"), rest);
    FieldsUnfold(P("}") + rest, n, keys, values);
    hide ParseFields, ParseAssign, Size;
  }

  /** The fields of an object after those read so far. */
  lemma {:induction false} ReadFields(
      keys: seq<string>, values: seq<Node>, keysBefore: seq<string>, before: seq<Node>, rest: seq<Token>, n: nat)
    requires |keys| == |values| && AllPrintable(values) && n + CostList(values) <= MAX_NODES
    ensures ParseFields(PrintFields(keys, values) + (P("}") + rest), n, keysBefore, before)
            == Got(ObjLit(keysBefore + keys, before + values), rest, n + CostList(values))
    decreases values
  {
    hide *;
    NoField(keysBefore, before, rest, n);
    if values == [] {
      assert keys == [] && [] + (P("}") + rest) == P("}") + rest && before + [] == before
             && keysBefore + [] == keysBefore;
    } else {
      var key, value := keys[0], values[0];
      FieldsShape(keys, values);
      var left := n + CostBare(value);
      if |values| == 1 {
        BraceCloses(rest);
        ReadAssign(value, P("}") + rest, n);
        LastField(Bare(value), key, value, keysBefore, before, rest, n, left);
        assert values == [value] && keys == [key];
        assert [Text(key)] + (P(":") + Bare(value)) + (P("}") + rest) ==
               [Text(key)] + (P(":") + (Bare(value) + (P("}") + rest)));
      } else {
        var more := PrintFields(keys[1..], values[1..]);
        var tail := more + (P("}") + rest);
        CommaFollows(tail);
        ReadAssign(value, P(",") + tail, n);
        NextField(Bare(value), key, value, keysBefore, before, tail, n, left);
        ReadFields(keys[1..], values[1..], keysBefore + [key], before + [value], rest, left);
        assert before + [value] + values[1..] == before + values && keysBefore + [key] + keys[1..] == keysBefore + keys;
        FieldReassociated(key, Bare(value), more, P("}") + rest);
      }
    }
  }

  lemma FieldReassociated(key: string, value: seq<Token>, more: seq<Token>, rest: seq<Token>)
    ensures [Text(key)] + (P(":") + value) + (P(",") + more) + rest ==
            [Text(key)] + (P(":") + (value + (P(",") + (more + rest))))
  {
  }

  lemma BraceCloses(rest: seq<Token>)
    ensures Stops(Peek(P("}") + rest), 0)
  {
    Peeked(Punct("}"), rest);
    ClosersStop(Punct("}"));
  }

  /** Every expression of a template is a script of its own. */
  lemma {:induction false} ReadSources(exprs: seq<Node>)
    requires AllPrintable(exprs) && AllFit(exprs)
    ensures ParseTemplate(PrintSources(exprs)) == Some(exprs)
    decreases exprs
  {
    SourcesShape(exprs);
    hide *;
    if exprs != [] {
      ReadScript(exprs[0]);
      ReadSources(exprs[1..]);
      OneMoreSource(exprs);
    }
  }

  lemma SourcesShape(exprs: seq<Node>)
    requires AllPrintable(exprs) && AllFit(exprs)
    ensures exprs == [] ==> ParseTemplate(PrintSources(exprs)) == Some(exprs)
    ensures exprs != [] ==>
              && Printable(exprs[0]) && AllPrintable(exprs[1..]) && AllFit(exprs[1..])
              && 1 + CostBare(exprs[0]) <= MAX_NODES
  {
  }

  lemma OneMoreSource(exprs: seq<Node>)
    requires exprs != [] && ParseProgram(Bare(exprs[0])) == Some(exprs[0])
    requires ParseTemplate(PrintSources(exprs[1..])) == Some(exprs[1..])
    ensures ParseTemplate(PrintSources(exprs)) == Some(exprs)
  {
    hide *;
    SourcesSplit(exprs);
    TemplateStep(Bare(exprs[0]), PrintSources(exprs[1..]), exprs[0], exprs[1..]);
    assert exprs == [exprs[0]] + exprs[1..];
  }

  lemma SourcesSplit(exprs: seq<Node>)
    requires exprs != []
    ensures PrintSources(exprs) == [Source(Bare(exprs[0]))] + PrintSources(exprs[1..])
  {
    hide Bare;
    LevelShape(exprs[0], 0);
  }

  lemma TemplateStep(toks: seq<Token>, more: seq<Source>, e: Node, es: seq<Node>)
    requires ParseProgram(toks) == Some(e) && ParseTemplate(more) == Some(es)
    ensures ParseTemplate([Source(toks)] + more) == Some([e] + es)
  {
    hide ParseProgram, Size, ExprsSize, ParseTemplate;
    var sources := [Source(toks)] + more;
    assert sources[0..] == sources && sources[1..] == more;
    TemplateUnfolds(sources, sources, 0);
  }

  /** A printed expression is a script that parses to it, with or without a semicolon behind it. */
  lemma {:induction false} ReadScript(e: Node)
    requires Printable(e) && 1 + CostBare(e) <= MAX_NODES
    ensures ParseProgram(Bare(e)) == Some(e) && ParseProgram(Bare(e) + P(";")) == Some(e)
    decreases e, 4
  {
    hide *;
    EndStops();
    ReadAssign(e, [], 1);
    ReadAssign(e, P(";"), 1);
    assert Bare(e) + [] == Bare(e);
    ScriptEnds(e, Bare(e), [], 1 + CostBare(e));
    ScriptEnds(e, Bare(e) + P(";"), P(";"), 1 + CostBare(e));
  }

  lemma EndStops()
    ensures Stops(Peek([]), 0) && Stops(Peek(P(";")), 0)
  {
  }

  lemma ScriptEnds(e: Node, toks: seq<Token>, rest: seq<Token>, left: nat)
    requires ParseAssign(toks, 1) == Got(e, rest, left) && (rest == [] || rest == P(";"))
    ensures ParseProgram(toks) == Some(e)
  {
    hide ParseAssign, Size;
  }

  lemma LiteralShape(e: Node)
    requires Printable(e) && LevelOf(e) == 10
    ensures e.ArrLit? ==>
              && Bare(e) == P("[") + PrintList(e.items) + P("]") && AllPrintable(e.items)
              && CostBare(e) == 2 + CostList(e.items)
    ensures e.ObjLit? ==>
              && Bare(e) == P("{") + PrintFields(e.keys, e.values) + P("}") && |e.keys| == |e.values|
              && AllPrintable(e.values) && CostBare(e) == 2 + CostList(e.values)
    ensures e.TmplLit? ==>
              && Bare(e) == [Template(e.chunks, PrintSources(e.exprs))] && AllPrintable(e.exprs) && AllFit(e.exprs)
              && CostBare(e) == 2
    ensures e.FnLit? ==>
              && Bare(e) == [Name("function")]
                            + ((P("(") + PrintNames(e.params) + P(")")) + (P("{") + PrintBody(e.body) + P("}")))
              && AllStmtsPrintable(e.body) && CostBare(e) == 2 + CostBody(e.body)
    ensures !e.ArrLit? && !e.ObjLit? && !e.TmplLit? && !e.FnLit? ==>
              CostBare(e) == 2 && (e.NumLit? || e.StrLit? || e.BoolLit? || e.NullLit? || e.UndefLit? || e.Ident?)
  {
  }

  /** Literals, variables, arrays, objects, templates and functions. */
  lemma {:induction false} ReadLiteral(e: Node, rest: seq<Token>, n: nat)
    requires Printable(e) && LevelOf(e) == 10 && !At(rest, "=>") && n + CostBare(e) <= MAX_NODES + 1
    ensures ParsePrimary(Bare(e) + rest, n) == Got(e, rest, n + CostBare(e) - 1)
    decreases e, 1
  {
    hide *;
    LiteralShape(e);
    if e.ArrLit? {
      ReadList("]", e.items, [], rest, n + 1);
      assert [] + e.items == e.items;
      ArrayIsRead(PrintList(e.items), e.items, rest, n, n + 1 + CostList(e.items));
    } else if e.ObjLit? {
      ReadFields(e.keys, e.values, [], [], rest, n + 1);
      assert [] + e.values == e.values && [] + e.keys == e.keys;
      ObjectIsRead(PrintFields(e.keys, e.values), e, rest, n, n + 1 + CostList(e.values));
    } else if e.TmplLit? {
      ReadSources(e.exprs);
      TemplateIsRead(e, rest, n);
    } else if e.FnLit? {
      ReadFunction(e, rest, n);
    } else {
      ReadSimple(e, rest, n);
    }
  }

  lemma ArrayIsRead(printed: seq<Token>, items: seq<Node>, rest: seq<Token>, n: nat, left: nat)
    requires n < MAX_NODES && ParseList("]", printed + (P("]") + rest), n + 1, []) == Got(items, rest, left)
    ensures ParsePrimary(P("[") + printed + P("]") + rest, n) == Got(ArrLit(items), rest, left)
  {
    hide *;
    assert P("[") + printed + P("]") + rest == P("[") + (printed + (P("]") + rest));
    BracketOpens(printed + (P("]") + rest), n);
  }

  lemma BracketOpens(inside: seq<Token>, n: nat)
    requires n < MAX_NODES
    ensures ParsePrimary(P("[") + inside, n) ==
            match ParseList("]", inside, n + 1, [])
            { case Fail => Fail case Got(items, t, m) => Got(ArrLit(items), t, m) }
  {
    hide ParseList, ParseExpression, ParseFields, ParseName, ParseArrowBody, ParseTemplate, ArrowParams, Size,
         TokenSize;
    Peeked(Punct("["), inside);
  }

  lemma ObjectIsRead(printed: seq<Token>, e: Node, rest: seq<Token>, n: nat, left: nat)
    requires n < MAX_NODES && ParseFields(printed + (P("}") + rest), n + 1, [], []) == Got(e, rest, left)
    ensures ParsePrimary(P("{") + printed + P("}") + rest, n) == Got(e, rest, left)
  {
    hide *;
    assert P("{") + printed + P("}") + rest == P("{") + (printed + (P("}") + rest));
    BraceOpens(printed + (P("}") + rest), n);
  }

  lemma BraceOpens(inside: seq<Token>, n: nat)
    requires n < MAX_NODES
    ensures ParsePrimary(P("{") + inside, n) == ParseFields(inside, n + 1, [], [])
  {
    hide ParseList, ParseExpression, ParseFields, ParseName, ParseArrowBody, ParseTemplate, ArrowParams, Size,
         TokenSize;
    Peeked(Punct("{"), inside);
  }

  lemma TemplateIsRead(e: Node, rest: seq<Token>, n: nat)
    requires e.TmplLit? && n < MAX_NODES && ParseTemplate(PrintSources(e.exprs)) == Some(e.exprs)
    ensures ParsePrimary([Template(e.chunks, PrintSources(e.exprs))] + rest, n) == Got(e, rest, n + 1)
  {
    hide ParseList, ParseExpression, ParseFields, ParseName, ParseArrowBody, ParseTemplate, ArrowParams, Size,
         TokenSize, PrintSources;
    Peeked(Template(e.chunks, PrintSources(e.exprs)), rest);
  }

  // ---------------------------------------------------------------------------------------------
  // Functions and statements
  // ---------------------------------------------------------------------------------------------

  lemma {:induction false} ReadFunction(e: Node, rest: seq<Token>, n: nat)
    requires Printable(e) && e.FnLit? && n + CostBare(e) <= MAX_NODES + 1
    ensures ParsePrimary(Bare(e) + rest, n) == Got(e, rest, n + CostBare(e) - 1)
    decreases e, 0
  {
    hide *;
    FunctionLevel(e);
    LiteralShape(e);
    var block := PrintBody(e.body) + (P("}") + rest);
    ReadParams(e.params, [], P("{") + block, n + 1);
    assert [] + e.params == e.params && [] + e.body == e.body;
    ReadBody(e.body, [], rest, n + 1);
    FunctionOpens(P("(") + (PrintNames(e.params) + (P(")") + (P("{") + block))), n);
    FunctionIsRead(e, PrintNames(e.params) + (P(")") + (P("{") + block)), block, rest, n + 1, n + 1 + CostBody(e.body));
    FunctionReassociated(PrintNames(e.params), PrintBody(e.body), rest);
  }

  lemma FunctionLevel(e: Node)
    requires e.FnLit?
    ensures LevelOf(e) == 10
  {
  }

  lemma FunctionReassociated(names: seq<Token>, body: seq<Token>, rest: seq<Token>)
    ensures [Name("function")] + ((P("(") + names + P(")")) + (P("{") + body + P("}"))) + rest ==
            [Name("function")] + (P("(") + (names + (P(")") + (P("{") + (body + (P("}") + rest))))))
  {
  }

  lemma FunctionOpens(inner: seq<Token>, n: nat)
    requires n < MAX_NODES
    ensures ParsePrimary([Name("function")] + inner, n) == ParseFunction(inner, n + 1)
  {
    hide ParseList, ParseExpression, ParseFields, ParseFunction, ParseArrowBody, ParseTemplate, ArrowParams, Size,
         TokenSize, IsBanned;
    Peeked(Name("function"), inner);
  }

  lemma FunctionIsRead(e: Node, names: seq<Token>, block: seq<Token>, rest: seq<Token>, n: nat, left: nat)
    requires e.FnLit? && ParseParams(names, n, []) == Got(e.params, P("{") + block, n)
    requires ParseBody(block, n, []) == Got(e.body, rest, left)
    ensures ParseFunction(P("(") + names, n) == Got(e, rest, left)
  {
    hide ParseParams, ParseBody, Size;
    Peeked(Punct("("), names);
    Peeked(Punct("{"), block);
  }

  lemma {:induction false} ParamsUnfold(toks: seq<Token>, n: nat, params: seq<string>)
    ensures ParseParams(toks, n, params) ==
            if At(toks, ")") then Got(params, Rest(toks), n)
            else if !Peek(toks).Name? then Fail
            else if At(Rest(toks), ",") then ParseParams(Rest(Rest(toks)), n, params + [toks[0].text])
            else if At(Rest(toks), ")") then Got(params + [toks[0].text], Rest(Rest(toks)), n)
            else Fail
  {
    hide Size;
  }

  lemma {:induction false} NamesFromTheFront(names: seq<string>)
    requires |names| > 1
    ensures PrintNames(names) == [Name(names[0])] + (P(",") + PrintNames(names[1..]))
  {
    var init, last := names[..|names| - 1], names[|names| - 1];
    if |names| == 2 {
      assert names[1..] == [last] && init == [names[0]];
    } else {
      NamesFromTheFront(init);
      assert names[1..][..|names| - 2] == init[1..];
    }
  }

  lemma FewNames(names: seq<string>)
    ensures names == [] ==> PrintNames(names) == []
    ensures |names| == 1 ==> PrintNames(names) == [Name(names[0])]
  {
  }

  /** Parameters up to the closing parenthesis. */
  lemma {:induction false} ReadParams(params: seq<string>, before: seq<string>, rest: seq<Token>, n: nat)
    ensures ParseParams(PrintNames(params) + (P(")") + rest), n, before) == Got(before + params, rest, n)
    decreases |params|
  {
    hide *;
    var toks, close := PrintNames(params) + (P(")") + rest), P(")") + rest;
    FewNames(params);
    ParamsUnfold(toks, n, before);
    OpToken(")", rest);
    CloserIsAt(")", rest);
    if params == [] {
      assert toks == close && before + params == before;
    } else if |params| == 1 {
      NameFirst(params[0], close);
      assert before + [params[0]] == before + params;
    } else {
      NamesFromTheFront(params);
      var tail := PrintNames(params[1..]) + close;
      CommaFollows(tail);
      NameFirst(params[0], P(",") + tail);
      assert toks == [Name(params[0])] + (P(",") + tail);
      ReadParams(params[1..], before + [params[0]], rest, n);
      assert before + [params[0]] + params[1..] == before + params;
    }
  }

  lemma NameFirst(name: string, rest: seq<Token>)
    ensures var toks := [Name(name)] + rest;
            toks[0] == Peek(toks) == Name(name) && Rest(toks) == rest && !At(toks, ")")
  {
    Peeked(Name(name), rest);
  }

  lemma BlockShape(body: seq<Stmt>)
    requires AllStmtsPrintable(body)
    ensures body == [] ==> PrintBody(body) == [] && CostBody(body) == 0
    ensures body != [] ==>
              && StmtPrintable(body[0]) && AllStmtsPrintable(body[1..])
              && PrintBody(body) == PrintStmt(body[0]) + PrintBody(body[1..])
              && CostBody(body) == CostStmt(body[0]) + CostBody(body[1..])
  {
    hide PrintStmt, CostStmt, StmtPrintable;
  }

  /** Statements up to the closing brace. */
  lemma {:induction false} ReadBody(body: seq<Stmt>, before: seq<Stmt>, rest: seq<Token>, n: nat)
    requires AllStmtsPrintable(body) && n + CostBody(body) <= MAX_NODES
    ensures ParseBody(PrintBody(body) + (P("}") + rest), n, before) == Got(before + body, rest, n + CostBody(body))
    decreases body
  {
    hide *;
    BlockShape(body);
    if body == [] {
      assert [] + (P("}") + rest) == P("}") + rest && before + body == before;
      BodyEnds(before, rest, n);
    } else {
      var tail := PrintBody(body[1..]) + (P("}") + rest);
      NoElse(body[1..], rest);
      ReadStatement(body[0], tail, n);
      StmtIsHeaded(body[0]);
      BodyGoesOn(PrintStmt(body[0]), body[0], tail, before, n, n + CostStmt(body[0]));
      ReadBody(body[1..], before + [body[0]], rest, n + CostStmt(body[0]));
      assert before + [body[0]] + body[1..] == before + body;
      assert PrintStmt(body[0]) + PrintBody(body[1..]) + (P("}") + rest) == PrintStmt(body[0]) + tail;
    }
  }

  lemma BodyEnds(before: seq<Stmt>, rest: seq<Token>, n: nat)
    ensures ParseBody(P("}") + rest, n, before) == Got(before, rest, n)
  {
    hide ParseStatement, Size;
    Peeked(Punct("}"), rest);
    BodyUnfolds(P("}") + rest, n, before);
  }

  lemma BodyGoesOn(printed: seq<Token>, s: Stmt, tail: seq<Token>, before: seq<Stmt>, n: nat, left: nat)
    requires printed != [] && printed[0] != Punct("}") && ParseStatement(printed + tail, n) == Got(s, tail, left)
    ensures ParseBody(printed + tail, n, before) == ParseBody(tail, left, before + [s])
  {
    hide ParseStatement, ParseBody, Size;
    HeadPeeked(printed, tail);
    BodyUnfolds(printed + tail, n, before);
  }

  lemma StmtIsHeaded(s: Stmt)
    ensures PrintStmt(s) != [] && PrintStmt(s)[0] != Punct("}") && PrintStmt(s)[0] != Name("else")
  {
    hide Bare, Print, PrintBody, PrintDecls;
  }

  lemma NoElse(body: seq<Stmt>, rest: seq<Token>)
    ensures !AtName(PrintBody(body) + (P("}") + rest), "else")
  {
    if body == [] {
      Peeked(Punct("}"), rest);
      assert [] + (P("}") + rest) == P("}") + rest;
    } else {
      StmtIsHeaded(body[0]);
      hide PrintStmt;
      HeadPeeked(PrintBody(body), P("}") + rest);
    }
  }

  /** A statement, in front of anything but the `else` it would take for its own. */
  lemma {:induction false} ReadStatement(s: Stmt, rest: seq<Token>, n: nat)
    requires StmtPrintable(s) && (EndsOpen(s) ==> !AtName(rest, "else")) && n + CostStmt(s) <= MAX_NODES
    ensures ParseStatement(PrintStmt(s) + rest, n) == Got(s, rest, n + CostStmt(s))
    decreases s, 1
  {
    hide *;
    match s {
      case VarDecl(_, _) => ReadVarDecl(s, rest, n);
      case Return(_) => ReadReturn(s, rest, n);
      case If(_, _, _) => ReadIf(s, rest, n);
      case Block(_) => ReadBlock(s, rest, n);
      case ExprStmt(_) => ReadExprStmt(s, rest, n);
      case ForOf(_, _, _) => ReadForOf(s, rest, n);
    }
  }

  // Blocks and expressions

  lemma BlockIs(s: Stmt)
    requires StmtPrintable(s) && s.Block?
    ensures AllStmtsPrintable(s.body) && CostStmt(s) == 1 + CostBody(s.body)
    ensures PrintStmt(s) == P("{") + PrintBody(s.body) + P("}")
  {
  }

  lemma {:induction false} ReadBlock(s: Stmt, rest: seq<Token>, n: nat)
    requires StmtPrintable(s) && s.Block? && n + CostStmt(s) <= MAX_NODES
    ensures ParseStatement(PrintStmt(s) + rest, n) == Got(s, rest, n + CostStmt(s))
    decreases s, 0
  {
    hide *;
    BlockIs(s);
    ReadBody(s.body, [], rest, n + 1);
    assert [] + s.body == s.body;
    BlockOpens(PrintBody(s.body) + (P("}") + rest), n);
    assert P("{") + PrintBody(s.body) + P("}") + rest == P("{") + (PrintBody(s.body) + (P("}") + rest));
  }

  lemma BlockOpens(inside: seq<Token>, n: nat)
    requires n < MAX_NODES
    ensures ParseStatement(P("{") + inside, n) ==
            match ParseBody(inside, n + 1, []) { case Fail => Fail case Got(body, t, m) => Got(Block(body), t, m) }
  {
    hide ParseBody, ParseVarDecl, ParseReturn, ParseIf, ParseForOf, ParseExpression, Size, IsBanned;
    Peeked(Punct("{"), inside);
  }

  lemma ExprStmtIs(s: Stmt)
    requires StmtPrintable(s) && s.ExprStmt?
    ensures Printable(s.expr) && CostStmt(s) == 5 + CostBare(s.expr)
    ensures PrintStmt(s) == P("(") + Bare(s.expr) + P(")") + P(";")
  {
    hide Bare;
  }

  lemma {:induction false} ReadExprStmt(s: Stmt, rest: seq<Token>, n: nat)
    requires StmtPrintable(s) && s.ExprStmt? && n + CostStmt(s) <= MAX_NODES
    ensures ParseStatement(PrintStmt(s) + rest, n) == Got(s, rest, n + CostStmt(s))
    decreases s, 0
  {
    hide *;
    ExprStmtIs(s);
    EndFollows(rest);
    var toks := P("(") + Bare(s.expr) + P(")") + (P(";") + rest);
    StopsTighter(Punct(";"), 0, 2);
    ReadWrapped(s.expr, 2, P(";") + rest, n + 2);
    UpToAssign(toks, n + 2, s.expr, P(";") + rest, n + 5 + CostBare(s.expr));
    ExpressionCounts(toks, n + 1);
    var inside := Bare(s.expr) + P(")") + (P(";") + rest);
    ExprOpens(inside, n);
    assert toks == P("(") + inside;
    assert P("(") + Bare(s.expr) + P(")") + P(";") + rest == toks;
  }

  lemma ExpressionCounts(toks: seq<Token>, n: nat)
    requires n < MAX_NODES
    ensures ParseExpression(toks, n) == ParseAssign(toks, n + 1)
  {
    hide ParseAssign, Size;
  }

  lemma EndFollows(rest: seq<Token>)
    ensures Peek(P(";") + rest) == Punct(";") && Stops(Punct(";"), 0) && Skip(P(";") + rest, ";") == rest
    ensures P(";") + rest != [] && !At(P(";") + rest, ",") && Rest(P(";") + rest) == rest
  {
    Peeked(Punct(";"), rest);
  }

  lemma ExprOpens(inside: seq<Token>, n: nat)
    requires n < MAX_NODES
    ensures ParseStatement(P("(") + inside, n) ==
            match ParseExpression(P("(") + inside, n + 1) {
              case Fail => Fail
              case Got(e, t, m) => Got(ExprStmt(e), Skip(t, ";"), m)
            }
  {
    hide ParseBody, ParseVarDecl, ParseReturn, ParseIf, ParseForOf, ParseExpression, Size, IsBanned;
    Peeked(Punct("("), inside);
  }

  // Returns

  lemma ReturnIs(s: Stmt)
    requires StmtPrintable(s) && s.Return?
    ensures s.arg.None? ==> CostStmt(s) == 1 && PrintStmt(s) == [Name("return")] + [] + P(";")
    ensures s.arg.Some? ==>
              && Printable(s.arg.value) && CostStmt(s) == 2 + CostBare(s.arg.value)
              && PrintStmt(s) == [Name("return")] + Bare(s.arg.value) + P(";")
  {
    if s.arg.Some? {
      LevelShape(s.arg.value, 0);
    }
    hide Bare, CostBare, Printable, Print;
  }

  lemma {:induction false} ReadReturn(s: Stmt, rest: seq<Token>, n: nat)
    requires StmtPrintable(s) && s.Return? && n + CostStmt(s) <= MAX_NODES
    ensures ParseStatement(PrintStmt(s) + rest, n) == Got(s, rest, n + CostStmt(s))
    decreases s, 0
  {
    hide *;
    ReturnIs(s);
    EndFollows(rest);
    if s.arg.None? {
      assert [Name("return")] + [] + P(";") + rest == [Name("return")] + (P(";") + rest);
      ReturnOpens(P(";") + rest, n);
      NothingReturned(rest, n + 1);
    } else {
      var e := s.arg.value;
      var inner := Bare(e) + (P(";") + rest);
      assert [Name("return")] + Bare(e) + P(";") + rest == [Name("return")] + inner;
      ReturnOpens(inner, n);
      ReadAssign(e, P(";") + rest, n + 2);
      ItemIsHeaded(e);
      ExpressionCounts(inner, n + 1);
      ValueReturned(Bare(e), e, rest, n + 1, n + 2 + CostBare(e));
    }
  }

  lemma ReturnOpens(inner: seq<Token>, n: nat)
    requires n < MAX_NODES
    ensures ParseStatement([Name("return")] + inner, n) == ParseReturn(inner, n + 1)
  {
    hide ParseBody, ParseVarDecl, ParseReturn, ParseIf, ParseForOf, ParseExpression, Size, IsBanned;
    Peeked(Name("return"), inner);
  }

  lemma NothingReturned(rest: seq<Token>, n: nat)
    ensures ParseReturn(P(";") + rest, n) == Got(Return(None), rest, n)
  {
    hide ParseExpression, Size;
    EndFollows(rest);
  }

  lemma ValueReturned(printed: seq<Token>, e: Node, rest: seq<Token>, n: nat, left: nat)
    requires Headed(printed, false) && ParseExpression(printed + (P(";") + rest), n) == Got(e, P(";") + rest, left)
    ensures ParseReturn(printed + (P(";") + rest), n) == Got(Return(Some(e)), rest, left)
  {
    hide ParseExpression, Size;
    EndFollows(rest);
    HeadPeeked(printed, P(";") + rest);
  }

  // Declarations

  lemma VarDeclIs(s: Stmt)
    requires StmtPrintable(s) && s.VarDecl?
    ensures |s.names| == |s.inits| > 0 && AllInitsPrintable(s.inits) && CostStmt(s) == 1 + CostInits(s.inits)
    ensures PrintStmt(s) == [Name("var")] + PrintDecls(s.names, s.inits) + P(";")
  {
    hide PrintDecls, CostInits;
  }

  lemma {:induction false} ReadVarDecl(s: Stmt, rest: seq<Token>, n: nat)
    requires StmtPrintable(s) && s.VarDecl? && n + CostStmt(s) <= MAX_NODES
    ensures ParseStatement(PrintStmt(s) + rest, n) == Got(s, rest, n + CostStmt(s))
    decreases s, 0
  {
    hide *;
    VarDeclIs(s);
    var inner := PrintDecls(s.names, s.inits) + (P(";") + rest);
    VarOpens(inner, n);
    ReadDecls(s.names, s.inits, [], [], rest, n + 1);
    assert [] + s.names == s.names && [] + s.inits == s.inits;
    assert [Name("var")] + PrintDecls(s.names, s.inits) + P(";") + rest == [Name("var")] + inner;
  }

  lemma VarOpens(inner: seq<Token>, n: nat)
    requires n < MAX_NODES
    ensures ParseStatement([Name("var")] + inner, n) == ParseVarDecl(inner, n + 1, [], [])
  {
    hide ParseBody, ParseVarDecl, ParseReturn, ParseIf, ParseForOf, ParseExpression, Size, IsBanned;
    Peeked(Name("var"), inner);
  }

  lemma DeclsShape(names: seq<string>, inits: seq<Option<Node>>)
    requires |names| == |inits| > 0 && AllInitsPrintable(inits)
    ensures InitPrintable(inits[0]) && AllInitsPrintable(inits[1..])
    ensures CostInits(inits) == CostInit(inits[0]) + CostInits(inits[1..])
    ensures |inits| == 1 ==>
              PrintDecls(names, inits) == [Name(names[0])] + PrintInit(inits[0]) && CostInits(inits[1..]) == 0
    ensures |inits| > 1 ==>
              PrintDecls(names, inits) ==
              [Name(names[0])] + PrintInit(inits[0]) + (P(",") + PrintDecls(names[1..], inits[1..]))
  {
    hide PrintInit, CostInit, InitPrintable;
  }

  /** Declared names with their values, after those read so far. */
  lemma {:induction false} ReadDecls(
      names: seq<string>, inits: seq<Option<Node>>, namesBefore: seq<string>, before: seq<Option<Node>>,
      rest: seq<Token>, n: nat)
    requires |names| == |inits| > 0 && AllInitsPrintable(inits) && n + CostInits(inits) <= MAX_NODES
    ensures ParseVarDecl(PrintDecls(names, inits) + (P(";") + rest), n, namesBefore, before) ==
            Got(VarDecl(namesBefore + names, before + inits), rest, n + CostInits(inits))
    decreases inits
  {
    hide *;
    DeclsShape(names, inits);
    EndFollows(rest);
    var name, init := names[0], inits[0];
    if |inits| == 1 {
      ReadInit(init, P(";") + rest, n);
      LastDecl(name, init, PrintInit(init), rest, n, n + CostInit(init), namesBefore, before);
      assert [Name(name)] + PrintInit(init) + (P(";") + rest) == [Name(name)] + (PrintInit(init) + (P(";") + rest));
      assert names == [name] && inits == [init];
    } else {
      var tail := PrintDecls(names[1..], inits[1..]) + (P(";") + rest);
      CommaFollows(tail);
      ReadInit(init, P(",") + tail, n);
      NextDecl(name, init, PrintInit(init), tail, n, n + CostInit(init), namesBefore, before);
      ReadDecls(names[1..], inits[1..], namesBefore + [name], before + [init], rest, n + CostInit(init));
      DeclsReassociated(name, PrintInit(init), PrintDecls(names[1..], inits[1..]), P(";") + rest);
      assert namesBefore + [name] + names[1..] == namesBefore + names && before + [init] + inits[1..] == before + inits;
    }
  }

  lemma DeclsReassociated(name: string, init: seq<Token>, more: seq<Token>, rest: seq<Token>)
    ensures [Name(name)] + init + (P(",") + more) + rest == [Name(name)] + (init + (P(",") + (more + rest)))
  {
  }

  lemma LastDecl(name: string, init: Option<Node>, printed: seq<Token>, rest: seq<Token>, n: nat, left: nat,
      names: seq<string>, inits: seq<Option<Node>>)
    requires ParseInit(printed + (P(";") + rest), n) == Got(init, P(";") + rest, left)
    ensures ParseVarDecl([Name(name)] + (printed + (P(";") + rest)), n, names, inits) ==
            Got(VarDecl(names + [name], inits + [init]), rest, left)
  {
    hide ParseVarDecl, ParseInit, Size;
    EndFollows(rest);
    NameFirst(name, printed + (P(";") + rest));
    VarDeclUnfolds([Name(name)] + (printed + (P(";") + rest)), n, names, inits);
  }

  lemma NextDecl(name: string, init: Option<Node>, printed: seq<Token>, tail: seq<Token>, n: nat, left: nat,
      names: seq<string>, inits: seq<Option<Node>>)
    requires ParseInit(printed + (P(",") + tail), n) == Got(init, P(",") + tail, left)
    ensures ParseVarDecl([Name(name)] + (printed + (P(",") + tail)), n, names, inits) ==
            ParseVarDecl(tail, left, names + [name], inits + [init])
  {
    hide ParseVarDecl, ParseInit, Size;
    CommaFollows(tail);
    NameFirst(name, printed + (P(",") + tail));
    VarDeclUnfolds([Name(name)] + (printed + (P(",") + tail)), n, names, inits);
  }

  lemma {:induction false} ReadInit(init: Option<Node>, tail: seq<Token>, n: nat)
    requires InitPrintable(init) && Stops(Peek(tail), 0) && n + CostInit(init) <= MAX_NODES
    ensures ParseInit(PrintInit(init) + tail, n) == Got(init, tail, n + CostInit(init))
    decreases init
  {
    hide *;
    InitShape(init);
    match init {
      case None =>
        assert [] + tail == tail;
        NoInit(tail, n);
      case Some(e) =>
        ReadAssign(e, tail, n);
        InitIsRead(Bare(e) + tail, e, tail, n, n + CostBare(e));
        assert P("=") + Bare(e) + tail == P("=") + (Bare(e) + tail);
    }
  }

  lemma InitShape(init: Option<Node>)
    requires InitPrintable(init)
    ensures init.None? ==> PrintInit(init) == [] && CostInit(init) == 0
    ensures init.Some? ==>
              && Printable(init.value) && CostInit(init) == CostBare(init.value)
              && PrintInit(init) == P("=") + Bare(init.value)
  {
    hide Bare, CostBare, Printable;
    if init.Some? {
      LevelShape(init.value, 0);
    }
  }

  lemma NoInit(tail: seq<Token>, n: nat)
    requires Stops(Peek(tail), 0)
    ensures ParseInit(tail, n) == Got(None, tail, n)
  {
    hide ParseAssign, Size, IsOp;
  }

  lemma InitIsRead(toks: seq<Token>, e: Node, tail: seq<Token>, n: nat, left: nat)
    requires ParseAssign(toks, n) == Got(e, tail, left)
    ensures ParseInit(P("=") + toks, n) == Got(Some(e), tail, left)
  {
    hide ParseAssign, Size;
    Peeked(Punct("="), toks);
  }

  // Conditional statements and loops

  lemma IfIs(s: Stmt)
    requires StmtPrintable(s) && s.If?
    ensures Printable(s.test) && StmtPrintable(s.cons)
    ensures s.alt.None? ==>
              && EndsOpen(s) && CostStmt(s) == 2 + CostBare(s.test) + CostStmt(s.cons)
              && PrintStmt(s) == [Name("if")] + (P("(") + Bare(s.test) + P(")")) + (PrintStmt(s.cons) + [])
    ensures s.alt.Some? ==>
              && StmtPrintable(s.alt.value) && !EndsOpen(s.cons) && EndsOpen(s) == EndsOpen(s.alt.value)
              && CostStmt(s) == 2 + CostBare(s.test) + CostStmt(s.cons) + CostStmt(s.alt.value)
              && PrintStmt(s) == [Name("if")] + (P("(") + Bare(s.test) + P(")"))
                                 + (PrintStmt(s.cons) + ([Name("else")] + PrintStmt(s.alt.value)))
  {
    LevelShape(s.test, 0);
    hide Bare, CostBare, Printable, Print;
  }

  lemma {:induction false} ReadIf(s: Stmt, rest: seq<Token>, n: nat)
    requires StmtPrintable(s) && s.If? && (EndsOpen(s) ==> !AtName(rest, "else")) && n + CostStmt(s) <= MAX_NODES
    ensures ParseStatement(PrintStmt(s) + rest, n) == Got(s, rest, n + CostStmt(s))
    decreases s, 0
  {
    hide *;
    IfIs(s);
    var more := if s.alt.None? then [] else [Name("else")] + PrintStmt(s.alt.value);
    var after := more + rest;
    var tail := PrintStmt(s.cons) + after;
    var n1 := n + 2 + CostBare(s.test);
    var n2 := n1 + CostStmt(s.cons);
    CloserFollows(tail);
    ReadAssign(s.test, P(")") + tail, n + 2);
    ExpressionCounts(Bare(s.test) + (P(")") + tail), n + 1);
    IfOpens(P("(") + (Bare(s.test) + (P(")") + tail)), n);
    HeadReassociated("if", Bare(s.test), PrintStmt(s.cons) + more, rest);
    assert PrintStmt(s.cons) + more + rest == tail;
    if s.alt.None? {
      assert after == rest;
      ReadStatement(s.cons, after, n1);
      IfWithoutElse(s, Bare(s.test), tail, rest, n + 1, n1, n2);
    } else {
      assert after == [Name("else")] + (PrintStmt(s.alt.value) + rest);
      NameFirst("else", PrintStmt(s.alt.value) + rest);
      ReadStatement(s.cons, after, n1);
      ReadStatement(s.alt.value, rest, n2);
      IfWithElse(s, Bare(s.test), tail, PrintStmt(s.alt.value) + rest, rest, n + 1, n1, n2, n + CostStmt(s));
    }
  }

  lemma HeadReassociated(word: string, inside: seq<Token>, tail: seq<Token>, rest: seq<Token>)
    ensures [Name(word)] + (P("(") + inside + P(")")) + tail + rest ==
            [Name(word)] + (P("(") + (inside + (P(")") + (tail + rest))))
  {
  }

  lemma IfOpens(inner: seq<Token>, n: nat)
    requires n < MAX_NODES
    ensures ParseStatement([Name("if")] + inner, n) == ParseIf(inner, n + 1)
  {
    hide ParseBody, ParseVarDecl, ParseReturn, ParseIf, ParseForOf, ParseExpression, Size, IsBanned;
    Peeked(Name("if"), inner);
  }

  lemma IfWithoutElse(s: Stmt, test: seq<Token>, tail: seq<Token>, rest: seq<Token>, n: nat, n1: nat, n2: nat)
    requires s.If? && s.alt.None? && !AtName(rest, "else")
    requires ParseExpression(test + (P(")") + tail), n) == Got(s.test, P(")") + tail, n1)
    requires ParseStatement(tail, n1) == Got(s.cons, rest, n2)
    ensures ParseIf(P("(") + (test + (P(")") + tail)), n) == Got(s, rest, n2)
  {
    hide ParseExpression, ParseStatement, Size;
    Peeked(Punct("("), test + (P(")") + tail));
    Peeked(Punct(")"), tail);
  }

  lemma IfWithElse(s: Stmt, test: seq<Token>, tail: seq<Token>, more: seq<Token>, rest: seq<Token>,
      n: nat, n1: nat, n2: nat, n3: nat)
    requires s.If? && s.alt.Some?
    requires ParseExpression(test + (P(")") + tail), n) == Got(s.test, P(")") + tail, n1)
    requires ParseStatement(tail, n1) == Got(s.cons, [Name("else")] + more, n2)
    requires ParseStatement(more, n2) == Got(s.alt.value, rest, n3)
    ensures ParseIf(P("(") + (test + (P(")") + tail)), n) == Got(s, rest, n3)
  {
    hide ParseExpression, ParseStatement, Size;
    Peeked(Punct("("), test + (P(")") + tail));
    Peeked(Punct(")"), tail);
    Peeked(Name("else"), more);
  }

  lemma ForOfIs(s: Stmt)
    requires StmtPrintable(s) && s.ForOf?
    ensures Printable(s.iter) && StmtPrintable(s.loopBody) && EndsOpen(s) == EndsOpen(s.loopBody)
    ensures CostStmt(s) == 2 + CostBare(s.iter) + CostStmt(s.loopBody)
    ensures PrintStmt(s) ==
            [Name("for")] + (P("(") + (LoopHead(s.name) + Bare(s.iter)) + P(")")) + PrintStmt(s.loopBody)
  {
    LevelShape(s.iter, 0);
    hide Bare, CostBare, Printable, Print, LoopHead;
  }

  lemma {:induction false} ReadForOf(s: Stmt, rest: seq<Token>, n: nat)
    requires StmtPrintable(s) && s.ForOf? && (EndsOpen(s) ==> !AtName(rest, "else")) && n + CostStmt(s) <= MAX_NODES
    ensures ParseStatement(PrintStmt(s) + rest, n) == Got(s, rest, n + CostStmt(s))
    decreases s, 0
  {
    hide *;
    ForOfIs(s);
    var tail := PrintStmt(s.loopBody) + rest;
    var iter := Bare(s.iter) + (P(")") + tail);
    var n1 := n + 2 + CostBare(s.iter);
    CloserFollows(tail);
    ReadAssign(s.iter, P(")") + tail, n + 2);
    ExpressionCounts(iter, n + 1);
    ReadStatement(s.loopBody, rest, n1);
    ForOpens(P("(") + (LoopHead(s.name) + iter), n);
    LoopIsRead(s, iter, tail, rest, n + 1, n1, n + CostStmt(s));
    HeadReassociated("for", LoopHead(s.name) + Bare(s.iter), PrintStmt(s.loopBody), rest);
    assert LoopHead(s.name) + Bare(s.iter) + (P(")") + tail) == LoopHead(s.name) + iter;
  }

  lemma ForOpens(inner: seq<Token>, n: nat)
    requires n < MAX_NODES
    ensures ParseStatement([Name("for")] + inner, n) == ParseForOf(inner, n + 1)
  {
    hide ParseBody, ParseVarDecl, ParseReturn, ParseIf, ParseForOf, ParseExpression, Size, IsBanned;
    Peeked(Name("for"), inner);
  }

  lemma LoopIsRead(s: Stmt, iter: seq<Token>, tail: seq<Token>, rest: seq<Token>, n: nat, n1: nat, left: nat)
    requires s.ForOf? && ParseExpression(iter, n) == Got(s.iter, P(")") + tail, n1)
    requires ParseStatement(tail, n1) == Got(s.loopBody, rest, left)
    ensures ParseForOf(P("(") + (LoopHead(s.name) + iter), n) == Got(s, rest, left)
  {
    Peeked(Punct("("), LoopHead(s.name) + iter);
    Peeked(Punct(")"), tail);
    LoopNameIs(s.name, iter);
    hide ParseExpression, ParseStatement, Size, LoopName, LoopHead;
  }

  lemma LoopNameIs(name: string, iter: seq<Token>)
    ensures LoopName(LoopHead(name) + iter) == Some((name, iter))
  {
    hide Size;
    var toks := LoopHead(name) + iter;
    assert toks == [Name("let")] + ([Name(name)] + ([Name("of")] + iter));
    Peeked(Name("let"), [Name(name)] + ([Name("of")] + iter));
    Peeked(Name(name), [Name("of")] + iter);
    Peeked(Name("of"), iter);
  }

  // ---------------------------------------------------------------------------------------------
  // Assignments, conditions and arrow functions
  // ---------------------------------------------------------------------------------------------

  lemma AssignShape(e: Node)
    requires Printable(e) && e.Assign?
    ensures Printable(e.target) && Printable(e.value) && Assignable(e.target) && IsAssignOp(Punct(e.op))
            && LevelOf(e.target) >= 9
    ensures Bare(e) == Bare(e.target) + (P(e.op) + Bare(e.value))
            && CostBare(e) == CostBare(e.target) + CostBare(e.value)
  {
  }

  lemma CondShape(e: Node)
    requires Printable(e) && e.Cond?
    ensures Printable(e.test) && Printable(e.cons) && Printable(e.alt)
    ensures Bare(e) == Print(e.test, 2) + (P("?") + (Bare(e.cons) + (P(":") + Bare(e.alt))))
    ensures CostBare(e) == CostAt(e.test, 2) + CostBare(e.cons) + CostBare(e.alt)
  {
  }

  lemma ArrowShape(e: Node)
    requires Printable(e) && e.ArrowLit?
    ensures Printable(e.expr) && CostBare(e) == CostAt(e.expr, BodyLevel(e.expr)) + 2
    ensures Bare(e) == P("(") + PrintNames(e.params) + P(")") + (P("=>") + Print(e.expr, BodyLevel(e.expr)))
  {
  }

  /** A whole expression. */
  lemma {:induction false} ReadAssign(e: Node, rest: seq<Token>, n: nat)
    requires Printable(e) && Stops(Peek(rest), 0) && n + CostBare(e) <= MAX_NODES
    ensures ParseAssign(Bare(e) + rest, n) == Got(e, rest, n + CostBare(e))
    decreases e, 3
  {
    hide *;
    OnlyOperators(e);
    if e.Assign? {
      ReadAssignment(e, rest, n);
    } else if e.Cond? {
      ReadCondition(e, rest, n);
    } else if e.ArrowLit? {
      ReadArrow(e, rest, n);
    } else {
      AtLeastTwo(e);
      StopsTighter(Peek(rest), 0, 2);
      ReadBare(e, 2, rest, n);
      UpToAssign(Bare(e) + rest, n, e, rest, n + CostBare(e));
    }
  }

  lemma AtLeastTwo(e: Node)
    requires Printable(e) && !e.Assign? && !e.Cond? && !e.ArrowLit?
    ensures LevelOf(e) >= 2
  {
    OnlyOperators(e);
  }

  lemma {:induction false} ReadAssignment(e: Node, rest: seq<Token>, n: nat)
    requires Printable(e) && e.Assign? && Stops(Peek(rest), 0) && n + CostBare(e) <= MAX_NODES
    ensures ParseAssign(Bare(e) + rest, n) == Got(e, rest, n + CostBare(e))
    decreases e, 1
  {
    hide *;
    AssignShape(e);
    var after := Bare(e.value) + rest;
    var left := n + CostBare(e.target);
    OpToken(e.op, after);
    AssignmentStops(e.op);
    StopsTighter(Punct(e.op), 1, 2);
    ReadBare(e.target, 2, P(e.op) + after, n);
    ReadAssign(e.value, rest, left);
    Reassociated(Bare(e.target), P(e.op), Bare(e.value), rest);
    TargetIsRead(Bare(e.target) + (P(e.op) + after), e.target, e.op, after, n, left);
    assert Assign(e.target, e.op, e.value) == e;
  }

  lemma TargetIsRead(toks: seq<Token>, target: Node, op: string, after: seq<Token>, n: nat, left: nat)
    requires ParseLevel(2, toks, n) == Got(target, P(op) + after, left) && Assignable(target) && IsAssignOp(Punct(op))
    ensures ParseAssign(toks, n) ==
            match ParseAssign(after, left) {
              case Fail => Fail
              case Got(value, t, m) => Got(Assign(target, op, value), t, m)
            }
  {
    OpToken(op, after);
    ConditionalUnfolds(toks, n);
    AssignUnfolds(toks, n);
    hide ParseAssign, ParseConditional, ParseLevel, Size;
  }

  lemma {:induction false} ReadCondition(e: Node, rest: seq<Token>, n: nat)
    requires Printable(e) && e.Cond? && Stops(Peek(rest), 0) && n + CostBare(e) <= MAX_NODES
    ensures ParseAssign(Bare(e) + rest, n) == Got(e, rest, n + CostBare(e))
    decreases e, 1
  {
    hide *;
    CondShape(e);
    var tail := Bare(e.alt) + rest;
    var middle := Bare(e.cons) + (P(":") + tail);
    var n1 := n + CostAt(e.test, 2);
    var n2 := n1 + CostBare(e.cons);
    OpToken("?", middle);
    QuestionStops();
    ReadLevel(e.test, 2, P("?") + middle, n);
    OpToken(":", tail);
    ClosersStop(Punct(":"));
    ReadAssign(e.cons, P(":") + tail, n1);
    ReadAssign(e.alt, rest, n2);
    ConditionIsRead(e, Print(e.test, 2) + (P("?") + middle), middle, tail, rest, n, n1, n2, n + CostBare(e));
    CondReassociated(Print(e.test, 2), Bare(e.cons), Bare(e.alt), rest);
  }

  lemma CondReassociated(test: seq<Token>, cons: seq<Token>, alt: seq<Token>, rest: seq<Token>)
    ensures test + (P("?") + (cons + (P(":") + alt))) + rest == test + (P("?") + (cons + (P(":") + (alt + rest))))
  {
  }

  lemma ConditionIsRead(e: Node, toks: seq<Token>, middle: seq<Token>, tail: seq<Token>, rest: seq<Token>, n: nat,
      n1: nat, n2: nat, n3: nat)
    requires e.Cond? && ParseLevel(2, toks, n) == Got(e.test, P("?") + middle, n1)
    requires ParseAssign(middle, n1) == Got(e.cons, P(":") + tail, n2)
    requires ParseAssign(tail, n2) == Got(e.alt, rest, n3) && Stops(Peek(rest), 0)
    ensures ParseAssign(toks, n) == Got(e, rest, n3)
  {
    OpToken("?", middle);
    OpToken(":", tail);
    ConditionalUnfolds(toks, n);
    AssignUnfolds(toks, n);
    TopStops(rest);
    hide ParseAssign, ParseConditional, ParseLevel, Size, Stops;
  }

  lemma {:induction false} ReadArrow(e: Node, rest: seq<Token>, n: nat)
    requires Printable(e) && e.ArrowLit? && Stops(Peek(rest), 0) && n + CostBare(e) <= MAX_NODES
    ensures ParseAssign(Bare(e) + rest, n) == Got(e, rest, n + CostBare(e))
    decreases e, 1
  {
    hide *;
    ArrowShape(e);
    var body := Print(e.expr, BodyLevel(e.expr)) + rest;
    var left := n + 1 + CostAt(e.expr, BodyLevel(e.expr));
    ReadArrowBody(e.expr, rest, n + 1);
    var toks := P("(") + PrintNames(e.params) + P(")") + (P("=>") + body);
    ArrowIsRead(e, body, rest, n, left);
    PostfixUnfolds(toks, n);
    assert toks == P("(") + (PrintNames(e.params) + P(")") + (P("=>") + body));
    ParenIsNoOperator(PrintNames(e.params) + P(")") + (P("=>") + body));
    StopsTighter(Peek(rest), 0, 2);
    UpFromPostfix(2, toks, n, e, rest, left);
    UpToAssign(toks, n, e, rest, left + 1);
    Reassociated(P("(") + PrintNames(e.params) + P(")"), P("=>"), Print(e.expr, BodyLevel(e.expr)), rest);
  }

  lemma ArrowIsRead(e: Node, body: seq<Token>, rest: seq<Token>, n: nat, left: nat)
    requires e.ArrowLit? && n < MAX_NODES && !At(body, "{") && ParseAssign(body, n + 1) == Got(e.expr, rest, left)
    ensures ParsePrimary(P("(") + PrintNames(e.params) + P(")") + (P("=>") + body), n) == Got(e, rest, left)
  {
    var toks := P("(") + PrintNames(e.params) + P(")") + (P("=>") + body);
    IsArrow(e.params, body);
    assert toks[0] == Punct("(");
    hide ParseAssign, ParseExpression, ParseList, ParseFields, ParseName, ParseTemplate, ArrowParams, ParseBody, Size,
         PrintNames;
  }

  /** The body of an arrow function never looks like a block. */
  lemma {:induction false} ReadArrowBody(e: Node, rest: seq<Token>, n: nat)
    requires Printable(e) && Stops(Peek(rest), 0) && n + CostAt(e, BodyLevel(e)) <= MAX_NODES
    ensures !At(Print(e, BodyLevel(e)) + rest, "{")
    ensures ParseAssign(Print(e, BodyLevel(e)) + rest, n) == Got(e, rest, n + CostAt(e, BodyLevel(e)))
    decreases e, 5
  {
    hide *;
    BodyIsNoBlock(e, rest);
    LevelShape(e, BodyLevel(e));
    BodyShape(e);
    if BodyLevel(e) == 0 {
      ReadAssign(e, rest, n);
    } else {
      StopsTighter(Peek(rest), 0, 2);
      ReadWrapped(e, 2, rest, n);
      UpToAssign(P("(") + Bare(e) + P(")") + rest, n, e, rest, n + CostBare(e) + 3);
    }
  }

  lemma BodyShape(e: Node)
    ensures BodyLevel(e) == 0 || (BodyLevel(e) == 11 && LevelOf(e) < 11)
  {
  }

  lemma BodyIsNoBlock(e: Node, rest: seq<Token>)
    requires Printable(e)
    ensures !At(Print(e, BodyLevel(e)) + rest, "{")
  {
    PrintIsHeaded(e, 0);
    PrintIsHeaded(e, 11);
    LevelShape(e, 11);
    BodyShape(e);
    hide Bare, Printable, Print;
    HeadPeeked(Print(e, BodyLevel(e)), rest);
  }
}
