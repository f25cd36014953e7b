/** The language of balance scripts (internal/script/parser.go, internal/script/lexer.go): tokens, syntax
    trees, and what a list of tokens parses to.  Token lists stand without the final end-of-file token. */
module ScriptGrammar {
  import opened Lists

  /** A number comes with the text that it has as an object key.  A template literal holds its texts and the
      tokens of its expressions, where nothing stands for source that cannot be split into tokens. */
  datatype Source = Unreadable | Source(toks: seq<Token>)

  datatype Token =
    | EndOfFile
    | Name(text: string)
    | Number(number: real, key: string)
    | Text(str: string)
    | Template(chunks: seq<string>, exprs: seq<Source>)
    | Punct(text: string)

  datatype Node =
    | NumLit(number: real)
    | StrLit(str: string)
    | BoolLit(truth: bool)
    | NullLit
    | UndefLit
    | TmplLit(chunks: seq<string>, exprs: seq<Node>)
    | Ident(name: string)
    | ObjLit(keys: seq<string>, values: seq<Node>)
    | ArrLit(items: seq<Node>)
    | Member(base: Node, name: string, optional: bool)
    | Element(base: Node, prop: Node, optional: bool)
    | Call(callee: Node, args: seq<Node>, optional: bool)
    | Unary(op: string, arg: Node)
    | Binary(op: string, left: Node, right: Node)
    | Logical(op: string, left: Node, right: Node)
    | Cond(test: Node, cons: Node, alt: Node)
    | Assign(target: Node, op: string, value: Node)
    | FnLit(params: seq<string>, body: seq<Stmt>)
    | ArrowLit(params: seq<string>, expr: Node)

  datatype Stmt =
    | VarDecl(names: seq<string>, inits: seq<Option<Node>>)
    | Return(arg: Option<Node>)
    | If(test: Node, cons: Stmt, alt: Option<Stmt>)
    | Block(body: seq<Stmt>)
    | ExprStmt(expr: Node)
    | ForOf(name: string, iter: Node, loopBody: Stmt)

  const MAX_NODES := 4000

  datatype Parsed<T> = Fail | Got(value: T, toks: seq<Token>, nodes: nat) {
    predicate IsFailure() {
      Fail?
    }

    function PropagateFailure<U>(): Parsed<U>
      requires Fail?
    {
      Fail
    }

    function Extract(): (T, seq<Token>, nat)
      requires Got?
    {
      (value, toks, nodes)
    }
  }

  // ---------------------------------------------------------------------------------------------
  // Tokens
  // ---------------------------------------------------------------------------------------------

  function Peek(toks: seq<Token>): Token {
    if toks == [] then EndOfFile else toks[0]
  }

  predicate At(toks: seq<Token>, text: string) {
    Peek(toks) == Punct(text)
  }

  predicate AtName(toks: seq<Token>, word: string) {
    Peek(toks) == Name(word)
  }

  /** Tokens including those inside template literals. */
  function Size(toks: seq<Token>): nat
    decreases toks
  {
    if toks == [] then 0 else TokenSize(toks[0]) + Size(toks[1..])
  }

  function TokenSize(t: Token): (n: nat)
    ensures n > 0
    decreases t
  {
    if t.Template? then 1 + ExprsSize(t.exprs) else 1
  }

  function ExprsSize(exprs: seq<Source>): nat
    decreases exprs
  {
    if exprs == [] then 0
    else (if exprs[0].Unreadable? then 0 else Size(exprs[0].toks)) + ExprsSize(exprs[1..])
  }

  lemma {:induction false} SizeDrop(toks: seq<Token>, k: nat)
    requires k <= |toks|
    ensures Size(toks[k..]) <= Size(toks)
    ensures k > 0 ==> Size(toks[k..]) < Size(toks)
    decreases k
  {
    if k > 0 {
      SizeDrop(toks[1..], k - 1);
      assert toks[1..][k - 1..] == toks[k..];
    } else {
      assert toks[0..] == toks;
    }
  }

  lemma TemplateSize(toks: seq<Token>)
    requires toks != [] && toks[0].Template?
    ensures ExprsSize(toks[0].exprs) < Size(toks)
  {
  }

  function Rest(toks: seq<Token>): (r: seq<Token>)
    requires toks != []
    ensures r == toks[1..] && Size(r) < Size(toks)
  {
    toks[1..]
  }

  function Skip(toks: seq<Token>, text: string): (r: seq<Token>)
    ensures Size(r) <= Size(toks)
  {
    if At(toks, text) then Rest(toks) else toks
  }

  predicate IsAssignOp(t: Token) {
    t.Punct? && t.text in {"=", "+=", "-=", "*=", "/=", "%="}
  }

  predicate Assignable(e: Node) {
    e.Ident? || e.Member? || e.Element?
  }

  predicate IsBanned(name: string) {
    name in {
      "require", "import", "process", "globalThis", "global", "eval", "Function", "fetch", "XMLHttpRequest",
      "WebSocket",
      "setTimeout", "setInterval", "Buffer", "window", "document", "new", "class", "async", "await", "yield", "this",
      "try", "catch", "throw", "while", "do", "switch", "delete", "void", "in", "instanceof"}
  }

  // ---------------------------------------------------------------------------------------------
  // Operators by level: 2 or, 3 and, 4 equality, 5 comparison, 6 sum, 7 product
  // ---------------------------------------------------------------------------------------------

  predicate IsOp(k: nat, t: Token) {
    t.Punct? &&
    match k
    case 2 => t.text == "||" || t.text == "??"
    case 3 => t.text == "&&"
    case 4 => t.text == "===" || t.text == "!==" || t.text == "==" || t.text == "!="
    case 5 => t.text == "<=" || t.text == ">=" || t.text == "<" || t.text == ">"
    case 6 => t.text == "+" || t.text == "-"
    case 7 => t.text == "*" || t.text == "/" || t.text == "%"
    case _ => false
  }

  function Combined(k: nat, op: string, left: Node, right: Node): Node {
    if k <= 3 then Logical(op, left, right) else Binary(op, left, right)
  }

  predicate IsUnaryOp(t: Token) {
    t == Punct("!") || t == Punct("-") || t == Punct("+") || t == Name("typeof")
  }

  // ---------------------------------------------------------------------------------------------
  // Arrow parameters
  // ---------------------------------------------------------------------------------------------

  /** Where the parenthesis closes that is open at this depth. */
  function Closing(toks: seq<Token>, i: nat, depth: nat): (r: Option<nat>)
    requires i <= |toks|
    ensures r.Some? ==> i <= r.value < |toks| && toks[r.value] == Punct(")")
    decreases |toks| - i
  {
    if i == |toks| then None
    else if toks[i] == EndOfFile then None
    else if toks[i] == Punct("(") then Closing(toks, i + 1, depth + 1)
    else if toks[i] == Punct(")") && depth == 1 then Some(i)
    else if toks[i] == Punct(")") then Closing(toks, i + 1, if depth == 0 then 0 else depth - 1)
    else Closing(toks, i + 1, depth)
  }

  /** Names separated by any commas. */
  function NamesOnly(toks: seq<Token>): Option<seq<string>> {
    if toks == [] then Some([])
    else
      match NamesOnly(toks[..|toks| - 1])
      case None => None
      case Some(names) =>
        var last := toks[|toks| - 1];
        if last.Name? then Some(names + [last.text]) else if last == Punct(",") then Some(names) else None
  }

  lemma BehindParenthesis(toks: seq<Token>, k: nat)
    requires At(toks, "(") && Closing(toks, 0, 0) == Some(k)
    ensures 1 <= k < |toks|
    ensures ArrowParams(toks) ==
            if k + 1 < |toks| && toks[k + 1] == Punct("=>") then
              match NamesOnly(toks[1..k]) { case None => None case Some(names) => Some((names, toks[k + 2..])) }
            else None
  {
  }

  /** One foreign token spoils a list of names. */
  lemma {:induction false} NoNames(toks: seq<Token>, k: nat)
    requires k < |toks| && NamesOnly(toks[..k + 1]).None?
    ensures NamesOnly(toks).None?
    decreases |toks| - k
  {
    if k + 1 == |toks| {
      assert toks[..k + 1] == toks;
    } else {
      assert toks[..k + 2][..k + 1] == toks[..k + 1];
      NoNames(toks, k + 1);
    }
  }

  /** The parameters of an arrow function and what follows the arrow. */
  function ArrowParams(toks: seq<Token>): (r: Option<(seq<string>, seq<Token>)>)
    requires At(toks, "(")
    ensures r.Some? ==> Size(r.value.1) < Size(toks)
  {
    match Closing(toks, 0, 0)
    case None => None
    case Some(k) =>
      if k + 1 < |toks| && toks[k + 1] == Punct("=>") && k >= 1 then
        match NamesOnly(toks[1..k])
        case None => None
        case Some(names) =>
          SizeDrop(toks, k + 2);
          Some((names, toks[k + 2..]))
      else None
  }

  // ---------------------------------------------------------------------------------------------
  // Expressions
  // ---------------------------------------------------------------------------------------------

  function ParseExpression(toks: seq<Token>, n: nat): (r: Parsed<Node>)
    ensures r.Got? ==> Size(r.toks) < Size(toks)
    decreases Size(toks), 14
  {
    if n >= MAX_NODES then Fail else ParseAssign(toks, n + 1)
  }

  function ParseAssign(toks: seq<Token>, n: nat): (r: Parsed<Node>)
    ensures r.Got? ==> Size(r.toks) < Size(toks)
    decreases Size(toks), 13
  {
    var (left, t1, n1) :- ParseConditional(toks, n);
    if !IsAssignOp(Peek(t1)) then Got(left, t1, n1)
    else if !Assignable(left) then Fail
    else
      var (value, t2, n2) :- ParseAssign(Rest(t1), n1);
      Got(Assign(left, t1[0].text, value), t2, n2)
  }

  function ParseConditional(toks: seq<Token>, n: nat): (r: Parsed<Node>)
    ensures r.Got? ==> Size(r.toks) < Size(toks)
    decreases Size(toks), 12
  {
    var (test, t1, n1) :- ParseLevel(2, toks, n);
    if !At(t1, "?") then Got(test, t1, n1)
    else
      var (cons, t2, n2) :- ParseAssign(Rest(t1), n1);
      if !At(t2, ":") then Fail
      else
        var (alt, t3, n3) :- ParseAssign(Rest(t2), n2);
        Got(Cond(test, cons, alt), t3, n3)
  }

  lemma {:induction false} AssignUnfolds(toks: seq<Token>, n: nat)
    ensures ParseAssign(toks, n) ==
            match ParseConditional(toks, n) {
              case Fail => Fail
              case Got(left, t1, n1) =>
                if !IsAssignOp(Peek(t1)) then Got(left, t1, n1)
                else if !Assignable(left) then Fail
                else
                  match ParseAssign(Rest(t1), n1) {
                    case Fail => Fail
                    case Got(value, t2, n2) => Got(Assign(left, t1[0].text, value), t2, n2)
                  }
            }
  {
  }

  lemma {:induction false} ConditionalUnfolds(toks: seq<Token>, n: nat)
    ensures ParseConditional(toks, n) ==
            match ParseLevel(2, toks, n) {
              case Fail => Fail
              case Got(test, t1, n1) =>
                if !At(t1, "?") then Got(test, t1, n1)
                else
                  match ParseAssign(Rest(t1), n1) {
                    case Fail => Fail
                    case Got(cons, t2, n2) =>
                      if !At(t2, ":") then Fail
                      else
                        match ParseAssign(Rest(t2), n2) {
                          case Fail => Fail
                          case Got(alt, t3, n3) => Got(Cond(test, cons, alt), t3, n3)
                        }
                  }
            }
  {
  }

  lemma {:induction false} UnaryUnfolds(toks: seq<Token>, n: nat)
    ensures ParseLevel(8, toks, n) ==
            if IsUnaryOp(Peek(toks)) then
              match ParseLevel(8, Rest(toks), n) {
                case Fail => Fail
                case Got(arg, t1, n1) => if n1 >= MAX_NODES then Fail else Got(Unary(toks[0].text, arg), t1, n1 + 1)
              }
            else ParsePostfix(toks, n)
  {
  }

  /** A chain of operators of one level; level 8 stands for the unary operators below them. */
  function ParseLevel(k: nat, toks: seq<Token>, n: nat): (r: Parsed<Node>)
    requires 2 <= k <= 8
    ensures r.Got? ==> Size(r.toks) < Size(toks)
    decreases Size(toks), 12 - k
  {
    if k == 8 then ParseUnary(toks, n)
    else
      var (left, t1, n1) :- ParseLevel(k + 1, toks, n);
      ParseChain(k, left, t1, n1)
  }

  /** Goes on after a left operand. */
  function ParseChain(k: nat, left: Node, toks: seq<Token>, n: nat): (r: Parsed<Node>)
    requires 2 <= k <= 7
    ensures r.Got? ==> Size(r.toks) <= Size(toks)
    decreases Size(toks), 0
  {
    if !IsOp(k, Peek(toks)) then Got(left, toks, n)
    else
      var (right, t1, n1) :- ParseLevel(k + 1, Rest(toks), n);
      if n1 >= MAX_NODES then Fail
      else ParseChain(k, Combined(k, toks[0].text, left, right), t1, n1 + 1)
  }

  lemma {:induction false} LevelUnfolds(k: nat, toks: seq<Token>, n: nat)
    requires 2 <= k <= 7
    ensures ParseLevel(k, toks, n) ==
            match ParseLevel(k + 1, toks, n) { case Fail => Fail case Got(left, t1, n1) => ParseChain(k, left, t1, n1) }
  {
  }

  lemma {:induction false} ChainUnfolds(k: nat, left: Node, toks: seq<Token>, n: nat)
    requires 2 <= k <= 7
    ensures !IsOp(k, Peek(toks)) ==> ParseChain(k, left, toks, n) == Got(left, toks, n)
    ensures IsOp(k, Peek(toks)) ==>
              toks != [] &&
              ParseChain(k, left, toks, n) ==
              match ParseLevel(k + 1, Rest(toks), n) {
                case Fail => Fail
                case Got(right, t1, n1) =>
                  if n1 >= MAX_NODES then Fail else ParseChain(k, Combined(k, toks[0].text, left, right), t1, n1 + 1)
              }
  {
  }

  function ParseUnary(toks: seq<Token>, n: nat): (r: Parsed<Node>)
    ensures r.Got? ==> Size(r.toks) < Size(toks)
    decreases Size(toks), 3
  {
    if IsUnaryOp(Peek(toks)) then
      var (arg, t1, n1) :- ParseUnary(Rest(toks), n);
      if n1 >= MAX_NODES then Fail else Got(Unary(toks[0].text, arg), t1, n1 + 1)
    else ParsePostfix(toks, n)
  }

  function ParsePostfix(toks: seq<Token>, n: nat): (r: Parsed<Node>)
    ensures r.Got? ==> Size(r.toks) < Size(toks)
    decreases Size(toks), 2
  {
    var (base, t1, n1) :- ParsePrimary(toks, n);
    ParseTail(base, t1, n1)
  }

  lemma {:induction false} PostfixUnfolds(toks: seq<Token>, n: nat)
    ensures ParsePostfix(toks, n) ==
            match ParsePrimary(toks, n) { case Fail => Fail case Got(base, t1, n1) => ParseTail(base, t1, n1) }
  {
  }

  /** Members, elements and calls after an expression; every look for one costs a node. */
  function ParseTail(e: Node, toks: seq<Token>, n: nat): (r: Parsed<Node>)
    ensures r.Got? ==> Size(r.toks) <= Size(toks)
    decreases Size(toks), 2
  {
    if n >= MAX_NODES then Fail
    else if At(toks, ".") then ParseMember(e, false, Rest(toks), n + 1)
    else if At(toks, "?.") then
      var t := Rest(toks);
      if At(t, "(") then
        var (args, t1, n1) :- ParseArgs(t, n + 1);
        ParseTail(Call(e, args, true), t1, n1)
      else if At(t, "[") then ParseElement(e, true, Rest(t), n + 1)
      else ParseMember(e, true, t, n + 1)
    else if At(toks, "[") then ParseElement(e, false, Rest(toks), n + 1)
    else if At(toks, "(") then
      var (args, t1, n1) :- ParseArgs(toks, n + 1);
      ParseTail(Call(e, args, false), t1, n1)
    else Got(e, toks, n + 1)
  }

  lemma {:induction false} TailUnfolds(e: Node, toks: seq<Token>, n: nat)
    ensures ParseTail(e, toks, n) ==
            if n >= MAX_NODES then Fail
            else if At(toks, ".") then ParseMember(e, false, Rest(toks), n + 1)
            else if At(toks, "?.") && At(Rest(toks), "(") then CalledTail(e, true, Rest(toks), n + 1)
            else if At(toks, "?.") && At(Rest(toks), "[") then ParseElement(e, true, Rest(Rest(toks)), n + 1)
            else if At(toks, "?.") then ParseMember(e, true, Rest(toks), n + 1)
            else if At(toks, "[") then ParseElement(e, false, Rest(toks), n + 1)
            else if At(toks, "(") then CalledTail(e, false, toks, n + 1)
            else Got(e, toks, n + 1)
  {
  }

  function CalledTail(e: Node, optional: bool, toks: seq<Token>, n: nat): Parsed<Node> {
    match ParseArgs(toks, n)
    case Fail => Fail
    case Got(args, t1, n1) => ParseTail(Call(e, args, optional), t1, n1)
  }

  function ParseMember(e: Node, optional: bool, toks: seq<Token>, n: nat): (r: Parsed<Node>)
    ensures r.Got? ==> Size(r.toks) <= Size(toks)
    decreases Size(toks), 1
  {
    if !Peek(toks).Name? then Fail else ParseTail(Member(e, toks[0].text, optional), Rest(toks), n)
  }

  function ParseElement(e: Node, optional: bool, toks: seq<Token>, n: nat): (r: Parsed<Node>)
    ensures r.Got? ==> Size(r.toks) <= Size(toks)
    decreases Size(toks), 15
  {
    var (prop, t1, n1) :- ParseExpression(toks, n);
    if !At(t1, "]") then Fail else ParseTail(Element(e, prop, optional), Rest(t1), n1)
  }

  function ParseArgs(toks: seq<Token>, n: nat): (r: Parsed<seq<Node>>)
    ensures r.Got? ==> Size(r.toks) < Size(toks)
    decreases Size(toks), 1
  {
    if !At(toks, "(") then Fail else ParseList(")", Rest(toks), n, [])
  }

  /** Expressions separated by commas up to a closing token, after those read so far; a last comma is allowed. */
  function ParseList(close: string, toks: seq<Token>, n: nat, items: seq<Node>): (r: Parsed<seq<Node>>)
    ensures r.Got? ==> Size(r.toks) < Size(toks)
    decreases Size(toks), 15
  {
    if At(toks, close) then Got(items, Rest(toks), n)
    else
      var (item, t1, n1) :- ParseAssign(toks, n);
      if At(t1, ",") then ParseList(close, Rest(t1), n1, items + [item])
      else if At(t1, close) then Got(items + [item], Rest(t1), n1)
      else Fail
  }

  lemma {:induction false} ListUnfolds(close: string, toks: seq<Token>, n: nat, items: seq<Node>)
    ensures ParseList(close, toks, n, items) ==
            if At(toks, close) then Got(items, Rest(toks), n)
            else
              match ParseAssign(toks, n) {
                case Fail => Fail
                case Got(item, t1, n1) =>
                  if At(t1, ",") then ParseList(close, Rest(t1), n1, items + [item])
                  else if At(t1, close) then Got(items + [item], Rest(t1), n1)
                  else Fail
              }
  {
  }

  function ParsePrimary(toks: seq<Token>, n: nat): (r: Parsed<Node>)
    ensures r.Got? ==> Size(r.toks) < Size(toks)
    decreases Size(toks), 1
  {
    if n >= MAX_NODES || toks == [] then Fail
    else
      var (t, rest) := (toks[0], Rest(toks));
      match t
      case Number(number, _) => Got(NumLit(number), rest, n + 1)
      case Text(str) => Got(StrLit(str), rest, n + 1)
      case Template(chunks, exprs) =>
        TemplateSize(toks);
        var parsed := ParseTemplate(exprs);
        if parsed.None? then Fail else Got(TmplLit(chunks, parsed.value), rest, n + 1)
      case Name(text) => ParseName(text, rest, n + 1)
      case Punct(text) =>
        if text == "(" then
          match ArrowParams(toks)
          case Some((params, body)) => ParseArrowBody(params, body, n + 1)
          case None =>
            var (e, t1, n1) :- ParseExpression(rest, n + 1);
            if At(t1, ")") then Got(e, Rest(t1), n1) else Fail
        else if text == "{" then ParseFields(rest, n + 1, [], [])
        else if text == "[" then
          var (items, t1, n1) :- ParseList("]", rest, n + 1, []);
          Got(ArrLit(items), t1, n1)
        else Fail
      case EndOfFile => Fail
  }

  /** Each expression of a template is parsed on its own, with a node count of its own. */
  function ParseTemplate(exprs: seq<Source>): (r: Option<seq<Node>>)
    decreases ExprsSize(exprs), 16, |exprs|
  {
    if exprs == [] then Some([])
    else if exprs[0].Unreadable? then None
    else
      match ParseProgram(exprs[0].toks)
      case None => None
      case Some(e) =>
        match ParseTemplate(exprs[1..])
        case None => None
        case Some(rest) => Some([e] + rest)
  }

  /** A script is one expression, after which a semicolon may stand. */
  function ParseProgram(toks: seq<Token>): Option<Node>
    decreases Size(toks), 15
  {
    match ParseExpression(toks, 0)
    case Fail => None
    case Got(e, t, _) => if Peek(Skip(t, ";")) == EndOfFile then Some(e) else None
  }

  /** What a name at the start of an expression stands for. */
  function ParseName(name: string, rest: seq<Token>, n: nat): (r: Parsed<Node>)
    ensures r.Got? ==> Size(r.toks) <= Size(rest)
    decreases Size(rest), 14
  {
    if name == "true" || name == "false" then Got(BoolLit(name == "true"), rest, n)
    else if name == "null" then Got(NullLit, rest, n)
    else if name == "undefined" then Got(UndefLit, rest, n)
    else if name == "function" then ParseFunction(rest, n)
    else if IsBanned(name) then Fail
    else if At(rest, "=>") then ParseArrowBody([name], rest[1..], n)
    else Got(Ident(name), rest, n)
  }

  function ParseArrowBody(params: seq<string>, toks: seq<Token>, n: nat): (r: Parsed<Node>)
    ensures r.Got? ==> Size(r.toks) < Size(toks)
    decreases Size(toks), 14
  {
    if At(toks, "{") then
      var (body, t1, n1) :- ParseBody(Rest(toks), n, []);
      Got(FnLit(params, body), t1, n1)
    else
      var (expr, t1, n1) :- ParseAssign(toks, n);
      Got(ArrowLit(params, expr), t1, n1)
  }

  /** A function literal after its keyword; its own name, if any, is ignored. */
  function ParseFunction(toks: seq<Token>, n: nat): (r: Parsed<Node>)
    ensures r.Got? ==> Size(r.toks) < Size(toks)
    decreases Size(toks), 2
  {
    var t := if Peek(toks).Name? then Rest(toks) else toks;
    if !At(t, "(") then Fail
    else
      var (params, t1, n1) :- ParseParams(Rest(t), n, []);
      if !At(t1, "{") then Fail
      else
        var (body, t2, n2) :- ParseBody(Rest(t1), n1, []);
        Got(FnLit(params, body), t2, n2)
  }

  function ParseParams(toks: seq<Token>, n: nat, params: seq<string>): (r: Parsed<seq<string>>)
    ensures r.Got? ==> Size(r.toks) < Size(toks)
    decreases Size(toks), 0
  {
    if At(toks, ")") then Got(params, Rest(toks), n)
    else if !Peek(toks).Name? then Fail
    else
      var (all, t) := (params + [toks[0].text], Rest(toks));
      if At(t, ",") then ParseParams(Rest(t), n, all)
      else if At(t, ")") then Got(all, Rest(t), n)
      else Fail
  }

  function KeyOf(t: Token): string
    requires t.Name? || t.Text? || t.Number?
  {
    if t.Name? then t.text else if t.Text? then t.str else t.key
  }

  /** Fields of an object after those read so far. */
  function ParseFields(toks: seq<Token>, n: nat, keys: seq<string>, values: seq<Node>): (r: Parsed<Node>)
    ensures r.Got? ==> Size(r.toks) < Size(toks)
    decreases Size(toks), 1
  {
    if At(toks, "}") then Got(ObjLit(keys, values), Rest(toks), n)
    else
      var t := Peek(toks);
      if !t.Name? && !t.Text? && !t.Number? then Fail
      else if !At(Rest(toks), ":") then Fail
      else
        var key := KeyOf(t);
        var (value, t1, n1) :- ParseAssign(Rest(Rest(toks)), n);
        if At(t1, ",") then ParseFields(Rest(t1), n1, keys + [key], values + [value])
        else if At(t1, "}") then Got(ObjLit(keys + [key], values + [value]), Rest(t1), n1)
        else Fail
  }

  lemma {:induction false} FieldsUnfold(toks: seq<Token>, n: nat, keys: seq<string>, values: seq<Node>)
    ensures ParseFields(toks, n, keys, values) ==
            if At(toks, "}") then Got(ObjLit(keys, values), Rest(toks), n)
            else if !(Peek(toks).Name? || Peek(toks).Text? || Peek(toks).Number?) || !At(Rest(toks), ":") then Fail
            else
              match ParseAssign(Rest(Rest(toks)), n) {
                case Fail => Fail
                case Got(value, t1, n1) =>
                  if At(t1, ",") then ParseFields(Rest(t1), n1, keys + [KeyOf(toks[0])], values + [value])
                  else if At(t1, "}") then Got(ObjLit(keys + [KeyOf(toks[0])], values + [value]), Rest(t1), n1)
                  else Fail
              }
  {
  }

  function Prepended(before: seq<Node>, rest: Option<seq<Node>>): Option<seq<Node>> {
    match rest
    case None => None
    case Some(nodes) => Some(before + nodes)
  }

  lemma {:induction false} TemplateUnfolds(rest: seq<Source>, exprs: seq<Source>, i: nat)
    requires i < |exprs| && rest == exprs[i..]
    ensures ParseTemplate(rest) ==
            if rest[0].Unreadable? then None
            else
              match ParseProgram(rest[0].toks) {
                case None => None
                case Some(e) => Prepended([e], ParseTemplate(rest[1..]))
              }
    ensures rest[0].Source? ==> Size(rest[0].toks) <= ExprsSize(exprs)
  {
    if exprs[i].Source? {
      SizeWithin(exprs, i);
    }
  }

  lemma {:induction false} SizeWithin(exprs: seq<Source>, i: nat)
    requires i < |exprs| && exprs[i].Source?
    ensures Size(exprs[i].toks) <= ExprsSize(exprs)
  {
    if i > 0 {
      SizeWithin(exprs[1..], i - 1);
    }
  }

  lemma PrependedTwice(a: seq<Node>, e: Node, rest: Option<seq<Node>>)
    ensures Prepended(a, Prepended([e], rest)) == Prepended(a + [e], rest)
    ensures Prepended([], rest) == rest
  {
    if rest.Some? {
      assert a + ([e] + rest.value) == a + [e] + rest.value;
      assert [] + rest.value == rest.value;
    }
  }

  lemma NoTemplate(exprs: seq<Source>)
    ensures ParseTemplate(exprs[|exprs|..]) == Some([])
  {
  }

  // ---------------------------------------------------------------------------------------------
  // Statements
  // ---------------------------------------------------------------------------------------------

  /** Statements up to the closing brace, after those read so far. */
  function ParseBody(toks: seq<Token>, n: nat, body: seq<Stmt>): (r: Parsed<seq<Stmt>>)
    ensures r.Got? ==> Size(r.toks) < Size(toks)
    decreases Size(toks), 17
  {
    if At(toks, "}") then Got(body, Rest(toks), n)
    else if toks == [] then Fail
    else
      var (item, t1, n1) :- ParseStatement(toks, n);
      ParseBody(t1, n1, body + [item])
  }

  lemma {:induction false} BodyUnfolds(toks: seq<Token>, n: nat, body: seq<Stmt>)
    ensures ParseBody(toks, n, body) ==
            if At(toks, "}") then Got(body, Rest(toks), n)
            else if toks == [] then Fail
            else
              match ParseStatement(toks, n) {
                case Fail => Fail
                case Got(item, t1, n1) => ParseBody(t1, n1, body + [item])
              }
  {
  }

  function ParseStatement(toks: seq<Token>, n: nat): (r: Parsed<Stmt>)
    ensures r.Got? ==> Size(r.toks) < Size(toks)
    decreases Size(toks), 16
  {
    if n >= MAX_NODES then Fail
    else if At(toks, "{") then
      var (body, t1, n1) :- ParseBody(Rest(toks), n + 1, []);
      Got(Block(body), t1, n1)
    else if At(toks, ";") then Got(Block([]), Rest(toks), n + 1)
    else if AtName(toks, "var") || AtName(toks, "let") || AtName(toks, "const")
      then ParseVarDecl(Rest(toks), n + 1, [], [])
    else if AtName(toks, "return") then ParseReturn(Rest(toks), n + 1)
    else if AtName(toks, "if") then ParseIf(Rest(toks), n + 1)
    else if AtName(toks, "for") then ParseForOf(Rest(toks), n + 1)
    else if Peek(toks).Name? && IsBanned(toks[0].text) then Fail
    else
      var (e, t1, n1) :- ParseExpression(toks, n + 1);
      Got(ExprStmt(e), Skip(t1, ";"), n1)
  }

  function ParseReturn(toks: seq<Token>, n: nat): (r: Parsed<Stmt>)
    ensures r.Got? ==> Size(r.toks) <= Size(toks)
    decreases Size(toks), 15
  {
    if At(toks, ";") || At(toks, "}") then Got(Return(None), Skip(toks, ";"), n)
    else
      var (arg, t1, n1) :- ParseExpression(toks, n);
      Got(Return(Some(arg)), Skip(t1, ";"), n1)
  }

  function ParseVarDecl(toks: seq<Token>, n: nat, names: seq<string>, inits: seq<Option<Node>>): (r: Parsed<Stmt>)
    ensures r.Got? ==> Size(r.toks) < Size(toks)
    decreases Size(toks), 0
  {
    if !Peek(toks).Name? then Fail
    else
      var t := Rest(toks);
      var (init, t1, n1) :- ParseInit(t, n);
      var (all, values) := (names + [toks[0].text], inits + [init]);
      if At(t1, ",") then ParseVarDecl(Rest(t1), n1, all, values) else Got(VarDecl(all, values), Skip(t1, ";"), n1)
  }

  lemma {:induction false} VarDeclUnfolds(toks: seq<Token>, n: nat, names: seq<string>, inits: seq<Option<Node>>)
    ensures ParseVarDecl(toks, n, names, inits) ==
            if !Peek(toks).Name? then Fail
            else
              match ParseInit(Rest(toks), n) {
                case Fail => Fail
                case Got(init, t1, n1) =>
                  if At(t1, ",") then ParseVarDecl(Rest(t1), n1, names + [toks[0].text], inits + [init])
                  else Got(VarDecl(names + [toks[0].text], inits + [init]), Skip(t1, ";"), n1)
              }
  {
  }

  function ParseInit(toks: seq<Token>, n: nat): (r: Parsed<Option<Node>>)
    ensures r.Got? ==> Size(r.toks) <= Size(toks)
    decreases Size(toks), 0
  {
    if At(toks, "=") then
      var (value, t1, n1) :- ParseAssign(Rest(toks), n);
      Got(Some(value), t1, n1)
    else Got(None, toks, n)
  }

  function ParseIf(toks: seq<Token>, n: nat): (r: Parsed<Stmt>)
    ensures r.Got? ==> Size(r.toks) < Size(toks)
    decreases Size(toks), 0
  {
    if !At(toks, "(") then Fail
    else
      var (test, t1, n1) :- ParseExpression(Rest(toks), n);
      if !At(t1, ")") then Fail
      else
        var (cons, t2, n2) :- ParseStatement(Rest(t1), n1);
        if AtName(t2, "else") then
          var (alt, t3, n3) :- ParseStatement(Rest(t2), n2);
          Got(If(test, cons, Some(alt)), t3, n3)
        else Got(If(test, cons, None), t2, n2)
  }

  /** The variable of a loop and what follows the word after it. */
  function LoopName(toks: seq<Token>): (r: Option<(string, seq<Token>)>)
    ensures r.Some? ==> Size(r.value.1) < Size(toks)
  {
    var t := if AtName(toks, "var") || AtName(toks, "let") || AtName(toks, "const") then Rest(toks) else toks;
    if Peek(t).Name? && AtName(Rest(t), "of") then Some((t[0].text, Rest(Rest(t)))) else None
  }

  function ParseForOf(toks: seq<Token>, n: nat): (r: Parsed<Stmt>)
    ensures r.Got? ==> Size(r.toks) < Size(toks)
    decreases Size(toks), 0
  {
    if !At(toks, "(") || LoopName(Rest(toks)).None? then Fail
    else
      var (name, t1) := LoopName(Rest(toks)).value;
      var (iter, t2, n2) :- ParseExpression(t1, n);
      if !At(t2, ")") then Fail
      else
        var (body, t3, n3) :- ParseStatement(Rest(t2), n2);
        Got(ForOf(name, iter, body), t3, n3)
  }
}
