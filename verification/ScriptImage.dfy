/** The printed trees are the parsed ones: whatever the parser (internal/script/parser.go) makes of any tokens can
    be printed, as far as its printed form keeps within the node budgets. */
module ScriptImage {
  import opened Lists
  import opened ScriptGrammar
  import opened ScriptPrinter

  /** Every expression of every template fits the node budget when it is printed on its own. */
  predicate TemplatesFit(e: Node)
    decreases e
  {
    match e
    case TmplLit(_, exprs) => ListFits(exprs) && AllFit(exprs)
    case ObjLit(_, values) => ListFits(values)
    case ArrLit(items) => ListFits(items)
    case Member(base, _, _) => TemplatesFit(base)
    case Element(base, prop, _) => TemplatesFit(base) && TemplatesFit(prop)
    case Call(callee, args, _) => TemplatesFit(callee) && ListFits(args)
    case Unary(_, arg) => TemplatesFit(arg)
    case Binary(_, left, right) => TemplatesFit(left) && TemplatesFit(right)
    case Logical(_, left, right) => TemplatesFit(left) && TemplatesFit(right)
    case Cond(test, cons, alt) => TemplatesFit(test) && TemplatesFit(cons) && TemplatesFit(alt)
    case Assign(target, _, value) => TemplatesFit(target) && TemplatesFit(value)
    case ArrowLit(_, expr) => TemplatesFit(expr)
    case FnLit(_, body) => BodyFits(body)
    case _ => true
  }

  predicate ListFits(es: seq<Node>)
    decreases es
  {
    es == [] || (TemplatesFit(es[0]) && ListFits(es[1..]))
  }

  predicate BodyFits(body: seq<Stmt>)
    decreases body
  {
    body == [] || (StmtFits(body[0]) && BodyFits(body[1..]))
  }

  predicate StmtFits(s: Stmt)
    decreases s
  {
    match s
    case VarDecl(_, inits) => InitsFit(inits)
    case Return(arg) => arg.None? || TemplatesFit(arg.value)
    case If(test, cons, alt) => TemplatesFit(test) && StmtFits(cons) && (alt.None? || StmtFits(alt.value))
    case Block(body) => BodyFits(body)
    case ExprStmt(expr) => TemplatesFit(expr)
    case ForOf(_, iter, loopBody) => TemplatesFit(iter) && StmtFits(loopBody)
  }

  predicate InitsFit(inits: seq<Option<Node>>)
    decreases inits
  {
    inits == [] || (InitFits(inits[0]) && InitsFit(inits[1..]))
  }

  predicate InitFits(init: Option<Node>)
    decreases init
  {
    match init
    case None => true
    case Some(e) => TemplatesFit(e)
  }

  // ---------------------------------------------------------------------------------------------
  // What parsing keeps
  // ---------------------------------------------------------------------------------------------

  predicate Good(e: Node) {
    TemplatesFit(e) ==> Printable(e)
  }

  predicate GoodList(es: seq<Node>) {
    ListFits(es) ==> AllPrintable(es)
  }

  predicate GoodStmt(s: Stmt) {
    StmtFits(s) ==> StmtPrintable(s)
  }

  predicate GoodBody(body: seq<Stmt>) {
    BodyFits(body) ==> AllStmtsPrintable(body)
  }

  predicate GoodInit(init: Option<Node>) {
    InitFits(init) ==> InitPrintable(init)
  }

  predicate GoodInits(inits: seq<Option<Node>>) {
    InitsFit(inits) ==> AllInitsPrintable(inits)
  }

  predicate GoodResult(r: Parsed<Node>) {
    r.Got? ==> Good(r.value)
  }

  /** A statement that an `else` could go on is not followed by one. */
  predicate GoodStatement(r: Parsed<Stmt>) {
    r.Got? ==> GoodStmt(r.value) && (EndsOpen(r.value) ==> !AtName(r.toks, "else"))
  }

  lemma {:induction false} OneMoreGood(es: seq<Node>, e: Node)
    requires GoodList(es) && Good(e)
    ensures GoodList(es + [e])
  {
    FitsAppend(es, e);
    hide TemplatesFit, Printable;
  }

  lemma {:induction false} FitsAppend(es: seq<Node>, e: Node)
    ensures ListFits(es + [e]) <==> ListFits(es) && TemplatesFit(e)
    ensures AllPrintable(es + [e]) <==> AllPrintable(es) && Printable(e)
  {
    hide TemplatesFit, Printable;
    if es == [] {
      assert [] + [e] == [e];
    } else {
      assert (es + [e])[1..] == es[1..] + [e];
      FitsAppend(es[1..], e);
    }
  }

  lemma {:induction false} OneMoreGoodStmt(body: seq<Stmt>, s: Stmt)
    requires GoodBody(body) && GoodStmt(s)
    ensures GoodBody(body + [s])
  {
    BodyAppend(body, s);
    hide StmtFits, StmtPrintable;
  }

  lemma {:induction false} BodyAppend(body: seq<Stmt>, s: Stmt)
    ensures BodyFits(body + [s]) <==> BodyFits(body) && StmtFits(s)
    ensures AllStmtsPrintable(body + [s]) <==> AllStmtsPrintable(body) && StmtPrintable(s)
  {
    hide StmtFits, StmtPrintable;
    if body == [] {
      assert [] + [s] == [s];
    } else {
      assert (body + [s])[1..] == body[1..] + [s];
      BodyAppend(body[1..], s);
    }
  }

  lemma {:induction false} OneMoreGoodInit(inits: seq<Option<Node>>, init: Option<Node>)
    requires GoodInits(inits) && GoodInit(init)
    ensures GoodInits(inits + [init])
  {
    InitsAppend(inits, init);
    hide InitFits, InitPrintable;
  }

  lemma {:induction false} InitsAppend(inits: seq<Option<Node>>, init: Option<Node>)
    ensures InitsFit(inits + [init]) <==> InitsFit(inits) && InitFits(init)
    ensures AllInitsPrintable(inits + [init]) <==> AllInitsPrintable(inits) && InitPrintable(init)
  {
    hide InitFits, InitPrintable;
    if inits == [] {
      assert [] + [init] == [init];
    } else {
      assert (inits + [init])[1..] == inits[1..] + [init];
      InitsAppend(inits[1..], init);
    }
  }

  lemma NothingYet()
    ensures GoodList([]) && GoodBody([]) && GoodInits([])
  {
  }

  // ---------------------------------------------------------------------------------------------
  // Trees out of good parts
  // ---------------------------------------------------------------------------------------------

  lemma GoodOperator(k: nat, t: Token, left: Node, right: Node)
    requires 2 <= k <= 7 && IsOp(k, t) && Good(left) && Good(right)
    ensures Good(Combined(k, t.text, left, right))
  {
    LevelIs(k, t);
    OperatorParts(k, t.text, left, right);
    hide IsOp, LevelOfOp, Printable, TemplatesFit, Combined;
  }

  lemma OperatorParts(k: nat, op: string, left: Node, right: Node)
    requires 2 <= k <= 7 && LevelOfOp(op) == k
    ensures Printable(left) && Printable(right) ==> Printable(Combined(k, op, left, right))
    ensures TemplatesFit(Combined(k, op, left, right)) ==> TemplatesFit(left) && TemplatesFit(right)
  {
    if k <= 3 {
      LogicalParts(op, left, right);
    } else {
      BinaryParts(op, left, right);
    }
    hide LevelOfOp, Printable, TemplatesFit;
  }

  lemma LogicalParts(op: string, left: Node, right: Node)
    ensures Printable(Logical(op, left, right)) <==> 2 <= LevelOfOp(op) <= 3 && Printable(left) && Printable(right)
    ensures TemplatesFit(Logical(op, left, right)) <==> TemplatesFit(left) && TemplatesFit(right)
  {
    hide LevelOfOp;
  }

  lemma BinaryParts(op: string, left: Node, right: Node)
    ensures Printable(Binary(op, left, right)) <==> 4 <= LevelOfOp(op) && Printable(left) && Printable(right)
    ensures TemplatesFit(Binary(op, left, right)) <==> TemplatesFit(left) && TemplatesFit(right)
  {
    hide LevelOfOp;
  }

  lemma LevelIs(k: nat, t: Token)
    requires 2 <= k <= 7 && IsOp(k, t)
    ensures t.Punct? && LevelOfOp(t.text) == k
  {
    assert t == Punct(t.text);
  }

  lemma GoodUnary(t: Token, arg: Node)
    requires IsUnaryOp(t) && Good(arg)
    ensures (t.Name? || t.Punct?) && Good(Unary(t.text, arg))
  {
  }

  lemma GoodAssign(target: Node, t: Token, value: Node)
    requires Good(target) && Good(value) && Assignable(target) && IsAssignOp(t)
    ensures Good(Assign(target, t.text, value))
  {
    assert t == Punct(t.text);
  }

  lemma GoodCond(test: Node, cons: Node, alt: Node)
    requires Good(test) && Good(cons) && Good(alt)
    ensures Good(Cond(test, cons, alt))
  {
  }

  lemma GoodMember(base: Node, name: string, optional: bool)
    requires Good(base)
    ensures Good(Member(base, name, optional))
  {
  }

  lemma GoodElement(base: Node, prop: Node, optional: bool)
    requires Good(base) && Good(prop)
    ensures Good(Element(base, prop, optional))
  {
  }

  lemma GoodCall(callee: Node, args: seq<Node>, optional: bool)
    requires Good(callee) && GoodList(args)
    ensures Good(Call(callee, args, optional))
  {
  }

  lemma GoodArray(items: seq<Node>)
    requires GoodList(items)
    ensures Good(ArrLit(items))
  {
  }

  lemma GoodObject(keys: seq<string>, values: seq<Node>)
    requires GoodList(values) && |keys| == |values|
    ensures Good(ObjLit(keys, values))
  {
  }

  lemma GoodTemplate(chunks: seq<string>, exprs: seq<Node>)
    requires GoodList(exprs)
    ensures Good(TmplLit(chunks, exprs))
  {
  }

  lemma GoodFunction(params: seq<string>, body: seq<Stmt>)
    requires GoodBody(body)
    ensures Good(FnLit(params, body))
  {
  }

  lemma GoodArrow(params: seq<string>, expr: Node)
    requires Good(expr)
    ensures Good(ArrowLit(params, expr))
  {
  }

  lemma GoodIdent(name: string)
    requires IsVariable(name)
    ensures Good(Ident(name))
  {
  }

  lemma GoodLiteral(e: Node)
    requires e.NumLit? || e.StrLit? || e.BoolLit? || e.NullLit? || e.UndefLit?
    ensures Good(e)
  {
  }

  // ---------------------------------------------------------------------------------------------
  // Expressions
  // ---------------------------------------------------------------------------------------------

  lemma {:induction false} ExpressionIsGood(toks: seq<Token>, n: nat)
    ensures GoodResult(ParseExpression(toks, n))
    decreases Size(toks), 14
  {
    AssignIsGood(toks, n + 1);
    hide Good, ParseAssign, Size;
  }

  lemma {:induction false} AssignIsGood(toks: seq<Token>, n: nat)
    ensures GoodResult(ParseAssign(toks, n))
    decreases Size(toks), 13
  {
    ConditionalIsGood(toks, n);
    AssignUnfolds(toks, n);
    hide Good, ParseAssign, ParseConditional, IsAssignOp, Assignable;
    match ParseConditional(toks, n) {
      case Fail =>
      case Got(left, t1, n1) =>
        if IsAssignOp(Peek(t1)) && Assignable(left) {
          OpIsThere(t1);
          AssignIsGood(Rest(t1), n1);
          if ParseAssign(Rest(t1), n1).Got? {
            GoodAssign(left, t1[0], ParseAssign(Rest(t1), n1).value);
          }
        }
    }
  }

  lemma OpIsThere(toks: seq<Token>)
    requires IsAssignOp(Peek(toks))
    ensures toks != [] && toks[0] == Peek(toks)
  {
  }

  lemma {:induction false} ConditionalIsGood(toks: seq<Token>, n: nat)
    ensures GoodResult(ParseConditional(toks, n))
    decreases Size(toks), 12
  {
    LevelIsGood(2, toks, n);
    ConditionalUnfolds(toks, n);
    hide Good, ParseAssign, ParseConditional, ParseLevel;
    match ParseLevel(2, toks, n) {
      case Fail =>
      case Got(test, t1, n1) =>
        if At(t1, "?") {
          AssignIsGood(Rest(t1), n1);
          match ParseAssign(Rest(t1), n1) {
            case Fail =>
            case Got(cons, t2, n2) =>
              if At(t2, ":") {
                AssignIsGood(Rest(t2), n2);
                if ParseAssign(Rest(t2), n2).Got? {
                  GoodCond(test, cons, ParseAssign(Rest(t2), n2).value);
                }
              }
          }
        }
    }
  }

  lemma {:induction false} LevelIsGood(k: nat, toks: seq<Token>, n: nat)
    requires 2 <= k <= 8
    ensures GoodResult(ParseLevel(k, toks, n))
    decreases Size(toks), 12 - k
  {
    hide Good, ParseLevel, ParseChain, ParsePostfix, IsOp, IsUnaryOp;
    if k == 8 {
      UnaryUnfolds(toks, n);
      if IsUnaryOp(Peek(toks)) {
        UnaryIsThere(toks);
        LevelIsGood(8, Rest(toks), n);
        if ParseLevel(8, Rest(toks), n).Got? {
          GoodUnary(toks[0], ParseLevel(8, Rest(toks), n).value);
        }
      } else {
        PostfixIsGood(toks, n);
      }
    } else {
      LevelUnfolds(k, toks, n);
      LevelIsGood(k + 1, toks, n);
      match ParseLevel(k + 1, toks, n) {
        case Fail =>
        case Got(left, t1, n1) => ChainIsGood(k, left, t1, n1);
      }
    }
  }

  lemma UnaryIsThere(toks: seq<Token>)
    requires IsUnaryOp(Peek(toks))
    ensures toks != [] && toks[0] == Peek(toks)
  {
  }

  lemma {:induction false} ChainIsGood(k: nat, left: Node, toks: seq<Token>, n: nat)
    requires 2 <= k <= 7 && Good(left)
    ensures GoodResult(ParseChain(k, left, toks, n))
    decreases Size(toks), 0
  {
    hide Good, ParseLevel, ParseChain, IsOp, Combined;
    ChainUnfolds(k, left, toks, n);
    if IsOp(k, Peek(toks)) {
      LevelIsGood(k + 1, Rest(toks), n);
      match ParseLevel(k + 1, Rest(toks), n) {
        case Fail =>
        case Got(right, t1, n1) =>
          LevelIs(k, toks[0]);
          GoodOperator(k, toks[0], left, right);
          ChainIsGood(k, Combined(k, toks[0].text, left, right), t1, n1 + 1);
      }
    }
  }

  lemma {:induction false} PostfixIsGood(toks: seq<Token>, n: nat)
    requires !IsUnaryOp(Peek(toks))
    ensures GoodResult(ParsePostfix(toks, n))
    decreases Size(toks), 2
  {
    hide Good, ParsePostfix, ParsePrimary, ParseTail, IsUnaryOp;
    PostfixUnfolds(toks, n);
    PrimaryIsGood(toks, n);
    match ParsePrimary(toks, n) {
      case Fail =>
      case Got(base, t1, n1) => TailIsGood(base, t1, n1);
    }
  }

  lemma {:induction false} TailIsGood(e: Node, toks: seq<Token>, n: nat)
    requires Good(e)
    ensures GoodResult(ParseTail(e, toks, n))
    decreases Size(toks), 2
  {
    hide Good, ParseTail, ParseMember, ParseElement, CalledTail;
    TailUnfolds(e, toks, n);
    if n >= MAX_NODES {
    } else if At(toks, ".") {
      MemberIsGood(e, false, Rest(toks), n + 1);
    } else if At(toks, "?.") {
      var t := Rest(toks);
      if At(t, "(") {
        CallIsGood(e, true, t, n + 1);
      } else if At(t, "[") {
        ElementIsGood(e, true, Rest(t), n + 1);
      } else {
        MemberIsGood(e, true, t, n + 1);
      }
    } else if At(toks, "[") {
      ElementIsGood(e, false, Rest(toks), n + 1);
    } else if At(toks, "(") {
      CallIsGood(e, false, toks, n + 1);
    }
  }

  lemma {:induction false} CallIsGood(e: Node, optional: bool, toks: seq<Token>, n: nat)
    requires Good(e) && At(toks, "(")
    ensures GoodResult(CalledTail(e, optional, toks, n))
    decreases Size(toks), 1
  {
    ArgsAre(toks, n);
    NothingYet();
    ListIsGood(")", Rest(toks), n, []);
    hide Good, GoodList, ParseTail, ParseArgs, ParseList;
    match ParseArgs(toks, n) {
      case Fail =>
      case Got(args, t1, n1) =>
        GoodCall(e, args, optional);
        TailIsGood(Call(e, args, optional), t1, n1);
    }
  }

  lemma ArgsAre(toks: seq<Token>, n: nat)
    requires At(toks, "(")
    ensures ParseArgs(toks, n) == ParseList(")", Rest(toks), n, [])
  {
    hide ParseList, Size;
  }

  lemma {:induction false} MemberIsGood(e: Node, optional: bool, toks: seq<Token>, n: nat)
    requires Good(e)
    ensures GoodResult(ParseMember(e, optional, toks, n))
    decreases Size(toks), 1
  {
    hide Good, ParseTail;
    if Peek(toks).Name? {
      GoodMember(e, toks[0].text, optional);
      TailIsGood(Member(e, toks[0].text, optional), Rest(toks), n);
    }
  }

  lemma {:induction false} ElementIsGood(e: Node, optional: bool, toks: seq<Token>, n: nat)
    requires Good(e)
    ensures GoodResult(ParseElement(e, optional, toks, n))
    decreases Size(toks), 15
  {
    ExpressionIsGood(toks, n);
    hide Good, ParseTail, ParseExpression;
    match ParseExpression(toks, n) {
      case Fail =>
      case Got(prop, t1, n1) =>
        if At(t1, "]") {
          GoodElement(e, prop, optional);
          TailIsGood(Element(e, prop, optional), Rest(t1), n1);
        }
    }
  }

  lemma {:induction false} ListIsGood(close: string, toks: seq<Token>, n: nat, items: seq<Node>)
    requires GoodList(items)
    ensures ParseList(close, toks, n, items).Got? ==> GoodList(ParseList(close, toks, n, items).value)
    decreases Size(toks), 15
  {
    hide Good, GoodList, ParseList, ParseAssign;
    ListUnfolds(close, toks, n, items);
    if !At(toks, close) {
      AssignIsGood(toks, n);
      match ParseAssign(toks, n) {
        case Fail =>
        case Got(item, t1, n1) =>
          OneMoreGood(items, item);
          if At(t1, ",") {
            ListIsGood(close, Rest(t1), n1, items + [item]);
          }
      }
    }
  }

  // ---------------------------------------------------------------------------------------------
  // Primary expressions
  // ---------------------------------------------------------------------------------------------

  lemma {:induction false} PrimaryIsGood(toks: seq<Token>, n: nat)
    requires !IsUnaryOp(Peek(toks))
    ensures GoodResult(ParsePrimary(toks, n))
    decreases Size(toks), 1
  {
    if n < MAX_NODES && toks != [] {
      match toks[0] {
        case Number(number, _) => GoodLiteral(NumLit(number));
        case Text(str) => GoodLiteral(StrLit(str));
        case Template(chunks, exprs) =>
          TemplateSize(toks);
          TemplateIsGood(exprs);
          if ParseTemplate(exprs).Some? {
            GoodTemplate(chunks, ParseTemplate(exprs).value);
          }
        case Name(text) => NameIsGood(text, Rest(toks), n + 1);
        case Punct(text) => PunctIsGood(toks, n);
        case EndOfFile =>
      }
    }
    hide Good, GoodList, ParseTemplate, ParseName, ParseArrowBody, ParseExpression, ParseFields, ParseList,
         ArrowParams, Size, TokenSize;
  }

  lemma {:induction false} PunctIsGood(toks: seq<Token>, n: nat)
    requires n < MAX_NODES && toks != [] && toks[0].Punct?
    ensures GoodResult(ParsePrimary(toks, n))
    decreases Size(toks), 0
  {
    var rest := Rest(toks);
    NothingYet();
    if At(toks, "(") {
      match ArrowParams(toks) {
        case Some((params, body)) => ArrowBodyIsGood(params, body, n + 1);
        case None => ExpressionIsGood(rest, n + 1);
      }
    } else if At(toks, "{") {
      FieldsAreGood(rest, n + 1, [], []);
    } else if At(toks, "[") {
      ListIsGood("]", rest, n + 1, []);
      if ParseList("]", rest, n + 1, []).Got? {
        GoodArray(ParseList("]", rest, n + 1, []).value);
      }
    }
    hide Good, GoodList, ParseTemplate, ParseName, ParseArrowBody, ParseExpression, ParseFields, ParseList,
         ArrowParams, Size, TokenSize;
  }

  lemma {:induction false} TemplateIsGood(exprs: seq<Source>)
    ensures ParseTemplate(exprs).Some? ==> GoodList(ParseTemplate(exprs).value)
    decreases ExprsSize(exprs), 16, |exprs|
  {
    NothingYet();
    if exprs != [] && exprs[0].Source? {
      ProgramIsGood(exprs[0].toks);
      TemplateIsGood(exprs[1..]);
      if ParseProgram(exprs[0].toks).Some? && ParseTemplate(exprs[1..]).Some? {
        GoodInFront(ParseProgram(exprs[0].toks).value, ParseTemplate(exprs[1..]).value);
      }
    }
    hide Good, GoodList, ParseProgram, Size;
  }

  lemma GoodInFront(e: Node, es: seq<Node>)
    requires Good(e) && GoodList(es)
    ensures GoodList([e] + es)
  {
    hide TemplatesFit, Printable;
    assert ([e] + es)[1..] == es;
  }

  lemma {:induction false} ProgramIsGood(toks: seq<Token>)
    ensures ParseProgram(toks).Some? ==> Good(ParseProgram(toks).value)
    decreases Size(toks), 15
  {
    ExpressionIsGood(toks, 0);
    hide Good, ParseExpression, Size;
  }

  lemma {:induction false} NameIsGood(name: string, rest: seq<Token>, n: nat)
    requires name != "typeof"
    ensures GoodResult(ParseName(name, rest, n))
    decreases Size(rest), 14
  {
    GoodLiteral(BoolLit(name == "true"));
    GoodLiteral(NullLit);
    GoodLiteral(UndefLit);
    if name == "function" {
      FunctionIsGood(rest, n);
    } else if name !in {"true", "false", "null", "undefined"} && !IsBanned(name) {
      GoodIdent(name);
      if At(rest, "=>") {
        ArrowBodyIsGood([name], Rest(rest), n);
      }
    }
    hide Good, IsBanned, ParseFunction, ParseArrowBody, Size;
  }

  lemma {:induction false} ArrowBodyIsGood(params: seq<string>, toks: seq<Token>, n: nat)
    ensures GoodResult(ParseArrowBody(params, toks, n))
    decreases Size(toks), 14
  {
    NothingYet();
    if At(toks, "{") {
      BodyIsGood(Rest(toks), n, []);
      if ParseBody(Rest(toks), n, []).Got? {
        GoodFunction(params, ParseBody(Rest(toks), n, []).value);
      }
    } else {
      AssignIsGood(toks, n);
      if ParseAssign(toks, n).Got? {
        GoodArrow(params, ParseAssign(toks, n).value);
      }
    }
    hide Good, GoodBody, ParseBody, ParseAssign, Size;
  }

  lemma {:induction false} FunctionIsGood(toks: seq<Token>, n: nat)
    ensures GoodResult(ParseFunction(toks, n))
    decreases Size(toks), 2
  {
    NothingYet();
    var t := if Peek(toks).Name? then Rest(toks) else toks;
    if At(t, "(") {
      match ParseParams(Rest(t), n, []) {
        case Fail =>
        case Got(params, t1, n1) =>
          if At(t1, "{") {
            BodyIsGood(Rest(t1), n1, []);
            if ParseBody(Rest(t1), n1, []).Got? {
              GoodFunction(params, ParseBody(Rest(t1), n1, []).value);
            }
          }
      }
    }
    hide Good, GoodBody, ParseBody, ParseParams, Size;
  }

  lemma {:induction false} FieldsAreGood(toks: seq<Token>, n: nat, keys: seq<string>, values: seq<Node>)
    requires GoodList(values) && |keys| == |values|
    ensures GoodResult(ParseFields(toks, n, keys, values))
    decreases Size(toks), 1
  {
    hide Good, GoodList, ParseFields, ParseAssign;
    FieldsUnfold(toks, n, keys, values);
    if At(toks, "}") {
      GoodObject(keys, values);
    } else if (Peek(toks).Name? || Peek(toks).Text? || Peek(toks).Number?) && At(Rest(toks), ":") {
      var key := KeyOf(toks[0]);
      AssignIsGood(Rest(Rest(toks)), n);
      match ParseAssign(Rest(Rest(toks)), n) {
        case Fail =>
        case Got(value, t1, n1) =>
          OneMoreGood(values, value);
          GoodObject(keys + [key], values + [value]);
          if At(t1, ",") {
            FieldsAreGood(Rest(t1), n1, keys + [key], values + [value]);
          }
      }
    }
  }

  // ---------------------------------------------------------------------------------------------
  // Statements
  // ---------------------------------------------------------------------------------------------

  lemma {:induction false} BodyIsGood(toks: seq<Token>, n: nat, body: seq<Stmt>)
    requires GoodBody(body)
    ensures ParseBody(toks, n, body).Got? ==> GoodBody(ParseBody(toks, n, body).value)
    decreases Size(toks), 17
  {
    hide GoodBody, GoodStmt, ParseBody, ParseStatement;
    BodyUnfolds(toks, n, body);
    if !At(toks, "}") && toks != [] {
      StatementIsGood(toks, n);
      match ParseStatement(toks, n) {
        case Fail =>
        case Got(item, t1, n1) =>
          OneMoreGoodStmt(body, item);
          BodyIsGood(t1, n1, body + [item]);
      }
    }
  }

  lemma {:induction false} StatementIsGood(toks: seq<Token>, n: nat)
    ensures GoodStatement(ParseStatement(toks, n))
    decreases Size(toks), 16
  {
    NoStatement();
    NothingYet();
    if n >= MAX_NODES {
    } else if At(toks, "{") {
      BodyIsGood(Rest(toks), n + 1, []);
      if ParseBody(Rest(toks), n + 1, []).Got? {
        var r := ParseBody(Rest(toks), n + 1, []);
        GoodBlock(r.value, r.toks, r.nodes);
      }
    } else if At(toks, ";") {
      GoodBlock([], Rest(toks), n + 1);
    } else if AtName(toks, "var") || AtName(toks, "let") || AtName(toks, "const") {
      VarDeclIsGood(Rest(toks), n + 1, [], []);
    } else if AtName(toks, "return") {
      ReturnIsGood(Rest(toks), n + 1);
    } else if AtName(toks, "if") {
      IfIsGood(Rest(toks), n + 1);
    } else if AtName(toks, "for") {
      ForOfIsGood(Rest(toks), n + 1);
    } else {
      ExpressionIsGood(toks, n + 1);
      if ParseExpression(toks, n + 1).Got? {
        var r := ParseExpression(toks, n + 1);
        GoodExprStmt(r.value, Skip(r.toks, ";"), r.nodes);
      }
    }
    hide Good, GoodBody, GoodStatement, ParseBody, ParseVarDecl, ParseReturn, ParseIf, ParseForOf, ParseExpression,
         Size, IsBanned;
  }

  lemma GoodBlock(body: seq<Stmt>, toks: seq<Token>, n: nat)
    requires GoodBody(body)
    ensures GoodStatement(Got(Block(body), toks, n))
  {
    hide BodyFits, AllStmtsPrintable;
  }

  lemma GoodExprStmt(e: Node, toks: seq<Token>, n: nat)
    requires Good(e)
    ensures GoodStatement(Got(ExprStmt(e), toks, n))
  {
    hide TemplatesFit, Printable;
  }

  lemma {:induction false} ReturnIsGood(toks: seq<Token>, n: nat)
    ensures GoodStatement(ParseReturn(toks, n))
    decreases Size(toks), 15
  {
    if !At(toks, ";") && !At(toks, "}") {
      ExpressionIsGood(toks, n);
    }
    hide Printable, TemplatesFit, ParseExpression, Size;
  }

  lemma {:induction false} VarDeclIsGood(toks: seq<Token>, n: nat, names: seq<string>, inits: seq<Option<Node>>)
    requires |names| == |inits| && GoodInits(inits)
    ensures GoodStatement(ParseVarDecl(toks, n, names, inits))
    decreases Size(toks), 0
  {
    hide GoodInits, GoodInit, ParseVarDecl, ParseInit, GoodStatement;
    VarDeclUnfolds(toks, n, names, inits);
    if Peek(toks).Name? {
      InitIsGood(Rest(toks), n);
      match ParseInit(Rest(toks), n) {
        case Fail =>
        case Got(init, t1, n1) =>
          OneMoreGoodInit(inits, init);
          var all, values := names + [toks[0].text], inits + [init];
          GoodVarDecl(all, values, Skip(t1, ";"), n1);
          if At(t1, ",") {
            VarDeclIsGood(Rest(t1), n1, all, values);
          }
      }
    }
    NoStatement();
  }

  lemma NoStatement()
    ensures GoodStatement(Fail)
  {
  }

  lemma GoodVarDecl(names: seq<string>, inits: seq<Option<Node>>, toks: seq<Token>, n: nat)
    requires |names| == |inits| > 0 && GoodInits(inits)
    ensures GoodStatement(Got(VarDecl(names, inits), toks, n))
  {
    hide InitsFit, AllInitsPrintable;
  }

  lemma {:induction false} InitIsGood(toks: seq<Token>, n: nat)
    ensures ParseInit(toks, n).Got? ==> GoodInit(ParseInit(toks, n).value)
    decreases Size(toks), 0
  {
    if At(toks, "=") {
      AssignIsGood(Rest(toks), n);
    }
    hide Printable, TemplatesFit, ParseAssign, Size;
  }

  lemma {:induction false} IfIsGood(toks: seq<Token>, n: nat)
    ensures GoodStatement(ParseIf(toks, n))
    decreases Size(toks), 0
  {
    if At(toks, "(") {
      ExpressionIsGood(Rest(toks), n);
      match ParseExpression(Rest(toks), n) {
        case Fail =>
        case Got(test, t1, n1) =>
          if At(t1, ")") {
            StatementIsGood(Rest(t1), n1);
            match ParseStatement(Rest(t1), n1) {
              case Fail =>
              case Got(cons, t2, n2) =>
                if AtName(t2, "else") {
                  StatementIsGood(Rest(t2), n2);
                }
            }
          }
      }
    }
    hide Printable, TemplatesFit, ParseExpression, ParseStatement, Size;
  }

  lemma {:induction false} ForOfIsGood(toks: seq<Token>, n: nat)
    ensures GoodStatement(ParseForOf(toks, n))
    decreases Size(toks), 0
  {
    if At(toks, "(") && LoopName(Rest(toks)).Some? {
      var (_, t1) := LoopName(Rest(toks)).value;
      ExpressionIsGood(t1, n);
      match ParseExpression(t1, n) {
        case Fail =>
        case Got(iter, t2, n2) =>
          if At(t2, ")") {
            StatementIsGood(Rest(t2), n2);
          }
      }
    }
    hide Printable, TemplatesFit, ParseExpression, ParseStatement, LoopName, Size;
  }

  // ---------------------------------------------------------------------------------------------
  // Main results
  // ---------------------------------------------------------------------------------------------

  /** Printing what was parsed and parsing it again gives the same tree. */
  lemma Reprinted(toks: seq<Token>)
    requires ParseProgram(toks).Some?
    requires var e := ParseProgram(toks).value; TemplatesFit(e) && 1 + CostBare(e) <= MAX_NODES
    ensures ParseProgram(Bare(ParseProgram(toks).value)) == ParseProgram(toks)
  {
    ProgramIsGood(toks);
    hide ParseProgram, TemplatesFit, Printable, CostBare, Bare;
    ReadScript(ParseProgram(toks).value);
  }

  /** Within the node budgets a tree can be printed if and only if some script parses to it. */
  lemma PrintableIffParsed(e: Node)
    requires TemplatesFit(e) && 1 + CostBare(e) <= MAX_NODES
    ensures Printable(e) <==> exists toks :: ParseProgram(toks) == Some(e)
  {
    hide ParseProgram, TemplatesFit, Printable, CostBare, Bare;
    if Printable(e) {
      ReadScript(e);
    }
    forall toks | ParseProgram(toks) == Some(e) ensures Printable(e) {
      ProgramIsGood(toks);
    }
  }
}
