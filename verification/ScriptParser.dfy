/** The script parser (internal/script/parser.go): a recursive descent over a token list that ends in an
    end-of-file token, with a limit on the number of nodes.  Every method parses what `ScriptGrammar` says
    and never leaves the list. */
module ScriptParser {
  import opened Lists
  import opened ScriptGrammar

  lemma SliceOfSlice<T>(s: seq<T>, a: nat, b: nat, i: nat, j: nat)
    requires a <= b <= |s| && i <= j <= b - a
    ensures s[a..b][i..j] == s[a + i..a + j]
  {
    var inner, outer := s[a..b][i..j], s[a + i..a + j];
    assert forall k :: 0 <= k < j - i ==> inner[k] == s[a..b][i + k] == s[a + i + k] == outer[k];
  }

  class Parser {
    const tokens: seq<Token>
    var pos: nat
    var nodes: nat

    constructor (tokens: seq<Token>)
      requires tokens != [] && tokens[|tokens| - 1] == EndOfFile
      ensures Valid() && Remaining() == tokens[..|tokens| - 1] && nodes == 0
    {
      this.tokens := tokens;
      pos, nodes := 0, 0;
    }

    /** The position is always that of a token. */
    predicate Valid()
      reads this
    {
      tokens != [] && tokens[|tokens| - 1] == EndOfFile && pos < |tokens|
    }

    /** The tokens from the current one up to the end-of-file token. */
    ghost function Remaining(): seq<Token>
      requires Valid()
      reads this
    {
      tokens[pos..|tokens| - 1]
    }

    /** A result and where it leaves the parser. */
    ghost predicate Ends<T>(r: Option<T>, p: Parsed<T>)
      reads this
    {
      Valid() &&
      match p
      case Fail => r.None?
      case Got(value, toks, n) => r == Some(value) && Remaining() == toks && nodes == n
    }

    method Cur() returns (t: Token)
      requires Valid()
      ensures t == Peek(Remaining())
      ensures t != EndOfFile ==> pos + 1 < |tokens| && Remaining() != [] && t == Remaining()[0]
    {
      t := tokens[pos];
    }

    method Next()
      requires Valid() && Remaining() != []
      modifies this`pos
      ensures Valid() && Remaining() == Rest(old(Remaining()))
    {
      pos := pos + 1;
    }

    method Count() returns (ok: bool)
      modifies this`nodes
      ensures nodes == old(nodes) + 1 && ok == (old(nodes) < MAX_NODES)
    {
      nodes := nodes + 1;
      ok := nodes <= MAX_NODES;
    }

    method IsPunct(text: string) returns (yes: bool)
      requires Valid()
      ensures yes == At(Remaining(), text)
    {
      var t := Cur();
      yes := t == Punct(text);
    }

    method IsKeyword(word: string) returns (yes: bool)
      requires Valid()
      ensures yes == AtName(Remaining(), word)
    {
      var t := Cur();
      yes := t == Name(word);
    }

    method SkipPunct(text: string) returns (skipped: bool)
      requires Valid()
      modifies this`pos
      ensures Valid() && skipped == At(old(Remaining()), text)
      ensures Remaining() == Skip(old(Remaining()), text)
    {
      skipped := IsPunct(text);
      if skipped {
        Next();
      }
    }

    // -------------------------------------------------------------------------------------------
    // Expressions
    // -------------------------------------------------------------------------------------------

    method Expression() returns (r: Option<Node>)
      requires Valid()
      modifies this`pos, this`nodes
      ensures Ends(r, ParseExpression(old(Remaining()), old(nodes)))
      decreases Size(Remaining()), 14
    {
      var ok := Count();
      if !ok {
        return None;
      }
      r := AssignExpr();
    }

    method AssignExpr() returns (r: Option<Node>)
      requires Valid()
      modifies this`pos, this`nodes
      ensures Ends(r, ParseAssign(old(Remaining()), old(nodes)))
      decreases Size(Remaining()), 13
    {
      var left := Conditional();
      if left.None? {
        return None;
      }
      var t := Cur();
      if !IsAssignOp(t) {
        return left;
      }
      if !Assignable(left.value) {
        return None;
      }
      Next();
      var value := AssignExpr();
      if value.None? {
        return None;
      }
      return Some(Assign(left.value, t.text, value.value));
    }

    method Conditional() returns (r: Option<Node>)
      requires Valid()
      modifies this`pos, this`nodes
      ensures Ends(r, ParseConditional(old(Remaining()), old(nodes)))
      decreases Size(Remaining()), 12
    {
      var test := LogicalOr();
      if test.None? {
        return None;
      }
      var asks := SkipPunct("?");
      if !asks {
        return test;
      }
      var cons := AssignExpr();
      if cons.None? {
        return None;
      }
      var colon := SkipPunct(":");
      if !colon {
        return None;
      }
      var alt := AssignExpr();
      if alt.None? {
        return None;
      }
      return Some(Cond(test.value, cons.value, alt.value));
    }

    method LogicalOr() returns (r: Option<Node>)
      requires Valid()
      modifies this`pos, this`nodes
      ensures Ends(r, ParseLevel(2, old(Remaining()), old(nodes)))
      decreases Size(Remaining()), 10
    {
      hide ParseLevel, ParseChain, Size;
      ghost var whole := ParseLevel(2, Remaining(), nodes);
      LevelUnfolds(2, Remaining(), nodes);
      r := LogicalAnd();
      if r.None? {
        return None;
      }
      while true
        invariant Valid() && r.Some? && Size(Remaining()) < Size(old(Remaining()))
        invariant whole == ParseChain(2, r.value, Remaining(), nodes)
        decreases Size(Remaining())
      {
        ChainUnfolds(2, r.value, Remaining(), nodes);
        var t := Cur();
        if t != Punct("||") && t != Punct("??") {
          return;
        }
        Next();
        var right := LogicalAnd();
        if right.None? {
          return None;
        }
        var ok := Count();
        if !ok {
          return None;
        }
        r := Some(Logical(t.text, r.value, right.value));
      }
    }

    method LogicalAnd() returns (r: Option<Node>)
      requires Valid()
      modifies this`pos, this`nodes
      ensures Ends(r, ParseLevel(3, old(Remaining()), old(nodes)))
      decreases Size(Remaining()), 9
    {
      hide ParseLevel, ParseChain, Size;
      ghost var whole := ParseLevel(3, Remaining(), nodes);
      LevelUnfolds(3, Remaining(), nodes);
      r := BinaryLevel(4);
      if r.None? {
        return None;
      }
      while true
        invariant Valid() && r.Some? && Size(Remaining()) < Size(old(Remaining()))
        invariant whole == ParseChain(3, r.value, Remaining(), nodes)
        decreases Size(Remaining())
      {
        ChainUnfolds(3, r.value, Remaining(), nodes);
        var t := Cur();
        if t != Punct("&&") {
          return;
        }
        Next();
        var right := BinaryLevel(4);
        if right.None? {
          return None;
        }
        var ok := Count();
        if !ok {
          return None;
        }
        r := Some(Logical("&&", r.value, right.value));
      }
    }

    /** The levels from equality down to products; below them are the unary operators. */
    method BinaryLevel(k: nat) returns (r: Option<Node>)
      requires Valid() && 4 <= k <= 8
      modifies this`pos, this`nodes
      ensures Ends(r, ParseLevel(k, old(Remaining()), old(nodes)))
      decreases Size(Remaining()), 12 - k
    {
      if k == 8 {
        r := UnaryExpr();
        return;
      }
      r := Chain(k);
    }

    method Chain(k: nat) returns (r: Option<Node>)
      requires Valid() && 4 <= k <= 7
      modifies this`pos, this`nodes
      ensures Ends(r, ParseLevel(k, old(Remaining()), old(nodes)))
      decreases Size(Remaining()), 12 - k, 0
    {
      hide ParseLevel, ParseChain, Size;
      ghost var whole := ParseLevel(k, Remaining(), nodes);
      LevelUnfolds(k, Remaining(), nodes);
      r := BinaryLevel(k + 1);
      if r.None? {
        return None;
      }
      while true
        invariant Valid() && r.Some? && Size(Remaining()) < Size(old(Remaining()))
        invariant whole == ParseChain(k, r.value, Remaining(), nodes)
        decreases Size(Remaining())
      {
        ChainUnfolds(k, r.value, Remaining(), nodes);
        var t := Cur();
        if !IsOp(k, t) {
          return;
        }
        Next();
        var right := BinaryLevel(k + 1);
        if right.None? {
          return None;
        }
        var ok := Count();
        if !ok {
          return None;
        }
        r := Some(Binary(t.text, r.value, right.value));
      }
    }

    method UnaryExpr() returns (r: Option<Node>)
      requires Valid()
      modifies this`pos, this`nodes
      ensures Ends(r, ParseUnary(old(Remaining()), old(nodes)))
      decreases Size(Remaining()), 3
    {
      var t := Cur();
      if !IsUnaryOp(t) {
        r := Postfix();
        return;
      }
      Next();
      var arg := UnaryExpr();
      if arg.None? {
        return None;
      }
      var ok := Count();
      if !ok {
        return None;
      }
      return Some(Unary(t.text, arg.value));
    }

    /** An expression followed by members, elements and calls. */
    method Postfix() returns (r: Option<Node>)
      requires Valid()
      modifies this`pos, this`nodes
      ensures Ends(r, ParsePostfix(old(Remaining()), old(nodes)))
      decreases Size(Remaining()), 2
    {
      hide ParsePostfix, ParseTail, ParsePrimary, Size;
      ghost var whole := ParsePostfix(Remaining(), nodes);
      PostfixUnfolds(Remaining(), nodes);
      r := Primary();
      if r.None? {
        return None;
      }
      while true
        invariant Valid() && r.Some? && Size(Remaining()) < Size(old(Remaining()))
        invariant whole == ParseTail(r.value, Remaining(), nodes)
        decreases Size(Remaining())
      {
        var more;
        r, more := TailStep(r.value);
        if r.None? || !more {
          return;
        }
      }
    }

    /** One turn of the loop over members, elements and calls. */
    method TailStep(e: Node) returns (r: Option<Node>, more: bool)
      requires Valid()
      modifies this`pos, this`nodes
      ensures Valid() && (r.Some? ==> Size(Remaining()) <= Size(old(Remaining())))
      ensures var whole := ParseTail(e, old(Remaining()), old(nodes));
              if r.Some? && more
              then Size(Remaining()) < Size(old(Remaining())) && whole == ParseTail(r.value, Remaining(), nodes)
              else Ends(r, whole)
      decreases Size(Remaining()), 1
    {
      hide ParseTail, ParseMember, ParseElement, ParseArgs, Size;
      TailUnfolds(e, Remaining(), nodes);
      more := false;
      var ok := Count();
      if !ok {
        return None, false;
      }
      var t := Cur();
      if t == Punct(".") {
        Next();
        r := MemberName(e, false);
      } else if t == Punct("?.") {
        Next();
        var t := Cur();
        if t == Punct("(") {
          r := Arguments(e, true);
        } else if t == Punct("[") {
          Next();
          r := ElementOf(e, true);
        } else {
          r := MemberName(e, true);
        }
      } else if t == Punct("[") {
        Next();
        r := ElementOf(e, false);
      } else if t == Punct("(") {
        r := Arguments(e, false);
      } else {
        return Some(e), false;
      }
      more := r.Some?;
    }

    method MemberName(e: Node, optional: bool) returns (r: Option<Node>)
      requires Valid()
      modifies this`pos
      ensures Valid()
      ensures r.Some? ==> Size(Remaining()) < Size(old(Remaining()))
      ensures var whole := ParseMember(e, optional, old(Remaining()), nodes);
              if r.Some? then whole == ParseTail(r.value, Remaining(), nodes) else whole.Fail?
    {
      hide ParseTail, Size;
      var t := Cur();
      if !t.Name? {
        return None;
      }
      Next();
      return Some(Member(e, t.text, optional));
    }

    method ElementOf(e: Node, optional: bool) returns (r: Option<Node>)
      requires Valid()
      modifies this`pos, this`nodes
      ensures Valid()
      ensures r.Some? ==> Size(Remaining()) < Size(old(Remaining()))
      ensures var whole := ParseElement(e, optional, old(Remaining()), old(nodes));
              if r.Some? then whole == ParseTail(r.value, Remaining(), nodes) else whole.Fail?
      decreases Size(Remaining()), 15
    {
      hide ParseTail, ParseExpression, Size;
      var prop := Expression();
      if prop.None? {
        return None;
      }
      var closed := SkipPunct("]");
      if !closed {
        return None;
      }
      return Some(Element(e, prop.value, optional));
    }

    method Arguments(e: Node, optional: bool) returns (r: Option<Node>)
      requires Valid() && At(Remaining(), "(")
      modifies this`pos, this`nodes
      ensures Valid()
      ensures r.Some? ==> Size(Remaining()) < Size(old(Remaining()))
      ensures match ParseArgs(old(Remaining()), old(nodes)) {
                case Fail => r.None?
                case Got(args, toks, n) => r == Some(Call(e, args, optional)) && Remaining() == toks && nodes == n
              }
      decreases Size(Remaining()), 0
    {
      hide ParseList, Size;
      Next();
      var args := List(")");
      if args.None? {
        return None;
      }
      return Some(Call(e, args.value, optional));
    }

    /** Expressions separated by commas up to a closing token. */
    method List(close: string) returns (r: Option<seq<Node>>)
      requires Valid()
      modifies this`pos, this`nodes
      ensures Ends(r, ParseList(close, old(Remaining()), old(nodes), []))
      decreases Size(Remaining()), 15
    {
      hide ParseList, ParseAssign, Size;
      ghost var whole := ParseList(close, Remaining(), nodes, []);
      var items := [];
      while true
        invariant Valid() && Size(Remaining()) <= Size(old(Remaining()))
        invariant whole == ParseList(close, Remaining(), nodes, items)
        decreases Size(Remaining())
      {
        ListUnfolds(close, Remaining(), nodes, items);
        var closed := SkipPunct(close);
        if closed {
          return Some(items);
        }
        var item := AssignExpr();
        if item.None? {
          return None;
        }
        items := items + [item.value];
        var comma := SkipPunct(",");
        if !comma {
          closed := SkipPunct(close);
          return if closed then Some(items) else None;
        }
      }
    }

    method Primary() returns (r: Option<Node>)
      requires Valid()
      modifies this`pos, this`nodes
      ensures Ends(r, ParsePrimary(old(Remaining()), old(nodes)))
      decreases Size(Remaining()), 1
    {
      hide ParseExpression, ParseArrowBody, ParseName, ParseFields, ParseList, ParseTemplate, ArrowParams, Size;
      var ok := Count();
      if !ok {
        return None;
      }
      var t := Cur();
      match t {
        case Number(number, _) =>
          Next();
          return Some(NumLit(number));
        case Text(str) =>
          Next();
          return Some(StrLit(str));
        case Template(chunks, exprs) =>
          TemplateSize(Remaining());
          Next();
          var parsed := TemplateExprs(exprs);
          return if parsed.None? then None else Some(TmplLit(chunks, parsed.value));
        case Name(text) =>
          r := NameOrArrow();
        case Punct(text) =>
          if text == "(" {
            r := Parenthesised();
          } else if text == "{" {
            Next();
            r := Fields();
          } else if text == "[" {
            Next();
            var items := List("]");
            return if items.None? then None else Some(ArrLit(items.value));
          } else {
            return None;
          }
        case EndOfFile =>
          return None;
      }
    }

    /** A literal word, a function, an arrow function of one parameter, or a variable. */
    method NameOrArrow() returns (r: Option<Node>)
      requires Valid() && Peek(Remaining()).Name?
      modifies this`pos, this`nodes
      ensures Ends(r, ParseName(Peek(old(Remaining())).text, Rest(old(Remaining())), old(nodes)))
      decreases Size(Remaining()), 0
    {
      hide ParseFunction, ParseArrowBody, Size, IsBanned;
      var t := Cur();
      Next();
      if t.text == "true" || t.text == "false" {
        return Some(BoolLit(t.text == "true"));
      }
      if t.text == "null" {
        return Some(NullLit);
      }
      if t.text == "undefined" {
        return Some(UndefLit);
      }
      if t.text == "function" {
        r := FunctionLiteral();
        return;
      }
      if IsBanned(t.text) {
        return None;
      }
      var arrow := SkipPunct("=>");
      if arrow {
        r := ArrowBody([t.text]);
        return;
      }
      return Some(Ident(t.text));
    }

    /** Arrow parameters or an expression in parentheses. */
    method Parenthesised() returns (r: Option<Node>)
      requires Valid() && At(Remaining(), "(")
      modifies this`pos, this`nodes
      ensures Ends(r, match ArrowParams(old(Remaining())) {
                        case Some((params, body)) => ParseArrowBody(params, body, old(nodes))
                        case None =>
                          match ParseExpression(Rest(old(Remaining())), old(nodes)) {
                            case Fail => Fail
                            case Got(e, t1, n1) => if At(t1, ")") then Got(e, Rest(t1), n1) else Fail
                          }
                      })
      decreases Size(Remaining()), 0
    {
      hide ParseExpression, ParseArrowBody, ArrowParams, Size;
      var params := TryArrowParams();
      if params.Some? {
        r := ArrowBody(params.value);
        return;
      }
      Next();
      r := Expression();
      if r.None? {
        return None;
      }
      var closed := SkipPunct(")");
      return if closed then r else None;
    }

    /** Looks ahead for the parameters of an arrow function and moves behind the arrow if they are there. */
    method TryArrowParams() returns (params: Option<seq<string>>)
      requires Valid() && At(Remaining(), "(")
      modifies this`pos
      ensures Valid()
      ensures match ArrowParams(old(Remaining())) {
                case None => params.None? && pos == old(pos)
                case Some((names, toks)) => params == Some(names) && Remaining() == toks
              }
    {
      ghost var toks := Remaining();
      var depth: nat, index: nat := 0, pos;
      while index < |tokens| - 1
        invariant pos <= index <= |tokens| - 1 && (index > pos ==> depth > 0) && pos == old(pos)
        invariant Closing(toks, 0, 0) == Closing(toks, index - pos, depth)
      {
        var t := tokens[index];
        assert t == toks[index - pos] && toks[0] == Punct("(");
        if t == EndOfFile {
          return None;
        }
        if t == Punct("(") {
          depth := depth + 1;
        } else if t == Punct(")") {
          if depth == 1 {
            params := NamesBehind(index);
            return;
          }
          depth := depth - 1;
        }
        index := index + 1;
      }
      return None;
    }

    /** The names up to a closing parenthesis, when an arrow follows it. */
    method NamesBehind(index: nat) returns (params: Option<seq<string>>)
      requires Valid() && At(Remaining(), "(") && pos <= index < |tokens| - 1
      requires Closing(Remaining(), 0, 0) == Some(index - pos)
      modifies this`pos
      ensures Valid()
      ensures match ArrowParams(old(Remaining())) {
                case None => params.None? && pos == old(pos)
                case Some((names, toks)) => params == Some(names) && Remaining() == toks
              }
    {
      hide NamesOnly, Closing, Size;
      ghost var toks, k := Remaining(), index - pos;
      BehindParenthesis(toks, k);
      assert index + 1 < |tokens| - 1 ==> k + 1 < |toks| && toks[k + 1] == tokens[index + 1];
      assert index + 1 == |tokens| - 1 ==> k + 1 == |toks| && tokens[index + 1] == EndOfFile;
      if tokens[index + 1] != Punct("=>") {
        return None;
      }
      SliceOfSlice(tokens, pos, |tokens| - 1, 1, k);
      SliceOfSlice(tokens, pos, |tokens| - 1, k + 2, |toks|);
      assert toks[k + 2..|toks|] == toks[k + 2..];
      params := CollectNames(tokens[pos + 1..index]);
      if params.Some? {
        pos := index + 2;
      }
    }

    static method CollectNames(inner: seq<Token>) returns (params: Option<seq<string>>)
      ensures params == NamesOnly(inner)
    {
      var names := [];
      for i := 0 to |inner|
        invariant NamesOnly(inner[..i]) == Some(names)
      {
        assert inner[..i + 1][..i] == inner[..i];
        if inner[i].Name? {
          names := names + [inner[i].text];
        } else if inner[i] != Punct(",") {
          NoNames(inner, i);
          return None;
        }
      }
      assert inner[..|inner|] == inner;
      return Some(names);
    }

    method ArrowBody(params: seq<string>) returns (r: Option<Node>)
      requires Valid()
      modifies this`pos, this`nodes
      ensures Ends(r, ParseArrowBody(params, old(Remaining()), old(nodes)))
      decreases Size(Remaining()), 14
    {
      hide ParseBody, ParseAssign, Size;
      var brace := SkipPunct("{");
      if brace {
        var body := Body();
        return if body.None? then None else Some(FnLit(params, body.value));
      }
      var expr := AssignExpr();
      return if expr.None? then None else Some(ArrowLit(params, expr.value));
    }

    /** A function literal after its keyword. */
    method FunctionLiteral() returns (r: Option<Node>)
      requires Valid()
      modifies this`pos, this`nodes
      ensures Ends(r, ParseFunction(old(Remaining()), old(nodes)))
      decreases Size(Remaining()), 2
    {
      hide ParseParams, ParseBody, Size;
      var t := Cur();
      if t.Name? {
        Next();
      }
      var parenthesis := SkipPunct("(");
      if !parenthesis {
        return None;
      }
      var params := Params();
      if params.None? {
        return None;
      }
      var brace := SkipPunct("{");
      if !brace {
        return None;
      }
      var body := Body();
      return if body.None? then None else Some(FnLit(params.value, body.value));
    }

    method Params() returns (r: Option<seq<string>>)
      requires Valid()
      modifies this`pos
      ensures Ends(r, ParseParams(old(Remaining()), nodes, []))
    {
      hide Size;
      ghost var whole := ParseParams(Remaining(), nodes, []);
      var params := [];
      while true
        invariant Valid() && whole == ParseParams(Remaining(), nodes, params)
        decreases Size(Remaining())
      {
        var closed := SkipPunct(")");
        if closed {
          return Some(params);
        }
        var t := Cur();
        if !t.Name? {
          return None;
        }
        params := params + [t.text];
        Next();
        var comma := SkipPunct(",");
        if !comma {
          closed := SkipPunct(")");
          return if closed then Some(params) else None;
        }
      }
    }

    method Fields() returns (r: Option<Node>)
      requires Valid()
      modifies this`pos, this`nodes
      ensures Ends(r, ParseFields(old(Remaining()), old(nodes), [], []))
      decreases Size(Remaining()), 1
    {
      hide ParseFields, ParseAssign, Size;
      ghost var whole := ParseFields(Remaining(), nodes, [], []);
      var keys, values := [], [];
      while true
        invariant Valid() && Size(Remaining()) <= Size(old(Remaining()))
        invariant whole == ParseFields(Remaining(), nodes, keys, values)
        decreases Size(Remaining())
      {
        FieldsUnfold(Remaining(), nodes, keys, values);
        var closed := SkipPunct("}");
        if closed {
          return Some(ObjLit(keys, values));
        }
        var t := Cur();
        if !t.Name? && !t.Text? && !t.Number? {
          return None;
        }
        Next();
        var colon := SkipPunct(":");
        if !colon {
          return None;
        }
        var value := AssignExpr();
        if value.None? {
          return None;
        }
        keys, values := keys + [KeyOf(t)], values + [value.value];
        var comma := SkipPunct(",");
        if !comma {
          closed := SkipPunct("}");
          return if closed then Some(ObjLit(keys, values)) else None;
        }
      }
    }

    static method TemplateExprs(exprs: seq<Source>) returns (r: Option<seq<Node>>)
      ensures r == ParseTemplate(exprs)
      decreases ExprsSize(exprs), 16
    {
      hide ParseTemplate, ParseProgram, Size, ExprsSize;
      var parsed := [];
      assert exprs[0..] == exprs;
      PrependedTwice([], NullLit, ParseTemplate(exprs));
      for i := 0 to |exprs|
        invariant ParseTemplate(exprs) == Prepended(parsed, ParseTemplate(exprs[i..]))
      {
        TemplateUnfolds(exprs[i..], exprs, i);
        if exprs[i].Unreadable? {
          return None;
        }
        var e := Program(exprs[i].toks);
        if e.None? {
          return None;
        }
        assert exprs[i..][1..] == exprs[i + 1..];
        PrependedTwice(parsed, e.value, ParseTemplate(exprs[i + 1..]));
        parsed := parsed + [e.value];
      }
      NoTemplate(exprs);
      assert parsed + [] == parsed;
      return Some(parsed);
    }

    /** A script: one expression, which a semicolon may follow. */
    static method Program(toks: seq<Token>) returns (r: Option<Node>)
      ensures r == ParseProgram(toks)
      decreases Size(toks), 15
    {
      hide ParseExpression, Size;
      var p := new Parser(toks + [EndOfFile]);
      assert (toks + [EndOfFile])[..|toks|] == toks;
      r := p.Expression();
      if r.None? {
        return None;
      }
      var semicolon := p.SkipPunct(";");
      var last := p.Cur();
      if last != EndOfFile {
        return None;
      }
    }

    // -------------------------------------------------------------------------------------------
    // Statements
    // -------------------------------------------------------------------------------------------

    /** Statements up to the closing brace. */
    method Body() returns (r: Option<seq<Stmt>>)
      requires Valid()
      modifies this`pos, this`nodes
      ensures Ends(r, ParseBody(old(Remaining()), old(nodes), []))
      decreases Size(Remaining()), 17
    {
      hide ParseBody, ParseStatement, Size;
      ghost var whole := ParseBody(Remaining(), nodes, []);
      var body := [];
      while true
        invariant Valid() && Size(Remaining()) <= Size(old(Remaining()))
        invariant whole == ParseBody(Remaining(), nodes, body)
        decreases Size(Remaining())
      {
        BodyUnfolds(Remaining(), nodes, body);
        var closed := SkipPunct("}");
        if closed {
          return Some(body);
        }
        if pos == |tokens| - 1 {
          return None;
        }
        var item := Statement();
        if item.None? {
          return None;
        }
        body := body + [item.value];
      }
    }

    method Statement() returns (r: Option<Stmt>)
      requires Valid()
      modifies this`pos, this`nodes
      ensures Ends(r, ParseStatement(old(Remaining()), old(nodes)))
      decreases Size(Remaining()), 16
    {
      hide ParseBody, ParseVarDecl, ParseReturn, ParseIf, ParseForOf, ParseExpression, Size, IsBanned;
      var ok := Count();
      if !ok {
        return None;
      }
      var t := Cur();
      if t == Punct("{") {
        Next();
        var body := Body();
        return if body.None? then None else Some(Block(body.value));
      }
      if t == Punct(";") {
        Next();
        return Some(Block([]));
      }
      if t == Name("var") || t == Name("let") || t == Name("const") {
        Next();
        r := Declaration();
      } else if t == Name("return") {
        Next();
        r := ReturnStatement();
      } else if t == Name("if") {
        Next();
        r := IfStatement();
      } else if t == Name("for") {
        Next();
        r := ForOfStatement();
      } else {
        if t.Name? && IsBanned(t.text) {
          return None;
        }
        var e := Expression();
        if e.None? {
          return None;
        }
        var semicolon := SkipPunct(";");
        return Some(ExprStmt(e.value));
      }
    }

    method ReturnStatement() returns (r: Option<Stmt>)
      requires Valid()
      modifies this`pos, this`nodes
      ensures Ends(r, ParseReturn(old(Remaining()), old(nodes)))
      decreases Size(Remaining()), 15
    {
      hide ParseExpression, Size;
      var t := Cur();
      if t == Punct(";") || t == Punct("}") {
        var semicolon := SkipPunct(";");
        return Some(Return(None));
      }
      var arg := Expression();
      if arg.None? {
        return None;
      }
      var semicolon := SkipPunct(";");
      return Some(Return(arg));
    }

    method Declaration() returns (r: Option<Stmt>)
      requires Valid()
      modifies this`pos, this`nodes
      ensures Ends(r, ParseVarDecl(old(Remaining()), old(nodes), [], []))
      decreases Size(Remaining()), 14
    {
      hide ParseVarDecl, ParseAssign, Size;
      ghost var whole := ParseVarDecl(Remaining(), nodes, [], []);
      var names, inits := [], [];
      while true
        invariant Valid() && Size(Remaining()) <= Size(old(Remaining()))
        invariant whole == ParseVarDecl(Remaining(), nodes, names, inits)
        decreases Size(Remaining())
      {
        VarDeclUnfolds(Remaining(), nodes, names, inits);
        var t := Cur();
        if !t.Name? {
          return None;
        }
        Next();
        var init: Option<Node> := None;
        var given := SkipPunct("=");
        if given {
          init := AssignExpr();
          if init.None? {
            return None;
          }
        }
        names, inits := names + [t.text], inits + [init];
        var comma := SkipPunct(",");
        if !comma {
          var semicolon := SkipPunct(";");
          return Some(VarDecl(names, inits));
        }
      }
    }

    method IfStatement() returns (r: Option<Stmt>)
      requires Valid()
      modifies this`pos, this`nodes
      ensures Ends(r, ParseIf(old(Remaining()), old(nodes)))
      decreases Size(Remaining()), 0
    {
      hide ParseExpression, ParseStatement, Size;
      var parenthesis := SkipPunct("(");
      if !parenthesis {
        return None;
      }
      var test := Expression();
      if test.None? {
        return None;
      }
      parenthesis := SkipPunct(")");
      if !parenthesis {
        return None;
      }
      var cons := Statement();
      if cons.None? {
        return None;
      }
      var otherwise := IsKeyword("else");
      if !otherwise {
        return Some(If(test.value, cons.value, None));
      }
      Next();
      var alt := Statement();
      if alt.None? {
        return None;
      }
      return Some(If(test.value, cons.value, alt));
    }

    /** The head of a loop up to the word between variable and list. */
    method LoopVariable() returns (name: Option<string>)
      requires Valid()
      modifies this`pos
      ensures Valid()
      ensures match LoopName(old(Remaining())) {
                case None => name.None?
                case Some((text, toks)) => name == Some(text) && Remaining() == toks
              }
    {
      hide Size;
      var t := Cur();
      if t == Name("var") || t == Name("let") || t == Name("const") {
        Next();
      }
      t := Cur();
      if !t.Name? {
        return None;
      }
      Next();
      var of := IsKeyword("of");
      if !of {
        return None;
      }
      Next();
      return Some(t.text);
    }

    method ForOfStatement() returns (r: Option<Stmt>)
      requires Valid()
      modifies this`pos, this`nodes
      ensures Ends(r, ParseForOf(old(Remaining()), old(nodes)))
      decreases Size(Remaining()), 0
    {
      hide ParseExpression, ParseStatement, Size, LoopName;
      var parenthesis := SkipPunct("(");
      if !parenthesis {
        return None;
      }
      var name := LoopVariable();
      if name.None? {
        return None;
      }
      var iter := Expression();
      if iter.None? {
        return None;
      }
      parenthesis := SkipPunct(")");
      if !parenthesis {
        return None;
      }
      var body := Statement();
      return if body.None? then None else Some(ForOf(name.value, iter.value, body.value));
    }
  }
}
