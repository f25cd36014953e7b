/** Running balance scripts (internal/script/eval.go, internal/script/array.go, internal/script/script.go).
    Scopes, objects and arrays are shared and change in place; closures keep the scopes they were made in.

    Every expression, statement, turn of a loop and call takes a step, and steps are limited.  Turning values into
    text and exporting them for JSON take none: a value that contains itself uses up the stack, which ends the
    program.  Such a run is `crashed`. */
module ScriptEvaluator {
  import opened Lists
  import opened ScriptGrammar
  import opened ScriptValues
  import Sorting

  datatype Outcome = Ok(value: Value) | Failed

  /** A finished call of a function and what came of it. */
  datatype Called = Called(fn: Value, args: seq<Value>, outcome: Outcome)

  datatype Completion = Done | Returned(value: Value) | Broken

  /** How statements end: some way, with these variables in the local scopes, or with a new object that has these
      fields. */
  datatype Ending =
    | Completes(end: Completion, local: seq<map<string, Value>>)
    | Makes(keys: seq<string>, values: seq<Value>)

  /** What a function returns that ends this way. */
  function Given(end: Completion): Value {
    if end.Returned? then end.value else Undefined
  }

  /** The same without the innermost scope. */
  function Left(ending: Option<Ending>): Option<Ending> {
    match ending
    case Some(Completes(end, local)) => Some(Completes(end, if local == [] then [] else local[1..]))
    case _ => ending
  }

  function Letters(text: string): (items: seq<Value>)
    ensures |items| == |text|
  {
    seq(|text|, i requires 0 <= i < |text| => Str([text[i]]))
  }

  /** Statements that end keep the local scopes. */
  predicate Keeps(ending: Option<Ending>, n: nat) {
    ending.Some? && ending.value.Completes? ==> |ending.value.local| == n
  }

  /** Literals, functions among them: evaluating them cannot fail. */
  predicate Stated(n: Node)
    decreases n
  {
    match n
    case NumLit(_) => true
    case StrLit(_) => true
    case BoolLit(_) => true
    case NullLit => true
    case UndefLit => true
    case FnLit(_, _) => true
    case ArrowLit(_, _) => true
    case ArrLit(items) => AllStated(items)
    case ObjLit(keys, values) => |keys| <= |values| && AllStated(values)
    case _ => false
  }

  predicate AllStated(items: seq<Node>)
    decreases items
  {
    forall i :: 0 <= i < |items| ==> Stated(items[i])
  }

  /** The function that a literal stands for. */
  function FunctionOf(n: Node, scope: Scope): Option<Value> {
    match n
    case FnLit(params, body) => Some(Closure(params, Statements(body), scope))
    case ArrowLit(params, expr) => Some(Closure(params, Result(expr), scope))
    case _ => None
  }

  /** The fields that are written as functions hold these functions. */
  ghost predicate KeepsFunctions(fields: map<string, Value>, keys: seq<string>, values: seq<Node>, scope: Scope) {
    FieldsAre(fields, keys, Functions(values, scope), |keys|)
  }

  function Functions(values: seq<Node>, scope: Scope): seq<Option<Value>> {
    seq(|values|, i requires 0 <= i < |values| => FunctionOf(values[i], scope))
  }

  // What an extractor says about a response, read from the document itself

  /** The last value of a key; nothing stands for one that is not there. */
  function FieldAt(keys: seq<string>, members: seq<Json>, key: string): Option<Json> {
    if keys == [] then None
    else
      var last := |keys| - 1;
      if keys[last] == key && last < |members| then Some(members[last]) else FieldAt(keys[..last], members, key)
  }

  lemma {:induction false} FieldAtIs(keys: seq<string>, members: seq<Json>, key: string)
    ensures FieldAt(keys, members, key).None? ==> !exists i :: 0 <= i < |keys| && i < |members| && keys[i] == key
    ensures FieldAt(keys, members, key).Some? ==>
              exists i :: 0 <= i < |keys| && i < |members| && IsLast(keys, |members|, i) && keys[i] == key
                          && FieldAt(keys, members, key) == Some(members[i])
  {
    if keys != [] {
      var last := |keys| - 1;
      if keys[last] == key && last < |members| {
        assert IsLast(keys, |members|, last);
      } else {
        FieldAtIs(keys[..last], members, key);
        if i: nat :| i < last && i < |members| && IsLast(keys[..last], |members|, i) && keys[i] == key
                     && FieldAt(keys[..last], members, key) == Some(members[i]) {
          assert IsLast(keys, |members|, i) by {
            forall j | i < j < |keys| && j < |members| ensures keys[j] != keys[i] {
              assert j < last ==> keys[..last][j] == keys[j];
            }
          }
        }
        assert forall i :: 0 <= i < last ==> keys[..last][i] == keys[i];
      }
    }
  }

  /** A parameter is bound to the argument in its place, or undefined, unless a later one has its name. */
  lemma {:induction false} ParameterIsBound(params: seq<string>, args: seq<Value>, i: nat)
    requires i < |params| && params[i] !in params[i + 1..]
    ensures params[i] in Bindings(params, args)
    ensures Bindings(params, args)[params[i]] == if i < |args| then args[i] else Undefined
  {
    var last := |params| - 1;
    if i < last {
      assert params[i + 1..][last - i - 1] == params[last];
      assert params[..last][i + 1..] == params[i + 1..][..last - i - 1];
      ParameterIsBound(params[..last], args, i);
    }
  }

  /** What a variable is seen to be: a part of a document, or a value. */
  datatype Seen = Part(json: Json) | Plain(value: Value)

  /** What statements do in an answer to a document: they go on with these variables, or return an object. */
  datatype Telling = Goes(env: map<string, Seen>) | Gives(keys: seq<string>, values: seq<Value>)

  /** What variables and the members behind them name; a member of an object that does not have it is undefined. */
  function SeenAt(e: Node, env: map<string, Seen>): Option<Seen> {
    match e
    case Ident(name) => if name in env then Some(env[name]) else None
    case Member(base, name, _) => FieldIn(SeenAt(base, env), name)
    case Element(base, StrLit(name), _) => FieldIn(SeenAt(base, env), name)
    case _ => None
  }

  function FieldIn(seen: Option<Seen>, name: string): Option<Seen> {
    if seen.Some? && seen.value.Part? && seen.value.json.JsonFields? then
      var field := FieldAt(seen.value.json.keys, seen.value.json.values, name);
      Some(if field.None? then Plain(Undefined) else Part(field.value))
    else None
  }

  function ScalarOf(seen: Option<Seen>): Option<Value> {
    match seen
    case Some(Plain(v)) => Some(v)
    case Some(Part(JsonNull)) => Some(Null)
    case Some(Part(JsonBool(truth))) => Some(Bool(truth))
    case Some(Part(JsonNumber(n))) => Some(Num(n))
    case Some(Part(JsonText(text))) => Some(Str(text))
    case _ => None
  }

  /** What an expression comes to in an answer to a document: literals, parts of the document, and what operators
      make of them. */
  function Told(host: Host, e: Node, env: map<string, Seen>): Option<Value> {
    match e
    case NumLit(x) => Some(Num(Finite(x)))
    case StrLit(text) => Some(Str(text))
    case BoolLit(truth) => Some(Bool(truth))
    case NullLit => Some(Null)
    case UndefLit => Some(Undefined)
    case Unary(op, arg) =>
      var v := Told(host, arg, env);
      if v.None? then None else UnaryOf(host, op, v.value)
    case Logical(op, left, right) =>
      var v := Told(host, left, env);
      if v.None? || Decides(op, v.value) then v else Told(host, right, env)
    case Cond(test, cons, alt) =>
      var v := Told(host, test, env);
      if v.None? then None else if Truthy(v.value) then Told(host, cons, env) else Told(host, alt, env)
    case Binary(op, left, right) =>
      var a, b := Told(host, left, env), Told(host, right, env);
      if a.None? || b.None? then None else NumbersMake(host, op, a.value, b.value)
    case _ => ScalarOf(SeenAt(e, env))
  }

  /** Comparisons and arithmetic. */
  function NumbersMake(host: Host, op: string, a: Value, b: Value): Option<Value> {
    if IsOrder(op) then Some(Bool(Ordered(host, op, a, b)))
    else if op in {"-", "*", "/", "%"} || (op == "+" && !a.Str? && !b.Str?) then
      Some(Num(host.compute(op, NumberOf(host, a), NumberOf(host, b))))
    else None
  }

  /** All values, or nothing. */
  function ToldAll(host: Host, items: seq<Node>, env: map<string, Seen>): (told: Option<seq<Value>>)
    ensures told.Some? ==>
        |told.value| == |items| && forall i :: 0 <= i < |items| ==> Told(host, items[i], env) == Some(told.value[i])
  {
    if items == [] then Some([])
    else
      var last := |items| - 1;
      var before, v := ToldAll(host, items[..last], env), Told(host, items[last], env);
      if before.None? || v.None? then None else Some(before.value + [v.value])
  }

  /** A variable is declared as a part of the document, as a value, or as undefined. */
  function SeenInit(host: Host, inits: seq<Option<Node>>, i: nat, env: map<string, Seen>): Option<Seen> {
    if i >= |inits| || inits[i].None? then Some(Plain(Undefined))
    else
      var e := inits[i].value;
      if SeenAt(e, env).Some? then SeenAt(e, env)
      else
        var v := Told(host, e, env);
        if v.None? then None else Some(Plain(v.value))
  }

  function ToldDecls(host: Host, names: seq<string>, inits: seq<Option<Node>>, env: map<string, Seen>, i: nat):
      Option<Telling>
    requires i <= |names|
    decreases |names| - i
  {
    if i == |names| then Some(Goes(env))
    else
      var seen := SeenInit(host, inits, i, env);
      if seen.None? then None else ToldDecls(host, names, inits, env[names[i] := seen.value], i + 1)
  }

  /** Declarations, conditions, blocks, and returns of object literals. */
  function ToldStmt(host: Host, s: Stmt, env: map<string, Seen>): Option<Telling>
    decreases s
  {
    match s
    case VarDecl(names, inits) => ToldDecls(host, names, inits, env, 0)
    case Return(Some(ObjLit(keys, items))) =>
      var values := ToldAll(host, items, env);
      if values.None? || |keys| != |items| then None else Some(Gives(keys, values.value))
    case If(test, cons, alt) =>
      var v := Told(host, test, env);
      if v.None? then None
      else if Truthy(v.value) then Outside(ToldStmt(host, cons, env), env)
      else if alt.Some? then Outside(ToldStmt(host, alt.value, env), env)
      else Some(Goes(env))
    case Block(body) => Outside(ToldBody(host, body, env, 0), env)
    case _ => None
  }

  /** What is declared in a scope is forgotten outside. */
  function Outside(inner: Option<Telling>, env: map<string, Seen>): Option<Telling> {
    if inner.Some? && inner.value.Goes? then Some(Goes(env)) else inner
  }

  function ToldBody(host: Host, body: seq<Stmt>, env: map<string, Seen>, i: nat): Option<Telling>
    requires i <= |body|
    decreases body, |body| - i
  {
    if i == |body| then Some(Goes(env))
    else
      match ToldStmt(host, body[i], env)
      case Some(Goes(next)) => ToldBody(host, body, next, i + 1)
      case other => other
  }

  /** What a function answers to a document: the fields of the object it returns. */
  function ToldBy(host: Host, params: seq<string>, code: Code, document: Json): Option<(seq<string>, seq<Value>)> {
    if params == [] || params[0] in params[1..] then None
    else
      var env := map[params[0] := Part(document)];
      match ToldStmt(host, match code { case Result(e) => Return(Some(e)) case Statements(body) => Block(body) }, env)
      case Some(Gives(keys, values)) => Some((keys, values))
      case _ => None
  }

  /** The extractor of a script: the last field of that name. */
  function ExtractorIn(ast: Node): (i: Option<nat>)
    ensures i.Some? ==>
        && ast.ObjLit? && i.value < |ast.keys| && i.value < |ast.values|
        && ast.keys[i.value] == "extractor" && IsLast(ast.keys, |ast.keys|, i.value)
        && FunctionOf(ast.values[i.value], []).Some?
  {
    if !ast.ObjLit? then None
    else
      var i := LastOf(ast.keys, "extractor");
      if i.None? || i.value >= |ast.values| || FunctionOf(ast.values[i.value], []).None? then None else i
  }

  function LastOf(keys: seq<string>, key: string): (i: Option<nat>)
    ensures i.Some? ==> i.value < |keys| && keys[i.value] == key && IsLast(keys, |keys|, i.value)
  {
    if keys == [] then None
    else
      var last := |keys| - 1;
      if keys[last] == key then Some(last)
      else
        var i := LastOf(keys[..last], key);
        assert forall j :: 0 <= j < last ==> keys[..last][j] == keys[j];
        i
  }

  /** What a script extracts from a response, when it is written in literals and its extractor returns one. */
  function Extracted(host: Host, ast: Node, response: Json): Option<(seq<string>, seq<Value>)> {
    var i := ExtractorIn(ast);
    if i.None? || !Stated(ast) then None
    else
      var fn := FunctionOf(ast.values[i.value], []).value;
      ToldBy(host, fn.params, fn.code, response)
  }

  /** The n innermost scopes are different ones, not looked into, and in front of the rest. */
  predicate Apart(n: nat, rest: Scope, frames: set<Frame>, scope: Scope)
    ensures Apart(n, rest, frames, scope) ==> 0 < n <= |scope|
  {
    && 0 < n <= |scope| && scope[n..] == rest
    && (forall j :: 0 <= j < n ==> scope[j] !in frames)
    && (forall i, j :: 0 <= i < j < n ==> scope[i] != scope[j])
  }

  /** Where an expression stands: behind the variables of these local scopes, the innermost first, and in the scopes
      that they were opened in.  Reading looks into no other scopes than the given ones and follows calls of script
      functions only so deep. */
  datatype Place = Place(local: seq<map<string, Value>>, scope: Scope, frames: set<Frame>, calls: nat)

  /** The innermost local scope that has a name, or the number of local scopes. */
  function LocalLevel(local: seq<map<string, Value>>, name: string): (k: nat)
    ensures k <= |local| && (k < |local| ==> name in local[k])
    ensures forall j :: 0 <= j < k ==> name !in local[j]
  {
    if local == [] || name in local[0] then 0 else 1 + LocalLevel(local[1..], name)
  }

  lemma {:induction false} LevelBehind(scope: Scope, n: nat, name: string)
    requires n <= |scope| && forall j :: 0 <= j < n ==> name !in scope[j].vars
    ensures Level(scope, name) == n + Level(scope[n..], name)
  {
    if n > 0 {
      LevelBehind(scope[1..], n - 1, name);
      assert scope[1..][n - 1..] == scope[n..];
    } else {
      assert scope[0..] == scope;
    }
  }

  const MAX_STEPS := 200000
  const MAX_STRING := 1048576
  const MAX_ARRAY := 100000

  predicate IsEquality(op: string) {
    op in {"==", "===", "!=", "!=="}
  }

  predicate IsStrict(op: string) {
    op == "===" || op == "!=="
  }

  predicate IsPositive(op: string) {
    op == "==" || op == "==="
  }

  predicate IsOrder(op: string) {
    op in {"<", "<=", ">", ">="}
  }

  predicate IsCallbackMethod(name: string) {
    name in {"map", "filter", "find", "some", "every", "reduce", "forEach", "sort", "concat", "push"}
  }

  /** The members of a built-in object are named after it. */
  function Bound(holder: string, names: set<string>): map<string, Value> {
    map name | name in names :: Builtin(holder + "." + name, NoOwner)
  }

  /** The members of the built-in objects. */
  function GlobalMembers(name: string): Option<set<string>> {
    match name
    case "Math" => Some({"abs", "floor", "ceil", "trunc", "sqrt", "log", "round", "pow", "max", "min"})
    case "JSON" => Some({"parse", "stringify"})
    case "Object" => Some({"keys", "values", "entries"})
    case "Array" => Some({"isArray"})
    case "Number" => Some({"isFinite", "isNaN", "parseFloat"})
    case _ => None
  }

  /** The built-in names that are no objects. */
  function GlobalPlain(name: string): Option<Value> {
    if name in {"String", "Boolean", "parseFloat", "parseInt", "isNaN"} then Some(Builtin(name, NoOwner))
    else if name == "NaN" then Some(Num(NaN))
    else if name == "Infinity" then Some(Num(Infinite(false)))
    else None
  }

  lemma GlobalNames(name: string)
    ensures GlobalMembers(name).Some? <==> name in {"Math", "JSON", "Object", "Array", "Number"}
    ensures GlobalPlain(name).Some? <==>
              name in {"String", "Boolean", "parseFloat", "parseInt", "isNaN", "NaN", "Infinity"}
  {
  }

  predicate IsMath(name: string) {
    name in {
      "Math.abs", "Math.floor", "Math.ceil", "Math.trunc", "Math.sqrt", "Math.log", "Math.round", "Math.pow",
      "Math.max", "Math.min"}
  }

  predicate IsTextMethod(name: string) {
    name in {
      "trim", "toLowerCase", "toUpperCase", "includes", "startsWith", "endsWith", "indexOf", "split", "replace",
      "replaceAll", "slice", "substring", "toString"}
  }

  /** The names that a statement declares in the scope it runs in. */
  function Declared(s: Stmt): set<string> {
    if s.VarDecl? then NamesOf(s.names) else {}
  }

  function NamesOf(names: seq<string>): set<string> {
    set name | name in names
  }

  function DeclaredAll(body: seq<Stmt>): set<string> {
    set s, name | s in body && name in Declared(s) :: name
  }

  /** The innermost scope that has a name, or the number of scopes. */
  function Level(scope: Scope, name: string): (k: nat)
    reads scope
    ensures k <= |scope| && (k < |scope| ==> name in scope[k].vars)
    ensures forall j :: 0 <= j < k ==> name !in scope[j].vars
  {
    if scope == [] || name in scope[0].vars then 0 else 1 + Level(scope[1..], name)
  }

  /** What a run made: the names in every scope, the fields of every object, the length of every array. */
  datatype Shape = Shape(frames: map<Frame, set<string>>, records: map<Record, set<string>>, lists: map<Items, nat>)

  /** A value that leads nowhere outside what a run made. */
  ghost predicate Inside(v: Value, made: Shape) {
    match v
    case Obj(record) => record in made.records
    case Arr(list) => list in made.lists
    case Closure(_, _, scope) => Sees(scope, made)
    case Builtin(_, owner) => owner.OfArray? ==> owner.list in made.lists
    case _ => true
  }

  ghost predicate Sees(scope: Scope, made: Shape) {
    forall i :: 0 <= i < |scope| ==> scope[i] in made.frames
  }

  ghost predicate AllInside(values: seq<Value>, made: Shape) {
    forall i :: 0 <= i < |values| ==> Inside(values[i], made)
  }

  ghost predicate MapInside(values: map<string, Value>, made: Shape) {
    forall x :: x in values ==> Inside(values[x], made)
  }

  /** Nothing is lost: the innermost scope may gain the given names and no other scope gains any, objects
      lose no field, and arrays keep their length. */
  ghost predicate Declares(a: Shape, b: Shape, scope: Scope, names: set<string>) {
    && (forall f :: f in a.frames ==>
          f in b.frames
          && a.frames[f] <= b.frames[f] <= a.frames[f] + if scope != [] && f == scope[0] then names else {})
    && (forall r :: r in a.records ==> r in b.records && a.records[r] <= b.records[r])
    && (forall l :: l in a.lists ==> l in b.lists && a.lists[l] == b.lists[l])
  }

  ghost predicate Follows(a: Shape, b: Shape) {
    Declares(a, b, [], {})
  }

  lemma Same(a: Shape)
    ensures Follows(a, a)
  {
  }

  lemma Grow(a: Shape, b: Shape)
    requires Follows(a, b)
    ensures forall v :: Inside(v, a) ==> Inside(v, b)
    ensures forall values :: AllInside(values, a) ==> AllInside(values, b)
    ensures forall values :: MapInside(values, a) ==> MapInside(values, b)
    ensures forall scope :: Sees(scope, a) ==> Sees(scope, b)
    ensures forall l :: l in a.lists ==> l in b.lists && b.lists[l] == a.lists[l]
  {
  }

  lemma Chain(a: Shape, b: Shape, c: Shape)
    requires Follows(a, b) && Follows(b, c)
    ensures Follows(a, c)
    ensures forall v :: Inside(v, a) || Inside(v, b) ==> Inside(v, c)
    ensures forall values :: AllInside(values, a) || AllInside(values, b) ==> AllInside(values, c)
    ensures forall values :: MapInside(values, a) || MapInside(values, b) ==> MapInside(values, c)
    ensures forall scope :: Sees(scope, a) || Sees(scope, b) ==> Sees(scope, c)
    ensures forall l :: l in a.lists ==> l in c.lists && c.lists[l] == a.lists[l]
  {
  }

  /** The innermost scope has these names. */
  ghost predicate Has(made: Shape, scope: Scope, names: set<string>) {
    scope != [] && scope[0] in made.frames && names <= made.frames[scope[0]]
  }

  lemma ChainDeclares(a: Shape, b: Shape, c: Shape, scope: Scope, before: set<string>, names: set<string>)
    requires Declares(a, b, scope, before) && Declares(b, c, scope, names)
    ensures Declares(a, c, scope, before + names)
    ensures forall v :: Inside(v, a) || Inside(v, b) ==> Inside(v, c)
    ensures forall other :: Sees(other, a) || Sees(other, b) ==> Sees(other, c)
    ensures forall had :: Has(b, scope, had) ==> Has(c, scope, had)
    ensures forall l :: l in a.lists ==> l in c.lists && c.lists[l] == a.lists[l]
  {
  }

  lemma FollowsDeclares(a: Shape, b: Shape, scope: Scope, names: set<string>)
    requires Follows(a, b)
    ensures Declares(a, b, scope, names)
  {
  }

  /** What is declared in a new scope does not show outside. */
  lemma ScopeCloses(a: Shape, b: Shape, c: Shape, inner: Scope, names: set<string>)
    requires Follows(a, b) && Declares(b, c, inner, names) && inner != [] && inner[0] !in a.frames
    ensures Follows(a, c)
  {
  }

  lemma HasNothing(made: Shape, scope: Scope)
    requires scope != [] && Sees(scope, made)
    ensures Has(made, scope, {})
  {
  }

  lemma HasBoth(made: Shape, scope: Scope, some: set<string>, others: set<string>)
    requires Has(made, scope, some) && Has(made, scope, others)
    ensures Has(made, scope, some + others)
  {
  }

  lemma MoreDeclared(a: Shape, b: Shape, scope: Scope, names: set<string>, more: set<string>)
    requires Declares(a, b, scope, names) && names <= more
    ensures Declares(a, b, scope, more)
  {
  }

  lemma GrowDeclares(a: Shape, b: Shape, scope: Scope, names: set<string>)
    requires Declares(a, b, scope, names)
    ensures forall v :: Inside(v, a) ==> Inside(v, b)
    ensures forall values :: AllInside(values, a) ==> AllInside(values, b)
    ensures forall values :: MapInside(values, a) ==> MapInside(values, b)
  {
  }

  lemma DeclaredNext(body: seq<Stmt>, i: nat)
    requires i < |body|
    ensures DeclaredAll(body[..i + 1]) == DeclaredAll(body[..i]) + Declared(body[i])
    ensures DeclaredAll(body[..i + 1]) <= DeclaredAll(body)
  {
    assert body[..i + 1] == body[..i] + [body[i]];
  }

  lemma NextName(names: seq<string>, i: nat)
    requires i < |names|
    ensures NamesOf(names[..i + 1]) == NamesOf(names[..i]) + {names[i]}
    ensures NamesOf(names[..i + 1]) <= NamesOf(names)
  {
  }

  lemma SeesMore(frame: Frame, scope: Scope, made: Shape)
    requires frame in made.frames && Sees(scope, made)
    ensures Sees([frame] + scope, made)
  {
  }

  function Bindings(params: seq<string>, args: seq<Value>): map<string, Value> {
    if params == [] then map[]
    else
      var last := |params| - 1;
      Bindings(params[..last], args)[params[last] := ArgAt(args, last)]
  }

  lemma {:induction false} BindingsInside(params: seq<string>, args: seq<Value>, made: Shape)
    requires AllInside(args, made)
    ensures MapInside(Bindings(params, args), made)
  {
    if params != [] {
      BindingsInside(params[..|params| - 1], args, made);
    }
  }

  function WithoutEquals(op: string): string {
    if op != "" && op[|op| - 1] == '=' then op[..|op| - 1] else op
  }

  lemma WithoutLast()
    ensures WithoutEquals("+=") == "+" && WithoutEquals("-=") == "-" && WithoutEquals("*=") == "*"
    ensures WithoutEquals("/=") == "/" && WithoutEquals("%=") == "%"
  {
  }

  lemma MapUpdated(values: map<string, Value>, name: string, v: Value, made: Shape)
    requires MapInside(values, made) && Inside(v, made)
    ensures MapInside(values[name := v], made)
  {
  }

  lemma NoneInside(made: Shape)
    ensures AllInside([], made)
  {
  }

  lemma NothingInside(made: Shape)
    ensures MapInside(map[], made)
  {
  }

  lemma OneMoreInside(values: seq<Value>, v: Value, made: Shape)
    requires AllInside(values, made) && Inside(v, made)
    ensures AllInside(values + [v], made)
  {
  }

  lemma BoundInside(holder: string, names: set<string>, made: Shape)
    ensures MapInside(Bound(holder, names), made)
  {
  }

  lemma OneInside(name: string, v: Value, made: Shape)
    requires Inside(v, made)
    ensures MapInside(map[name := v], made)
  {
  }

  lemma TwoInside(a: Value, b: Value, made: Shape)
    requires Inside(a, made) && Inside(b, made)
    ensures AllInside([a, b], made)
  {
  }

  lemma MoreInside(values: seq<Value>, more: seq<Value>, made: Shape)
    requires AllInside(values, made) && AllInside(more, made)
    ensures AllInside(values + more, made)
  {
  }

  lemma ArgInside(args: seq<Value>, i: nat, made: Shape)
    requires AllInside(args, made)
    ensures Inside(ArgAt(args, i), made)
  {
  }

  function AnswerAt(calls: seq<Called>, k: nat): Value {
    if k < |calls| && calls[k].outcome.Ok? then calls[k].outcome.value else Undefined
  }

  function ItemAt(calls: seq<Called>, k: nat): Value {
    if k < |calls| && |calls[k].args| > 0 then calls[k].args[0] else Undefined
  }

  /** Calls of a callback with elements and their places, one after the other, all of them answered. */
  ghost predicate Visited(visits: seq<nat>, start: nat, calls: seq<Called>, callback: Value) {
    forall j :: 0 <= j < |visits| ==>
      && start <= visits[j] < |calls| && (j > 0 ==> visits[j - 1] < visits[j])
      && calls[visits[j]].outcome.Ok?
      && calls[visits[j]] == Called(callback, [ItemAt(calls, visits[j]), PlaceValue(j)], calls[visits[j]].outcome)
  }

  function PlaceValue(i: nat): Value {
    Num(Finite(i as real))
  }

  lemma NotVisited(start: nat, calls: seq<Called>, callback: Value)
    ensures Visited([], start, calls, callback)
  {
  }

  lemma OneMoreVisit(visits: seq<nat>, start: nat, before: seq<Called>, after: seq<Called>, callback: Value,
      item: Value, r: Outcome)
    requires Visited(visits, start, before, callback) && start <= |before| < |after| && before <= after && r.Ok?
    requires after[|after| - 1] == Called(callback, [item, PlaceValue(|visits|)], r)
    ensures Visited(visits + [|after| - 1], start, after, callback)
    ensures forall j :: 0 <= j < |visits| ==>
              AnswerAt(after, visits[j]) == AnswerAt(before, visits[j])
              && ItemAt(after, visits[j]) == ItemAt(before, visits[j])
    ensures AnswerAt(after, |after| - 1) == r.value && ItemAt(after, |after| - 1) == item
  {
    forall j | 0 <= j < |visits| ensures after[visits[j]] == before[visits[j]] {
    }
  }

  /** What was visited first and answered with something true. */
  function Chosen(visits: seq<nat>, calls: seq<Called>): seq<Value> {
    if visits == [] then []
    else
      var last := visits[|visits| - 1];
      Chosen(visits[..|visits| - 1], calls) + if Truthy(AnswerAt(calls, last)) then [ItemAt(calls, last)] else []
  }

  lemma {:induction false} ChosenAgain(visits: seq<nat>, before: seq<Called>, after: seq<Called>)
    requires forall j :: 0 <= j < |visits| ==>
               AnswerAt(after, visits[j]) == AnswerAt(before, visits[j])
               && ItemAt(after, visits[j]) == ItemAt(before, visits[j])
    ensures Chosen(visits, after) == Chosen(visits, before)
  {
    if visits != [] {
      ChosenAgain(visits[..|visits| - 1], before, after);
    }
  }

  lemma NothingChosen(calls: seq<Called>)
    ensures Chosen([], calls) == []
  {
  }

  lemma OneMoreChosen(visits: seq<nat>, k: nat, calls: seq<Called>)
    ensures Chosen(visits + [k], calls) ==
            Chosen(visits, calls) + if Truthy(AnswerAt(calls, k)) then [ItemAt(calls, k)] else []
  {
    assert (visits + [k])[..|visits|] == visits;
  }

  /** The last answer is the one that was waited for. */
  predicate Settles(visits: seq<nat>, calls: seq<Called>, truth: bool) {
    visits != [] && Truthy(AnswerAt(calls, visits[|visits| - 1])) == truth
  }

  /** No earlier answer was waited for, and without one all elements were visited. */
  predicate Decided(visits: seq<nat>, calls: seq<Called>, n: nat, truth: bool) {
    && (forall j :: 0 <= j < |visits| - 1 ==> Truthy(AnswerAt(calls, visits[j])) != truth)
    && (!Settles(visits, calls, truth) ==> |visits| == n)
  }

  /** Calls of a callback that hand a value on from each to the next. */
  ghost predicate Handed(visits: seq<nat>, start: nat, calls: seq<Called>, callback: Value, first: Value, place: nat) {
    forall j :: 0 <= j < |visits| ==> HandedAt(visits, start, calls, callback, first, place, j)
  }

  ghost predicate HandedAt(
      visits: seq<nat>, start: nat, calls: seq<Called>, callback: Value, first: Value, place: nat, j: nat)
    requires j < |visits|
  {
    && start <= visits[j] < |calls| && (j > 0 ==> visits[j - 1] < visits[j])
    && calls[visits[j]].outcome.Ok? && |calls[visits[j]].args| == 3 && calls[visits[j]].fn == callback
    && calls[visits[j]].args[0] == HandedOn(visits, calls, first, j)
    && calls[visits[j]].args[2] == PlaceValue(place + j)
  }

  /** What has been handed on after j calls. */
  function HandedOn(visits: seq<nat>, calls: seq<Called>, first: Value, j: nat): Value
    requires j <= |visits|
  {
    if j == 0 then first else AnswerAt(calls, visits[j - 1])
  }

  lemma NothingHanded(start: nat, calls: seq<Called>, callback: Value, first: Value, place: nat)
    ensures Handed([], start, calls, callback, first, place) && HandedOn([], calls, first, 0) == first
  {
  }

  lemma OneMoreHanded(visits: seq<nat>, start: nat, before: seq<Called>, after: seq<Called>, callback: Value,
      first: Value, place: nat, item: Value, r: Outcome)
    requires Handed(visits, start, before, callback, first, place)
    requires start <= |before| < |after| && before <= after && r.Ok?
    requires after[|after| - 1] ==
             Called(callback, [HandedOn(visits, before, first, |visits|), item, PlaceValue(place + |visits|)], r)
    ensures Handed(visits + [|after| - 1], start, after, callback, first, place)
    ensures HandedOn(visits + [|after| - 1], after, first, |visits| + 1) == r.value
  {
    var more, last := visits + [|after| - 1], after[|after| - 1];
    hide PlaceValue, HandedOn;
    assert forall j :: 0 <= j < |visits| ==> HandedAt(visits, start, before, callback, first, place, j);
    forall j | 0 <= j < |visits| ensures visits[j] < |before| {
      assert HandedAt(visits, start, before, callback, first, place, j);
    }
    forall j | 0 <= j < |visits| ensures HandedAt(more, start, after, callback, first, place, j) {
      HandedAgain(visits, more, before, after, first, j);
      assert HandedAt(visits, start, before, callback, first, place, j);
      assert after[visits[j]] == before[visits[j]] && more[j] == visits[j];
    }
    HandedAgain(visits, more, before, after, first, |visits|);
    LastHanded(more, after, first);
    assert last.args[0] == HandedOn(more, after, first, |visits|) && last.args[2] == PlaceValue(place + |visits|);
    assert HandedAt(more, start, after, callback, first, place, |visits|);
  }

  lemma LastHanded(visits: seq<nat>, calls: seq<Called>, first: Value)
    requires visits != [] && visits[|visits| - 1] < |calls| && calls[visits[|visits| - 1]].outcome.Ok?
    ensures HandedOn(visits, calls, first, |visits|) == calls[visits[|visits| - 1]].outcome.value
  {
  }

  lemma HandedAgain(visits: seq<nat>, more: seq<nat>, before: seq<Called>, after: seq<Called>, first: Value, j: nat)
    requires visits <= more && before <= after && j <= |visits|
    requires forall m :: 0 <= m < |visits| ==> visits[m] < |before|
    ensures HandedOn(more, after, first, j) == HandedOn(visits, before, first, j)
  {
  }

  predicate ByText(a: (string, Value), b: (string, Value)) {
    TextLess(a.0, b.0)
  }

  function Untagged(tagged: seq<(string, Value)>): seq<Value> {
    if tagged == [] then [] else Untagged(tagged[..|tagged| - 1]) + [tagged[|tagged| - 1].1]
  }

  lemma {:induction false} SortedValues(tagged: seq<(string, Value)>)
    ensures var sorted := Sorting.StableSorted(tagged, ByText);
            multiset(Untagged(sorted)) == multiset(Untagged(tagged)) && |Untagged(sorted)| == |tagged|
    ensures |Untagged(tagged)| == |tagged|
  {
    if tagged != [] {
      var init, last := tagged[..|tagged| - 1], tagged[|tagged| - 1];
      SortedValues(init);
      InsertedValue(Sorting.StableSorted(init, ByText), last);
    }
  }

  lemma {:induction false} InsertedValue(sorted: seq<(string, Value)>, x: (string, Value))
    ensures var longer := Sorting.Inserted(sorted, x, ByText);
            multiset(Untagged(longer)) == multiset(Untagged(sorted)) + multiset{x.1}
            && |Untagged(longer)| == |Untagged(sorted)| + 1
  {
    if sorted == [] || !ByText(x, sorted[|sorted| - 1]) {
      assert (sorted + [x])[..|sorted|] == sorted;
    } else {
      var init, last := sorted[..|sorted| - 1], sorted[|sorted| - 1];
      InsertedValue(init, x);
      var longer := Sorting.Inserted(init, x, ByText);
      assert (longer + [last])[..|longer|] == longer;
    }
  }

  lemma PermutedInside(values: seq<Value>, arranged: seq<Value>, made: Shape)
    requires AllInside(values, made) && multiset(arranged) == multiset(values)
    ensures AllInside(arranged, made)
  {
    hide Inside;
    forall i | 0 <= i < |arranged| ensures Inside(arranged[i], made) {
      assert arranged[i] in multiset(arranged);
      assert arranged[i] in multiset(values);
    }
  }

  lemma AllUpdated(values: seq<Value>, i: nat, v: Value, made: Shape)
    requires i < |values| && AllInside(values, made) && Inside(v, made)
    ensures AllInside(values[i := v], made)
  {
  }

  lemma InsideIs(v: Value, made: Shape)
    ensures v.Obj? ==> (Inside(v, made) <==> v.record in made.records)
    ensures v.Arr? ==> (Inside(v, made) <==> v.list in made.lists)
    ensures v.Closure? ==> (Inside(v, made) <==> Sees(v.scope, made))
    ensures v.Builtin? ==> (Inside(v, made) <==> (v.owner.OfArray? ==> v.owner.list in made.lists))
    ensures v.Undefined? || v.Null? || v.Bool? || v.Num? || v.Str? ==> Inside(v, made)
  {
  }

  /** A value says what a document says, with objects and arrays among the given ones. */
  ghost predicate Mirrors(v: Value, json: Json, records: set<Record>, lists: set<Items>)
    reads records, lists
    decreases json
  {
    match json
    case JsonNull => v == Null
    case JsonBool(truth) => v == Bool(truth)
    case JsonNumber(n) => v == Num(n)
    case JsonText(text) => v == Str(text)
    case JsonList(items) => v.Arr? && v.list in lists && MirrorsAll(v.list.items, items, records, lists)
    case JsonFields(keys, members) =>
      v.Obj? && v.record in records && MirrorsFields(v.record.fields, keys, members, records, lists)
  }

  ghost predicate MirrorsAll(values: seq<Value>, items: seq<Json>, records: set<Record>, lists: set<Items>)
    reads records, lists
    decreases items
  {
    |values| == |items| && forall i :: 0 <= i < |items| ==> Mirrors(values[i], items[i], records, lists)
  }

  /** Exactly the keys that have a value, each with its last one. */
  ghost predicate MirrorsFields(
      fields: map<string, Value>, keys: seq<string>, members: seq<Json>, records: set<Record>, lists: set<Items>)
    reads records, lists
    decreases members
  {
    && (forall key :: key in fields <==> exists i :: 0 <= i < |keys| && i < |members| && keys[i] == key)
    && (forall i :: 0 <= i < |keys| && i < |members| && IsLast(keys, |members|, i) ==>
          keys[i] in fields && Mirrors(fields[keys[i]], members[i], records, lists))
  }

  predicate IsLast(keys: seq<string>, n: nat, i: nat)
    requires i < |keys|
  {
    forall j :: i < j < |keys| && j < n ==> keys[j] != keys[i]
  }

  /** The first keys have their last expected value, if one is expected. */
  ghost predicate FieldsAre(fields: map<string, Value>, keys: seq<string>, expected: seq<Option<Value>>, n: nat) {
    n <= |keys| && n <= |expected|
    && forall i :: 0 <= i < n && IsLast(keys, n, i) && expected[i].Some? ==>
         keys[i] in fields && fields[keys[i]] == expected[i].value
  }

  /** Exactly these keys, each with its last value. */
  ghost predicate Holds(fields: map<string, Value>, keys: seq<string>, values: seq<Value>) {
    && fields.Keys == NamesOf(keys) && |keys| == |values|
    && forall i :: 0 <= i < |keys| && IsLast(keys, |keys|, i) ==> keys[i] in fields && fields[keys[i]] == values[i]
  }

  lemma NoFieldsYet(keys: seq<string>, expected: seq<Option<Value>>)
    ensures FieldsAre(map[], keys, expected, 0)
  {
  }

  lemma NextField(fields: map<string, Value>, keys: seq<string>, expected: seq<Option<Value>>, i: nat, v: Value)
    requires i < |keys| && i < |expected| && FieldsAre(fields, keys, expected, i)
    requires expected[i].Some? ==> v == expected[i].value
    ensures FieldsAre(fields[keys[i] := v], keys, expected, i + 1)
  {
    forall j | 0 <= j < i && IsLast(keys, i + 1, j) ensures IsLast(keys, i, j) && keys[j] != keys[i] {
    }
  }

  lemma {:induction false} MirrorsMore(
      v: Value, json: Json, records: set<Record>, lists: set<Items>, more: set<Record>, others: set<Items>)
    requires records <= more && lists <= others && Mirrors(v, json, records, lists)
    ensures Mirrors(v, json, more, others)
    decreases json
  {
    match json
    case JsonList(items) => MirrorsAllMore(v.list.items, items, records, lists, more, others);
    case JsonFields(keys, members) =>
      MirrorsFieldsMore(v.record.fields, keys, members, records, lists, more, others);
    case _ =>
  }

  lemma {:induction false} MirrorsAllMore(
      values: seq<Value>, items: seq<Json>,
      records: set<Record>, lists: set<Items>, more: set<Record>, others: set<Items>)
    requires records <= more && lists <= others && MirrorsAll(values, items, records, lists)
    ensures MirrorsAll(values, items, more, others)
    decreases items
  {
    hide Mirrors;
    forall i | 0 <= i < |items| ensures Mirrors(values[i], items[i], more, others) {
      MirrorsMore(values[i], items[i], records, lists, more, others);
    }
  }

  lemma {:induction false} MirrorsFieldsMore(
      fields: map<string, Value>, keys: seq<string>, members: seq<Json>,
      records: set<Record>, lists: set<Items>, more: set<Record>, others: set<Items>)
    requires records <= more && lists <= others && MirrorsFields(fields, keys, members, records, lists)
    ensures MirrorsFields(fields, keys, members, more, others)
    decreases members
  {
    hide Mirrors, IsLast;
    forall i | 0 <= i < |keys| && i < |members| && IsLast(keys, |members|, i)
      ensures Mirrors(fields[keys[i]], members[i], more, others)
    {
      MirrorsMore(fields[keys[i]], members[i], records, lists, more, others);
    }
  }

  lemma OneMoreMirrored(values: seq<Value>, items: seq<Json>, i: nat, records: set<Record>, lists: set<Items>)
    requires i < |items| && |values| == i + 1
    requires MirrorsAll(values[..i], items[..i], records, lists) && Mirrors(values[i], items[i], records, lists)
    ensures MirrorsAll(values, items[..i + 1], records, lists)
  {
    hide Mirrors;
    forall j | 0 <= j <= i ensures Mirrors(values[j], items[..i + 1][j], records, lists) {
      if j < i {
        assert Mirrors(values[..i][j], items[..i][j], records, lists);
      }
    }
  }

  lemma NothingMirrored(items: seq<Json>, keys: seq<string>, records: set<Record>, lists: set<Items>)
    ensures MirrorsAll([], items[..0], records, lists) && MirrorsFields(map[], keys[..0], items, records, lists)
  {
  }

  lemma ListMirrors(v: Value, items: seq<Json>, records: set<Record>, lists: set<Items>)
    requires v.Arr? && v.list in lists && MirrorsAll(v.list.items, items, records, lists)
    ensures Mirrors(v, JsonList(items), records, lists)
  {
  }

  lemma RecordMirrors(v: Value, keys: seq<string>, members: seq<Json>, records: set<Record>, lists: set<Items>)
    requires v.Obj? && v.record in records && MirrorsFields(v.record.fields, keys, members, records, lists)
    ensures Mirrors(v, JsonFields(keys, members), records, lists)
  {
  }

  lemma OneMoreField(fields: map<string, Value>, keys: seq<string>, members: seq<Json>, i: nat, item: Value,
      records: set<Record>, lists: set<Items>)
    requires i < |keys| && i < |members|
    requires MirrorsFields(fields, keys[..i], members, records, lists) && Mirrors(item, members[i], records, lists)
    ensures MirrorsFields(fields[keys[i] := item], keys[..i + 1], members, records, lists)
  {
    hide Mirrors;
    var before, after, longer := keys[..i], keys[..i + 1], fields[keys[i] := item];
    assert after == before + [keys[i]];
    forall j | 0 <= j < |after| && j < |members| && IsLast(after, |members|, j)
      ensures after[j] in longer && Mirrors(longer[after[j]], members[j], records, lists)
    {
      if j < i {
        assert after[i] != after[j];
        assert IsLast(before, |members|, j) by {
          forall m | j < m < |before| && m < |members| ensures before[m] != before[j] {
            assert after[m] == before[m];
          }
        }
      }
    }
    forall key | key in longer
      ensures exists j :: 0 <= j < |after| && j < |members| && after[j] == key
    {
      if key == keys[i] {
        assert after[i] == key;
      } else {
        var j :| 0 <= j < |before| && j < |members| && before[j] == key;
        assert after[j] == key;
      }
    }
    forall j | 0 <= j < |after| && j < |members| ensures after[j] in longer {
      assert j < i ==> before[j] == after[j];
    }
  }

  lemma NoMoreFields(fields: map<string, Value>, keys: seq<string>, members: seq<Json>, i: nat,
      records: set<Record>, lists: set<Items>)
    requires |members| <= i < |keys| && MirrorsFields(fields, keys[..i], members, records, lists)
    ensures MirrorsFields(fields, keys[..i + 1], members, records, lists)
  {
    hide Mirrors;
    var before, after := keys[..i], keys[..i + 1];
    forall j | 0 <= j < |after| && j < |members| && IsLast(after, |members|, j)
      ensures after[j] in fields && Mirrors(fields[after[j]], members[j], records, lists)
    {
      assert IsLast(before, |members|, j) by {
        forall m | j < m < |before| && m < |members| ensures before[m] != before[j] {
          assert after[m] == before[m];
        }
      }
    }
    forall key | key in fields
      ensures exists j :: 0 <= j < |after| && j < |members| && after[j] == key
    {
      var j :| 0 <= j < |before| && j < |members| && before[j] == key;
      assert after[j] == key;
    }
    forall j | 0 <= j < |after| && j < |members| ensures after[j] in fields {
      assert before[j] == after[j];
    }
  }

  lemma NoFewer<T>(some: set<T>, all: set<T>)
    requires some <= all
    ensures |some| <= |all|
  {
    assert all == some + (all - some);
  }

  class Interp {
    const host: Host
    var steps: nat
    var asked: nat

    /** The stack was used up. */
    var crashed: bool

    /** What the run made. */
    ghost var frames: set<Frame>
    ghost var records: set<Record>
    ghost var lists: set<Items>

    /** The calls of functions that have come to an end, in that order. */
    ghost var calls: seq<Called>

    /** When objects and arrays were made, and whether one was put into an older one since. */
    ghost var age: map<Value, nat>
    ghost var stored: bool

    predicate Running()
      reads this`steps, this`crashed
    {
      steps <= MAX_STEPS && !crashed
    }

    ghost function Now(): Shape
      reads this`frames, this`records, this`lists, frames, records, lists
    {
      Shape(
        map f | f in frames :: f.vars.Keys,
        map r | r in records :: r.fields.Keys,
        map l | l in lists :: |l.items|)
    }

    lemma NowFrames()
      ensures Now().frames.Keys == frames
    {
    }

    lemma NowIs()
      ensures Now().frames.Keys == frames && Now().records.Keys == records && Now().lists.Keys == lists
      ensures forall l :: l in lists ==> Now().lists[l] == |l.items|
    {
    }

    lemma ListIs(list: Items)
      ensures list in Now().lists <==> list in lists
      ensures list in lists ==> Now().lists[list] == |list.items|
    {
    }

    lemma ScopeIs(scope: Scope, i: nat)
      requires Sees(scope, Now()) && i < |scope|
      ensures scope[i] in frames
    {
    }

    lemma ScopeIn(scope: Scope)
      requires Sees(scope, Now())
      ensures forall f :: f in scope ==> f in frames
    {
    }

    /** Nothing the run made leads out of it.  Only a run that put an object or an array into an older one, or made
        more of them than the stack is deep, can have used up its stack. */
    ghost predicate Valid()
      reads this`frames, this`records, this`lists, this`age, this`stored, this`crashed, frames, records, lists
    {
      && Contained()
      && (!stored ==> Aged())
      && (crashed ==> stored || |records| + |lists| > host.stack)
    }

    ghost predicate Contained()
      reads this`frames, this`records, this`lists, frames, records, lists
    {
      && (forall f :: f in frames ==> MapInside(f.vars, Now()))
      && (forall r :: r in records ==> MapInside(r.fields, Now()))
      && (forall a :: a in lists ==> AllInside(a.items, Now()))
    }

    /** Objects and arrays are older than what they are parts of. */
    ghost predicate Aged()
      reads this`records, this`lists, this`age, records, lists
    {
      && (forall r :: r in records ==>
            0 < Age(Obj(r)) <= |records| + |lists|
            && forall key :: key in r.fields ==> Age(r.fields[key]) < Age(Obj(r)))
      && (forall l :: l in lists ==>
            0 < Age(Arr(l)) <= |records| + |lists|
            && forall i :: 0 <= i < |l.items| ==> Age(l.items[i]) < Age(Arr(l)))
    }

    twostate lemma StillContained()
      requires old(Contained()) && Follows(old(Now()), Now())
      requires forall f :: f in frames ==> (f in old(frames) && f.vars == old(f.vars)) || MapInside(f.vars, Now())
      requires forall r :: r in records ==>
                 (r in old(records) && r.fields == old(r.fields)) || MapInside(r.fields, Now())
      requires forall l :: l in lists ==> (l in old(lists) && l.items == old(l.items)) || AllInside(l.items, Now())
      ensures Contained()
    {
      hide Inside, MapInside, AllInside, Sees, Now, Follows;
      Grow(old(Now()), Now());
    }

    lemma ContainedIs()
      requires Valid()
      ensures Contained() && (!stored ==> Aged())
      ensures crashed ==> stored || |records| + |lists| > host.stack
    {
      hide Contained, Aged;
    }

    lemma ValidIs()
      requires Contained() && (!stored ==> Aged())
      requires crashed ==> stored || |records| + |lists| > host.stack
      ensures Valid()
    {
      hide Contained, Aged;
    }

    /** Parts that are no objects do not matter, and neither do ages given later. */
    twostate lemma StillAged()
      requires old(Aged() && Closed(records, lists)) && old(records) <= records && old(lists) <= lists
      requires forall r :: r in old(records) ==> Age(Obj(r)) == old(Age(Obj(r)))
      requires forall l :: l in old(lists) ==> Age(Arr(l)) == old(Age(Arr(l)))
      requires forall r :: r in old(records) ==> forall key :: key in r.fields ==>
                 !IsObject(r.fields[key]) || (key in old(r.fields) && r.fields[key] == old(r.fields)[key])
      requires forall l :: l in old(lists) ==> forall i :: 0 <= i < |l.items| ==>
                 !IsObject(l.items[i]) || (i < |old(l.items)| && l.items[i] == old(l.items)[i])
      requires forall r :: r in records && r !in old(records) ==>
                 Age(Obj(r)) == |records| + |lists|
                 && forall key :: key in r.fields ==> Age(r.fields[key]) < Age(Obj(r))
      requires forall l :: l in lists && l !in old(lists) ==>
                 Age(Arr(l)) == |records| + |lists|
                 && forall i :: 0 <= i < |l.items| ==> Age(l.items[i]) < Age(Arr(l))
      ensures Aged()
    {
      NoFewer(old(records), records);
      NoFewer(old(lists), lists);
    }

    ghost function Age(v: Value): nat
      reads this`age
    {
      if IsObject(v) && v in age then age[v] else 0
    }

    /** Time goes on, and whatever is new was made by the run. */
    twostate predicate Later()
      reads this
    {
      && old(steps) <= steps && old(frames) <= frames
      && fresh(frames - old(frames)) && fresh(records - old(records)) && fresh(lists - old(lists))
      && old(calls) <= calls
    }

    twostate lemma Evolved()
      requires old(frames) <= frames && old(records) <= records && old(lists) <= lists
      requires forall f :: f in old(frames) ==> f.vars.Keys == old(f.vars.Keys)
      requires forall r :: r in old(records) ==> old(r.fields.Keys) <= r.fields.Keys
      requires forall l :: l in old(lists) ==> |l.items| == old(|l.items|)
      ensures Follows(old(Now()), Now())
    {
    }

    /** What every step of a run leaves. */
    ghost predicate Stands(r: Outcome)
      reads this, frames, records, lists
    {
      steps <= MAX_STEPS + 1 && (r.Ok? ==> Running() && Inside(r.value, Now()))
    }

    ghost predicate StandsAll(values: Option<seq<Value>>)
      reads this, frames, records, lists
    {
      steps <= MAX_STEPS + 1 && (values.Some? ==> Running() && AllInside(values.value, Now()))
    }

    ghost predicate EndsInside(c: Completion)
      reads this, frames, records, lists
    {
      steps <= MAX_STEPS + 1 && (!c.Broken? ==> Running()) && (c.Returned? ==> Inside(c.value, Now()))
    }

    /** A statement that is done has declared its names. */
    ghost predicate Ends(c: Completion, scope: Scope, names: set<string>)
      reads this, frames, records, lists
    {
      EndsInside(c) && (c.Done? ==> Has(Now(), scope, names))
    }

    twostate lemma Named(name: string)
      requires old(frames) == frames && old(records) == records && old(lists) == lists
      requires forall r :: r in records ==> old(r.fields.Keys) <= r.fields.Keys
      requires forall l :: l in lists ==> |l.items| == old(|l.items|)
      ensures forall scope: Scope ::
                && scope != [] && scope[0] in frames && scope[0].vars.Keys == old(scope[0].vars.Keys) + {name}
                && (forall f :: f in frames && f != scope[0] ==> f.vars.Keys == old(f.vars.Keys))
                ==> Declares(old(Now()), Now(), scope, {name}) && Has(Now(), scope, {name})
    {
    }

    constructor (host: Host, ghost frames: set<Frame>, ghost records: set<Record>, ghost lists: set<Items>,
        ghost age: map<Value, nat>, ghost stored: bool)
      ensures this.host == host && steps == 0 && asked == 0 && !crashed
      ensures this.frames == frames && this.records == records && this.lists == lists
      ensures this.age == age && this.stored == stored
    {
      this.host, steps, asked, crashed := host, 0, 0, false;
      this.frames, this.records, this.lists := frames, records, lists;
      this.age, this.stored, calls := age, stored, [];
    }

    method Tick() returns (ok: bool)
      modifies this`steps
      ensures steps == old(steps) + 1 && (ok <==> steps <= MAX_STEPS)
    {
      steps := steps + 1;
      return steps <= MAX_STEPS;
    }

    method NextQuestion() returns (k: nat)
      modifies this`asked
      ensures k == old(asked) && asked == k + 1
    {
      k := asked;
      asked := asked + 1;
    }

    method Enter(scope: Scope, vars: map<string, Value>) returns (inner: Scope)
      requires Valid() && Sees(scope, Now()) && MapInside(vars, Now())
      modifies this`frames
      ensures Valid() && Later() && Follows(old(Now()), Now()) && Sees(inner, Now())
      ensures inner != [] && inner[1..] == scope && fresh(inner[0]) && inner[0] !in old(Now()).frames
              && inner[0].vars == vars && frames == old(frames) + {inner[0]}
    {
      hide Inside, MapInside, AllInside, Sees, Now, Follows, Aged, Valid, Contained;
      var frame := new Frame(vars);
      NowFrames();
      ghost var before := Now();
      AddFrame(frame);
      Grow(before, Now());
      NowFrames();
      inner := [frame] + scope;
      SeesMore(frame, scope, Now());
    }

    ghost method AddFrame(frame: Frame)
      requires Valid() && frame !in frames && MapInside(frame.vars, Now())
      modifies this`frames
      ensures Valid() && Follows(old(Now()), Now()) && frames == old(frames) + {frame}
    {
      hide Inside, MapInside, AllInside, Sees, Now, Follows, Aged, Valid, Contained;
      ContainedIs();
      ghost var before := Now();
      frames := frames + {frame};
      Evolved();
      Grow(before, Now());
      StillContained();
      ValidIs();
    }

    lemma FieldsAreOlder(fields: map<string, Value>)
      requires Valid() && !stored && MapInside(fields, Now())
      ensures forall key :: key in fields ==>
                Made(fields[key], records, lists) && Age(fields[key]) <= |records| + |lists|
    {
      NowIs();
      forall key | key in fields
        ensures Made(fields[key], records, lists) && Age(fields[key]) <= |records| + |lists|
      {
        InsideIs(fields[key], Now());
      }
    }

    lemma ItemsAreOlder(items: seq<Value>)
      requires Valid() && !stored && AllInside(items, Now())
      ensures forall i :: 0 <= i < |items| ==>
                Made(items[i], records, lists) && Age(items[i]) <= |records| + |lists|
    {
      NowIs();
      forall i | 0 <= i < |items| ensures Made(items[i], records, lists) && Age(items[i]) <= |records| + |lists| {
        InsideIs(items[i], Now());
      }
    }

    method NewRecord(fields: map<string, Value>) returns (v: Value)
      requires Valid() && MapInside(fields, Now())
      modifies this`records, this`age
      ensures Valid() && Later() && Follows(old(Now()), Now()) && Inside(v, Now()) && v.Obj? && fresh(v.record)
              && v.record.fields == fields && records == old(records) + {v.record}
    {
      hide Inside, MapInside, AllInside, Sees, Now, Follows, Aged, Valid, Contained;
      var record := new Record(fields);
      AddRecord(record);
      v := Obj(record);
      NowIs();
      InsideIs(v, Now());
    }

    ghost method AddRecord(record: Record)
      requires Valid() && record !in records && MapInside(record.fields, Now())
      modifies this`records, this`age
      ensures Valid() && Follows(old(Now()), Now()) && records == old(records) + {record}
    {
      hide Inside, MapInside, AllInside, Sees, Now, Follows, Aged, Valid, Contained, Closed;
      ContainedIs();
      RunIsClosed();
      if !stored {
        FieldsAreOlder(record.fields);
      }
      ghost var before := Now();
      records := records + {record};
      age := age[Obj(record) := |records| + |lists|];
      Evolved();
      Grow(before, Now());
      StillContained();
      if !stored {
        StillAged();
      }
      ValidIs();
    }

    method NewList(items: seq<Value>) returns (v: Value)
      requires Valid() && AllInside(items, Now())
      modifies this`lists, this`age
      ensures Valid() && Later() && Follows(old(Now()), Now()) && Inside(v, Now()) && v.Arr? && fresh(v.list)
              && v.list.items == items && lists == old(lists) + {v.list}
    {
      hide Inside, MapInside, AllInside, Sees, Now, Follows, Aged, Valid, Contained;
      var list := new Items(items);
      AddList(list);
      v := Arr(list);
      NowIs();
      InsideIs(v, Now());
    }

    ghost method AddList(list: Items)
      requires Valid() && list !in lists && AllInside(list.items, Now())
      modifies this`lists, this`age
      ensures Valid() && Follows(old(Now()), Now()) && lists == old(lists) + {list}
    {
      hide Inside, MapInside, AllInside, Sees, Now, Follows, Aged, Valid, Contained, Closed;
      ContainedIs();
      RunIsClosed();
      if !stored {
        ItemsAreOlder(list.items);
      }
      ghost var before := Now();
      lists := lists + {list};
      age := age[Arr(list) := |records| + |lists|];
      Evolved();
      Grow(before, Now());
      StillContained();
      if !stored {
        StillAged();
      }
      ValidIs();
    }

    // -----------------------------------------------------------------------------------------
    // Names
    // -----------------------------------------------------------------------------------------

    method Lookup(scope: Scope, name: string) returns (found: Option<Value>)
      requires Valid() && Sees(scope, Now())
      ensures found.Some? ==> Inside(found.value, Now())
      ensures var k := Level(scope, name);
              found == if k < |scope| then Some(scope[k].vars[name]) else None
    {
      for i := 0 to |scope|
        invariant forall j :: 0 <= j < i ==> name !in scope[j].vars
      {
        if name in scope[i].vars {
          return Some(scope[i].vars[name]);
        }
      }
      return None;
    }

    /** Changes a variable where it was declared last, and nothing else. */
    method AssignName(scope: Scope, name: string, v: Value) returns (ok: bool)
      requires Valid() && Sees(scope, Now()) && Inside(v, Now())
      modifies Holder(scope, name)
      ensures Valid() && Later() && Follows(old(Now()), Now())
      ensures var k := old(Level(scope, name));
              && (ok <==> k < |scope|)
              && (ok ==> scope[k].vars == old(scope[k].vars)[name := v])
              && forall f :: f in scope && (ok ==> f != scope[k]) ==> f.vars == old(f.vars)
    {
      hide Inside, MapInside, AllInside, Sees, Now, Follows;
      ghost var before := Now();
      var i := 0;
      while i < |scope| && name !in scope[i].vars
        invariant i <= |scope|
        invariant forall j :: 0 <= j < i ==> name !in scope[j].vars
      {
        i := i + 1;
      }
      if i == |scope| {
        Same(before);
        return false;
      }
      ScopeIs(scope, i);
      MapUpdated(scope[i].vars, name, v, before);
      scope[i].vars := scope[i].vars[name := v];
      Evolved();
      Grow(before, Now());
      return true;
    }

    // -----------------------------------------------------------------------------------------
    // Conversions
    // -----------------------------------------------------------------------------------------

    ghost function Text(v: Value): Option<string>
      reads this`lists, lists
    {
      TextOf(host, v, host.stack, lists)
    }

    method Overflow()
      requires Valid() && (stored || |records| + |lists| > host.stack)
      modifies this`crashed
      ensures Valid() && crashed
    {
      crashed := true;
    }

    /** The text of a value; without one the stack is used up. */
    method ToText(v: Value) returns (text: Option<string>)
      requires Valid() && Inside(v, Now()) && !crashed
      modifies this`crashed
      ensures Valid() && text == Text(v) && (crashed <==> text.None?)
    {
      text := ConvertText(v, host.stack);
      if text.None? {
        TooDeep(v);
        Overflow();
      }
    }

    method ConvertText(v: Value, depth: nat) returns (text: Option<string>)
      requires Valid() && Inside(v, Now())
      ensures text == TextOf(host, v, depth, lists)
      decreases depth, 0
    {
      hide Valid, Inside, Now, Joined;
      InsideIs(v, Now());
      match v {
        case Undefined => return Some("undefined");
        case Null => return Some("null");
        case Bool(truth) => return Some(if truth then "true" else "false");
        case Num(n) => return Some(host.show(n));
        case Str(text) => return Some(text);
        case Obj(_) => return Some("[object Object]");
        case Arr(list) =>
          if depth == 0 {
            return None;
          }
          NowIs();
          text := JoinTexts(list, ",", depth - 1);
        case Closure(_, _, _) => return Some("function");
        case Builtin(_, _) => return Some("function");
      }
    }

    method JoinTexts(list: Items, separator: string, depth: nat) returns (text: Option<string>)
      requires Valid() && list in lists
      ensures text == Joined(host, list.items, |list.items|, separator, depth, lists)
      decreases depth, 1
    {
      hide Valid, Inside, Now;
      var joined := "";
      for i := 0 to |list.items|
        invariant Joined(host, list.items, i, separator, depth, lists) == Some(joined)
      {
        var part := Some("");
        if !IsNullish(list.items[i]) {
          ItemInside(list, i);
          part := ConvertText(list.items[i], depth);
        }
        if part.None? {
          NothingJoined(list.items, i + 1, |list.items|, separator, depth);
          return None;
        }
        joined := joined + (if i == 0 then "" else separator) + part.value;
      }
      return Some(joined);
    }

    /** One text that does not fit spoils the whole. */
    lemma {:induction false} NothingJoined(items: seq<Value>, i: nat, n: nat, separator: string, depth: nat)
      requires i <= n <= |items| && Joined(host, items, i, separator, depth, lists).None?
      ensures Joined(host, items, n, separator, depth, lists).None?
      decreases n
    {
      if i < n {
        NothingJoined(items, i, n - 1, separator, depth);
      }
    }

    /** What this run made leads nowhere else. */
    lemma RunIsClosed()
      requires Valid()
      ensures Closed(records, lists)
      ensures forall v :: Inside(v, Now()) ==> Made(v, records, lists)
    {
      NowIs();
    }

    /** Parts are older than what they are parts of, which bounds the way down. */
    lemma {:induction false} AgeBounds(v: Value, deep: bool)
      requires Valid() && !stored && Made(v, records, lists)
      ensures Bounded(v, deep, Age(v), records, lists) && Age(v) <= |records| + |lists|
      decreases Age(v)
    {
      RunIsClosed();
      if v.Arr? {
        forall i | 0 <= i < |v.list.items| ensures Bounded(v.list.items[i], deep, Age(v) - 1, records, lists) {
          AgeBounds(v.list.items[i], deep);
          BoundedMore(v.list.items[i], deep, Age(v.list.items[i]), Age(v) - 1, records, lists);
        }
      } else if v.Obj? {
        forall key | key in v.record.fields
          ensures Bounded(v.record.fields[key], deep, Age(v) - 1, records, lists)
        {
          AgeBounds(v.record.fields[key], deep);
          BoundedMore(v.record.fields[key], deep, Age(v.record.fields[key]), Age(v) - 1, records, lists);
        }
      }
    }

    /** Whatever the run has made, its text and its JSON fit some stack if and only if nothing it leads to contains
        itself. */
    lemma ConversionsEndIff(v: Value)
      requires Valid() && Inside(v, Now())
      ensures (exists depth: nat :: TextOf(host, v, depth, lists).Some?)
              <==> FreeOfCycles(v, false, records, lists)
      ensures (exists depth: nat :: Bounded(v, true, depth, records, lists))
              <==> FreeOfCycles(v, true, records, lists)
    {
      RunIsClosed();
      EndsIff(v, false, records, lists);
      EndsIff(v, true, records, lists);
      hide FreeOfCycles, Valid, Inside, Now, Closed, Made, TextOf, Bounded;
      if depth: nat :| TextOf(host, v, depth, lists).Some? {
        TextIffBounded(host, v, depth, records, lists);
      }
      if depth: nat :| Bounded(v, false, depth, records, lists) {
        TextIffBounded(host, v, depth, records, lists);
      }
    }

    lemma TooDeep(v: Value)
      requires Valid() && Inside(v, Now())
      requires Text(v).None? || !Bounded(v, true, host.stack, records, lists)
      ensures stored || |records| + |lists| > host.stack
    {
      RunIsClosed();
      TextIffBounded(host, v, host.stack, records, lists);
      if !stored && |records| + |lists| <= host.stack {
        AgeBounds(v, false);
        AgeBounds(v, true);
        BoundedMore(v, false, Age(v), host.stack, records, lists);
        BoundedMore(v, true, Age(v), host.stack, records, lists);
      }
    }

    lemma JoinTooDeep(list: Items, separator: string)
      requires Valid() && list in lists
      requires Joined(host, list.items, |list.items|, separator, host.stack, lists).None?
      ensures stored || |records| + |lists| > host.stack
    {
      RunIsClosed();
      JoinedIffBounded(host, list.items, |list.items|, separator, host.stack, records, lists);
      if !stored && |records| + |lists| <= host.stack {
        forall i | 0 <= i < |list.items| ensures Bounded(list.items[i], false, host.stack, records, lists) {
          AgeBounds(list.items[i], false);
          BoundedMore(list.items[i], false, Age(list.items[i]), host.stack, records, lists);
        }
      }
    }

    /** How two values compare, unless both are functions. */
    ghost function Equals(left: Value, right: Value, strict: bool): Option<bool>
      reads this`records, this`lists, records, lists
    {
      if IsNullish(left) || IsNullish(right) then
        Some(IsNullish(left) && IsNullish(right) && (strict ==> left == right))
      else if strict && TypeOf(left) != TypeOf(right) then Some(false)
      else if left.Str? && right.Str? then Some(left.text == right.text)
      else if left.Bool? && right.Bool? then Some(left.truth == right.truth)
      else if left.Str? || left.Bool? || left.Num? then
        Some(SameNumber(NumberOf(host, left), NumberOf(host, right)))
      else if left.Obj? && right.Obj? then
        if left.record in records then Some(left == right && left.record.fields != map[]) else None
      else if left.Arr? && right.Arr? then
        if left.list in lists then Some(left == right && left.list.items != []) else None
      else if IsFunction(left) && IsFunction(right) then None
      else Some(false)
    }

    /** Nullish values equal each other only, and strictly only their own kind; strictly equal values are of one
        type; texts, truth values and numbers compare by what they are, and objects and arrays by which they are,
        except that empty ones equal nothing. */
    method LooseEqual(left: Value, right: Value, strict: bool) returns (same: bool)
      modifies this`asked
      ensures Equals(left, right, strict).Some? ==> same == Equals(left, right, strict).value
      ensures IsNullish(left) || IsNullish(right) ==>
                (same <==> IsNullish(left) && IsNullish(right) && (strict ==> left == right))
      ensures strict && same ==> TypeOf(left) == TypeOf(right)
      ensures left.Str? && right.Str? ==> (same <==> left.text == right.text)
      ensures left.Bool? && right.Bool? ==> (same <==> left.truth == right.truth)
      ensures left.Num? && right.Num? ==> (same <==> SameNumber(left.number, right.number))
      ensures left.Obj? && IsObject(right) ==> (same <==> left == right && left.record.fields != map[])
      ensures left.Arr? && IsObject(right) ==> (same <==> left == right && left.list.items != [])
    {
      if IsNullish(left) || IsNullish(right) {
        return IsNullish(left) && IsNullish(right) && (strict ==> left.Undefined? == right.Undefined?);
      }
      if strict && TypeOf(left) != TypeOf(right) {
        return false;
      }
      if left.Str? && right.Str? {
        return left.text == right.text;
      } else if left.Bool? && right.Bool? {
        return left.truth == right.truth;
      } else if left.Str? || left.Bool? {
        if strict {
          return false;
        }
        return SameNumber(NumberOf(host, left), NumberOf(host, right));
      } else if left.Num? {
        return SameNumber(left.number, NumberOf(host, right));
      }
      same := SameReference(left, right);
    }

    /** Two empty objects, and two empty arrays, are never the same. */
    method SameReference(left: Value, right: Value) returns (same: bool)
      modifies this`asked
      ensures left.Obj? ==> (same <==> left == right && left.record.fields != map[])
      ensures left.Arr? ==> (same <==> left == right && left.list.items != [])
      ensures same ==> TypeOf(left) == TypeOf(right)
      ensures same ==> IsObject(left) || IsFunction(left)
    {
      if left.Obj? && right.Obj? {
        return !(left.record.fields == map[] && right.record.fields == map[]) && left.record == right.record;
      } else if left.Arr? && right.Arr? {
        return !(left.list.items == [] && right.list.items == []) && left.list == right.list;
      } else if IsFunction(left) && IsFunction(right) {
        var k := NextQuestion();
        return host.truths(k);
      }
      return false;
    }

    /** A sum with a text joins texts; everything else is done with numbers. */
    method Arithmetic(op: string, left: Value, right: Value) returns (r: Outcome)
      requires Valid() && Inside(left, Now()) && Inside(right, Now()) && !crashed
      modifies this`crashed
      ensures Valid()
      ensures ArithmeticOf(op, left, right).Some? ==> !crashed && r == Ok(ArithmeticOf(op, left, right).value)
      ensures ArithmeticOf(op, left, right).None? ==> r == Failed
      ensures crashed <==>
                op == "+" && (left.Str? || right.Str?) && (Text(left).None? || Text(right).None?)
    {
      hide Valid, Inside, Now, TextOf, Bytes;
      if op == "+" && (left.Str? || right.Str?) {
        var a := ToText(left);
        if a.None? {
          return Failed;
        }
        var b := ToText(right);
        if b.None? {
          return Failed;
        }
        return if Bytes(a.value + b.value) > MAX_STRING then Failed else Ok(Str(a.value + b.value));
      }
      if op in {"+", "-", "*", "/", "%"} {
        return Ok(Num(host.compute(op, NumberOf(host, left), NumberOf(host, right))));
      }
      return Failed;
    }

    /** What an operator makes of two values. */
    ghost function BinaryOf(op: string, left: Value, right: Value): Option<Value>
      reads this`records, this`lists, records, lists
    {
      if IsEquality(op) then
        var same := Equals(left, right, IsStrict(op));
        if same.None? then None else Some(Bool(same.value == IsPositive(op)))
      else if IsOrder(op) then Some(Bool(Ordered(host, op, left, right)))
      else ArithmeticOf(op, left, right)
    }

    ghost function ArithmeticOf(op: string, left: Value, right: Value): Option<Value>
      reads this`lists, lists
    {
      if op == "+" && (left.Str? || right.Str?) then
        var a, b := Text(left), Text(right);
        if a.None? || b.None? || Bytes(a.value + b.value) > MAX_STRING then None else Some(Str(a.value + b.value))
      else if op in {"+", "-", "*", "/", "%"} then
        Some(Num(host.compute(op, NumberOf(host, left), NumberOf(host, right))))
      else None
    }

    // What operators make of texts, numbers and the values that say nothing

    lemma OperatorsOnTexts(s: string, t: string)
      ensures BinaryOf("+", Str(s), Str(t)) == if Bytes(s + t) <= 1_048_576 then Some(Str(s + t)) else None
      ensures BinaryOf("<", Str(s), Str(t)) == Some(Bool(TextLess(s, t)))
      ensures BinaryOf(">", Str(s), Str(t)) == Some(Bool(TextLess(t, s)))
      ensures BinaryOf("<=", Str(s), Str(t)) == Some(Bool(s == t || TextLess(s, t)))
      ensures BinaryOf(">=", Str(s), Str(t)) == Some(Bool(s == t || TextLess(t, s)))
      ensures BinaryOf("===", Str(s), Str(t)) == BinaryOf("==", Str(s), Str(t)) == Some(Bool(s == t))
      ensures BinaryOf("!==", Str(s), Str(t)) == BinaryOf("!=", Str(s), Str(t)) == Some(Bool(s != t))
    {
      TextOrder(s, t);
      TextOrder(t, s);
      hide Bytes, TextLess;
    }

    lemma OperatorsOnNumbers(x: real, y: real, op: string)
      ensures BinaryOf("<", Num(Finite(x)), Num(Finite(y))) == Some(Bool(x < y))
      ensures BinaryOf(">", Num(Finite(x)), Num(Finite(y))) == Some(Bool(x > y))
      ensures BinaryOf("<=", Num(Finite(x)), Num(Finite(y))) == Some(Bool(x <= y))
      ensures BinaryOf(">=", Num(Finite(x)), Num(Finite(y))) == Some(Bool(x >= y))
      ensures BinaryOf("===", Num(Finite(x)), Num(Finite(y))) == BinaryOf("==", Num(Finite(x)), Num(Finite(y)))
              == Some(Bool(x == y))
      ensures BinaryOf("!==", Num(Finite(x)), Num(Finite(y))) == BinaryOf("!=", Num(Finite(x)), Num(Finite(y)))
              == Some(Bool(x != y))
      ensures op in {"+", "-", "*", "/", "%"} ==>
                BinaryOf(op, Num(Finite(x)), Num(Finite(y))) == Some(Num(host.compute(op, Finite(x), Finite(y))))
    {
    }

    /** Values of two kinds are never strictly equal; loosely, texts and truth values compare as numbers.  Null and
        undefined are loosely equal to each other and to nothing else. */
    lemma OperatorsOnKinds(s: string, x: real, v: Value)
      ensures BinaryOf("===", Str(s), Num(Finite(x))) == BinaryOf("===", Num(Finite(x)), Str(s)) == Some(Bool(false))
      ensures BinaryOf("==", Str(s), Num(Finite(x))) == BinaryOf("==", Num(Finite(x)), Str(s))
              == Some(Bool(host.read(s) == Finite(x)))
      ensures BinaryOf("==", Bool(true), Num(Finite(x))) == Some(Bool(x == 1.0))
      ensures BinaryOf("==", Null, Undefined) == BinaryOf("===", Null, Null) == Some(Bool(true))
      ensures BinaryOf("===", Null, Undefined) == Some(Bool(false))
      ensures v != Null && v != Undefined ==>
                BinaryOf("==", Null, v) == BinaryOf("==", v, Undefined) == Some(Bool(false))
      ensures BinaryOf("+", Str(s), Num(Finite(x))) ==
              if Bytes(s + host.show(Finite(x))) <= 1_048_576 then Some(Str(s + host.show(Finite(x)))) else None
      ensures BinaryOf("+", Bool(true), Num(Finite(x))) == Some(Num(host.compute("+", Finite(1.0), Finite(x))))
    {
      hide Bytes;
    }

    lemma UnaryOperators(s: string, x: real, b: bool, record: Record)
      ensures UnaryOf(host, "!", Str(s)) == Some(Bool(s == ""))
      ensures UnaryOf(host, "!", Num(Finite(x))) == Some(Bool(x == 0.0))
      ensures UnaryOf(host, "!", Obj(record)) == Some(Bool(false)) && UnaryOf(host, "!", Bool(b)) == Some(Bool(!b))
      ensures UnaryOf(host, "-", Num(Finite(x))) == Some(Num(Finite(-x)))
      ensures UnaryOf(host, "-", Bool(true)) == Some(Num(Finite(-1.0)))
      ensures UnaryOf(host, "+", Str(s)) == Some(Num(host.read(s)))
      ensures UnaryOf(host, "+", Null) == Some(Num(Finite(0.0)))
      ensures UnaryOf(host, "typeof", Str(s)) == Some(Str("string"))
      ensures UnaryOf(host, "typeof", Num(Finite(x))) == Some(Str("number"))
      ensures UnaryOf(host, "typeof", Bool(b)) == Some(Str("boolean"))
      ensures UnaryOf(host, "typeof", Null) == UnaryOf(host, "typeof", Obj(record)) == Some(Str("object"))
      ensures UnaryOf(host, "typeof", Undefined) == Some(Str("undefined"))
    {
    }

    /** The left side decides when it is false, true, or neither null nor undefined; otherwise the right side is the
        result. */
    lemma LogicalOperators(left: Node, right: Node, at: Place)
      requires Known(left, at).Some?
      ensures var v, w := Known(left, at).value, Known(right, at);
              && Known(Logical("&&", left, right), at) == (if Truthy(v) then w else Some(v))
              && Known(Logical("||", left, right), at) == (if Truthy(v) then Some(v) else w)
              && Known(Logical("??", left, right), at) == (if v == Null || v == Undefined then w else Some(v))
    {
      KnownLogical("&&", left, right, at);
      KnownLogical("||", left, right, at);
      KnownLogical("??", left, right, at);
      hide Known, Truthy;
    }

    method Operate(op: string, left: Value, right: Value) returns (r: Outcome)
      requires Valid() && Inside(left, Now()) && Inside(right, Now()) && !crashed
      modifies this`crashed, this`asked
      ensures Valid()
      ensures r.Ok? ==> !crashed && (r.value.Str? || r.value.Num? || r.value.Bool?)
      ensures BinaryOf(op, left, right).Some? ==> r == Ok(BinaryOf(op, left, right).value)
    {
      hide Valid, Inside, Now, TextOf, Bytes, Ordered, Equals, IsEquality, IsStrict, IsPositive, IsOrder;
      if IsEquality(op) {
        var same := LooseEqual(left, right, IsStrict(op));
        return Ok(Bool(same == IsPositive(op)));
      } else if IsOrder(op) {
        return Ok(Bool(Ordered(host, op, left, right)));
      }
      r := Arithmetic(op, left, right);
    }

    // -----------------------------------------------------------------------------------------
    // Properties and built-in functions
    // -----------------------------------------------------------------------------------------

    method GetProperty(subject: Value, key: string) returns (v: Value)
      requires Valid() && Inside(subject, Now())
      ensures Inside(v, Now()) && v == PropertyOf(subject, key)
      ensures subject.Obj? ==>
                (key in subject.record.fields ==> v == subject.record.fields[key])
                && (key !in subject.record.fields ==> v == Undefined)
      ensures subject.Arr? && key == "length" ==> v == Num(Finite(|subject.list.items| as real))
      ensures subject.Arr? && key != "length" && host.index(key).Some? ==>
                var i := host.index(key).value;
                v == if 0 <= i < |subject.list.items| then subject.list.items[i] else Undefined
      ensures subject.Str? && key == "length" ==> v == Num(Finite(|subject.text| as real))
      ensures v.Builtin? && !subject.Obj? && !(subject.Arr? && host.index(key).Some?) ==>
                v.name == key
                && (subject.Arr? ==> v.owner == OfArray(subject.list))
                && (subject.Str? ==> v.owner == OfText(subject.text))
                && (subject.Num? ==> v.owner == OfNumber(subject.number))
      ensures !subject.Obj? && !subject.Arr? && !subject.Str? && !subject.Num? ==> v == Undefined
    {
      match subject {
        case Obj(record) => return if key in record.fields then record.fields[key] else Undefined;
        case Arr(list) => return ArrayProperty(list, key);
        case Str(text) =>
          return if key == "length" then Num(Finite(|text| as real))
            else if IsTextMethod(key) then Builtin(key, OfText(text)) else Undefined;
        case Num(n) =>
          return if key == "toFixed" || key == "toString" then Builtin(key, OfNumber(n)) else Undefined;
        case _ => return Undefined;
      }
    }

    function PropertyOf(subject: Value, key: string): Value
      reads if subject.Obj? then {subject.record} else {}, if subject.Arr? then {subject.list} else {}
    {
      match subject
      case Obj(record) => if key in record.fields then record.fields[key] else Undefined
      case Arr(list) => ArrayProperty(list, key)
      case Str(text) =>
        if key == "length" then Num(Finite(|text| as real))
        else if IsTextMethod(key) then Builtin(key, OfText(text)) else Undefined
      case Num(n) => if key == "toFixed" || key == "toString" then Builtin(key, OfNumber(n)) else Undefined
      case _ => Undefined
    }

    function ArrayProperty(list: Items, key: string): Value
      reads list
    {
      if key == "length" then Num(Finite(|list.items| as real))
      else
        match host.index(key)
        case Some(i) => if 0 <= i < |list.items| then list.items[i] else Undefined
        case None =>
          if key in {"join", "includes", "indexOf", "slice"} || IsCallbackMethod(key) then Builtin(key, OfArray(list))
          else Undefined
    }

    /** Sets a field or an existing element. */
    method SetProperty(subject: Value, key: string, v: Value) returns (ok: bool)
      requires Valid() && Inside(subject, Now()) && Inside(v, Now())
      modifies records, lists, this`stored
      ensures Valid() && Later() && (old(stored) ==> stored) && Follows(old(Now()), Now())
      ensures ok <==> subject.Obj? || (subject.Arr? && var i := host.index(key);
              i.Some? && 0 <= i.value < old(|subject.list.items|))
      ensures ok && subject.Obj? ==> subject.record.fields == old(subject.record.fields)[key := v]
      ensures ok && subject.Arr? ==> subject.list.items == old(subject.list.items)[host.index(key).value := v]
    {
      hide Inside, MapInside, AllInside, Sees, Now, Follows, Aged, Valid, Contained;
      NowIs();
      InsideIs(subject, Now());
      Same(Now());
      var i := host.index(key);
      if subject.Obj? {
        SetField(subject.record, key, v);
      } else if subject.Arr? && i.Some? && 0 <= i.value < |subject.list.items| {
        SetItem(subject.list, i.value, v);
      } else {
        return false;
      }
      return true;
    }

    method SetField(record: Record, key: string, v: Value)
      requires Valid() && record in records && Inside(v, Now())
      modifies record, this`stored
      ensures Valid() && (old(stored) ==> stored) && Follows(old(Now()), Now())
      ensures record.fields == old(record.fields)[key := v]
    {
      hide Inside, MapInside, AllInside, Sees, Now, Follows, Aged, Valid, Contained, Closed;
      ContainedIs();
      RunIsClosed();
      ghost var before := Now();
      RecordIsInside(record);
      MapUpdated(record.fields, key, v, before);
      stored := stored || IsObject(v);
      record.fields := record.fields[key := v];
      Evolved();
      Grow(before, Now());
      StillContained();
      if !stored {
        StillAged();
      }
      ValidIs();
    }

    method SetItem(list: Items, i: nat, v: Value)
      requires Valid() && list in lists && i < |list.items| && Inside(v, Now())
      modifies list, this`stored
      ensures Valid() && (old(stored) ==> stored) && Follows(old(Now()), Now())
      ensures list.items == old(list.items)[i := v]
    {
      hide Inside, MapInside, AllInside, Sees, Now, Follows, Aged, Valid, Contained, Closed;
      ContainedIs();
      RunIsClosed();
      ghost var before := Now();
      ListIsInside(list);
      AllUpdated(list.items, i, v, before);
      stored := stored || IsObject(v);
      list.items := list.items[i := v];
      Evolved();
      Grow(before, Now());
      StillContained();
      if !stored {
        StillAged();
      }
      ValidIs();
    }

    lemma RecordIsInside(record: Record)
      requires Valid() && record in records
      ensures MapInside(record.fields, Now())
    {
      hide MapInside;
    }

    lemma ListIsInside(list: Items)
      requires Valid() && list in lists
      ensures AllInside(list.items, Now())
    {
      hide AllInside;
    }

    method TextList(texts: seq<string>) returns (v: Value)
      requires Valid()
      modifies this`lists, this`age
      ensures Valid() && Later() && Follows(old(Now()), Now()) && Inside(v, Now())
      ensures v.Arr? && fresh(v.list) && |v.list.items| == |texts|
      ensures forall i :: 0 <= i < |texts| ==> v.list.items[i] == Str(texts[i])
    {
      v := NewList(seq(|texts|, i requires 0 <= i < |texts| => Str(texts[i])));
    }

    /** The keys of an object in order. */
    method Keys(v: Value) returns (keys: seq<string>)
      ensures Ascending(keys)
      ensures forall key :: key in keys <==> v.Obj? && key in v.record.fields
    {
      keys := SortedKeys(if v.Obj? then v.record.fields.Keys else {});
    }

    method ValuesOf(v: Value) returns (values: seq<Value>)
      requires Valid() && Inside(v, Now())
      ensures AllInside(values, Now())
    {
      var keys := Keys(v);
      if v.Obj? {
        values := seq(|keys|,
          i requires 0 <= i < |keys| && keys[i] in v.record.fields reads v.record => v.record.fields[keys[i]]);
      } else {
        values := [];
      }
    }

    method Entries(v: Value) returns (values: seq<Value>)
      requires Valid() && Inside(v, Now())
      modifies this`lists, this`age
      ensures Valid() && Later() && Follows(old(Now()), Now()) && AllInside(values, Now())
    {
      hide Valid, Inside, Follows, Sees, Now, Known, Sure;
      ghost var start := Now();
      Same(start);
      var keys := Keys(v);
      values := [];
      for i := 0 to |keys|
        invariant Valid() && Later() && Follows(start, Now()) && AllInside(values, Now())
      {
        ghost var before := Now();
        Chain(start, start, before);
        InsideIs(Str(keys[i]), before);
        assert keys[i] in keys;
        FieldInside(v, keys[i]);
        var pair := NewList([Str(keys[i]), v.record.fields[keys[i]]]);
        Chain(start, before, Now());
        values := values + [pair];
      }
    }

    lemma FieldInside(v: Value, key: string)
      requires Valid() && Inside(v, Now()) && v.Obj? && key in v.record.fields
      ensures Inside(v.record.fields[key], Now())
    {
    }

    lemma ItemInside(list: Items, i: nat)
      requires Valid() && list in lists && i < |list.items|
      ensures Inside(list.items[i], Now())
    {
    }

    /** Builds a decoded document out of new objects and arrays. */
    method Build(json: Json) returns (v: Value)
      requires Valid()
      modifies this`records, this`lists, this`age
      ensures Valid() && Later() && Follows(old(Now()), Now()) && Inside(v, Now())
      ensures old(records) <= records && old(lists) <= lists && Mirrors(v, json, records, lists)
      decreases json
    {
      hide Valid, Inside, Follows, Sees, Now;
      Same(Now());
      match json {
        case JsonNull => v := Null;
        case JsonBool(truth) => v := Bool(truth);
        case JsonNumber(n) => v := Num(n);
        case JsonText(text) => v := Str(text);
        case JsonList(items) =>
          v := BuildList(items);
          return;
        case JsonFields(keys, members) =>
          v := BuildRecord(keys, members);
          return;
      }
      InsideIs(v, Now());
    }

    method BuildList(items: seq<Json>) returns (v: Value)
      requires Valid()
      modifies this`records, this`lists, this`age
      ensures Valid() && Later() && Follows(old(Now()), Now()) && Inside(v, Now())
      ensures old(records) <= records && old(lists) <= lists && Mirrors(v, JsonList(items), records, lists)
      decreases items
    {
      hide Valid, Inside, Follows, Sees, Now, Mirrors, MirrorsAll, MirrorsFields;
      ghost var start := Now();
      Same(start);
      var values := [];
      NothingMirrored(items, [], records, lists);
      for i := 0 to |items|
        invariant Valid() && Later() && Follows(start, Now()) && AllInside(values, Now()) && |values| == i
        invariant old(records) <= records && old(lists) <= lists && MirrorsAll(values, items[..i], records, lists)
      {
        ghost var before, oldRecords, oldLists := Now(), records, lists;
        var item := Build(items[i]);
        Chain(start, before, Now());
        MirrorsAllMore(values, items[..i], oldRecords, oldLists, records, lists);
        assert (values + [item])[..i] == values;
        values := values + [item];
        OneMoreMirrored(values, items, i, records, lists);
      }
      ghost var before, oldRecords, oldLists := Now(), records, lists;
      assert items[..|items|] == items;
      v := NewList(values);
      Chain(start, before, Now());
      MirrorsAllMore(values, items, oldRecords, oldLists, records, lists);
      ListMirrors(v, items, records, lists);
    }

    /** A key without a value does not occur in decoded documents. */
    method BuildRecord(keys: seq<string>, members: seq<Json>) returns (v: Value)
      requires Valid()
      modifies this`records, this`lists, this`age
      ensures Valid() && Later() && Follows(old(Now()), Now()) && Inside(v, Now())
      ensures old(records) <= records && old(lists) <= lists && Mirrors(v, JsonFields(keys, members), records, lists)
      decreases members
    {
      hide Valid, Inside, Follows, Sees, Now, Mirrors, MirrorsAll, MirrorsFields;
      ghost var start := Now();
      Same(start);
      var fields := map[];
      NothingMirrored(members, keys, records, lists);
      for i := 0 to |keys|
        invariant Valid() && Later() && Follows(start, Now()) && MapInside(fields, Now())
        invariant old(records) <= records && old(lists) <= lists
        invariant MirrorsFields(fields, keys[..i], members, records, lists)
      {
        if i < |members| {
          ghost var before, oldRecords, oldLists := Now(), records, lists;
          var item := Build(members[i]);
          Chain(start, before, Now());
          MirrorsFieldsMore(fields, keys[..i], members, oldRecords, oldLists, records, lists);
          OneMoreField(fields, keys, members, i, item, records, lists);
          fields := fields[keys[i] := item];
        } else {
          NoMoreFields(fields, keys, members, i, records, lists);
        }
      }
      ghost var before, oldRecords, oldLists := Now(), records, lists;
      assert keys[..|keys|] == keys;
      v := NewRecord(fields);
      Chain(start, before, Now());
      MirrorsFieldsMore(fields, keys, members, oldRecords, oldLists, records, lists);
      RecordMirrors(v, keys, members, records, lists);
    }

    method EntryList(v: Value) returns (list: Value)
      requires Valid() && Inside(v, Now())
      modifies this`lists, this`age
      ensures Valid() && Later() && Follows(old(Now()), Now()) && Inside(list, Now())
      ensures list.Arr? && fresh(list.list)
    {
      hide Valid, Inside, Follows, Sees, Now, AllInside, MapInside, Known, Sure;
      ghost var start := Now();
      var pairs := Entries(v);
      ghost var before := Now();
      list := NewList(pairs);
      Chain(start, before, Now());
    }

    /** A part of an array. */
    method Slice(list: Items, args: seq<Value>) returns (v: Value)
      requires Valid() && list in Now().lists
      modifies this`lists, this`age
      ensures Valid() && Later() && Follows(old(Now()), Now()) && Inside(v, Now())
      ensures var (start, end) := Range(host, |list.items|, args);
              v.Arr? && fresh(v.list) && v.list.items == list.items[start..end]
    {
      hide Valid, Inside, Follows, Sees, Now, AllInside, MapInside, Known, Sure;
      var (start, end) := Range(host, |list.items|, args);
      PartInside(list, start, end);
      v := NewList(list.items[start..end]);
    }

    lemma PartInside(list: Items, start: nat, end: nat)
      requires Valid() && list in Now().lists && start <= end <= |list.items|
      ensures AllInside(list.items[start..end], Now())
    {
    }

    method ListFields(name: string, v: Value) returns (list: Value)
      requires Valid() && Inside(v, Now())
      modifies this`lists, this`age
      ensures Valid() && Later() && Follows(old(Now()), Now()) && Inside(list, Now())
      ensures list.Arr? && fresh(list.list)
    {
      hide Valid, Inside, Follows, Sees, Now, AllInside, MapInside;
      if name == "Object.keys" {
        var keys := Keys(v);
        list := TextList(keys);
      } else if name == "Object.values" {
        var values := ValuesOf(v);
        list := NewList(values);
      } else {
        list := EntryList(v);
      }
    }

    /** The value as a document; without one the stack is used up. */
    method Export(v: Value) returns (json: Option<Json>)
      requires Valid() && Inside(v, Now()) && !crashed
      modifies this`crashed
      ensures Valid()
      ensures crashed <==> json.None?
      ensures crashed <==> !Bounded(v, true, host.stack, records, lists)
      ensures json.Some? ==> Exported(v, json.value, records, lists)
    {
      hide Valid, Inside, Now, Bounded, Exported;
      json := ExportValue(v, host.stack);
      if json.None? {
        TooDeep(v);
        Overflow();
      }
    }

    method ExportValue(v: Value, depth: nat) returns (json: Option<Json>)
      requires Valid() && Inside(v, Now())
      ensures json.Some? <==> Bounded(v, true, depth, records, lists)
      ensures json.Some? ==> Exported(v, json.value, records, lists)
      decreases depth, 0
    {
      hide Valid, Inside, Now, Bounded, Exported;
      PlainBound(v, depth, records, lists);
      if !IsObject(v) {
        return Some(PlainJson(v));
      }
      if depth == 0 {
        return None;
      }
      NowIs();
      InsideIs(v, Now());
      if v.Arr? {
        json := ExportList(v.list, depth - 1);
      } else {
        json := ExportRecord(v.record, depth - 1);
      }
    }

    method ExportList(list: Items, depth: nat) returns (json: Option<Json>)
      requires Valid() && list in lists
      ensures json.Some? <==> Bounded(Arr(list), true, depth + 1, records, lists)
      ensures json.Some? ==> Exported(Arr(list), json.value, records, lists)
      decreases depth, 1
    {
      hide Valid, Inside, Now, Exported, Bounded;
      var items := [];
      for i := 0 to |list.items|
        invariant |items| == i
        invariant forall j :: 0 <= j < i ==>
                    Bounded(list.items[j], true, depth, records, lists)
                    && Exported(list.items[j], items[j], records, lists)
      {
        ItemInside(list, i);
        var item := ExportValue(list.items[i], depth);
        if item.None? {
          ListTooDeep(list, i, depth, records, lists);
          return None;
        }
        items := items + [item.value];
      }
      ListIsExported(list, items, depth, records, lists);
      return Some(JsonList(items));
    }

    /** Undefined fields are left out. */
    method ExportRecord(record: Record, depth: nat) returns (json: Option<Json>)
      requires Valid() && record in records
      ensures json.Some? <==> Bounded(Obj(record), true, depth + 1, records, lists)
      ensures json.Some? ==> Exported(Obj(record), json.value, records, lists)
      decreases depth, 1
    {
      hide Valid, Inside, Now, Exported, Bounded, Ascending;
      NowIs();
      InsideIs(Obj(record), Now());
      var keys := DefinedKeys(record);
      var members := [];
      for i := 0 to |keys|
        invariant |members| == i
        invariant forall j :: 0 <= j < i ==>
                    Bounded(record.fields[keys[j]], true, depth, records, lists)
                    && Exported(record.fields[keys[j]], members[j], records, lists)
      {
        assert keys[i] in keys;
        FieldInside(Obj(record), keys[i]);
        var member := ExportValue(record.fields[keys[i]], depth);
        if member.None? {
          RecordTooDeep(record, keys[i], depth, records, lists);
          return None;
        }
        members := members + [member.value];
      }
      forall key | key in record.fields ensures Bounded(record.fields[key], true, depth, records, lists) {
        PlainBound(record.fields[key], depth, records, lists);
        if record.fields[key] != Undefined {
          assert key in keys;
        }
      }
      RecordIsExported(record, keys, members, depth, records, lists);
      return Some(JsonFields(keys, members));
    }

    method DefinedKeys(record: Record) returns (keys: seq<string>)
      ensures Ascending(keys)
      ensures forall key :: key in keys <==> key in record.fields && record.fields[key] != Undefined
    {
      hide TextLess;
      var all := Keys(Obj(record));
      keys := [];
      for i := 0 to |all|
        invariant Ascending(keys)
        invariant forall j, m :: 0 <= j < |keys| && i <= m < |all| ==> TextLess(keys[j], all[m])
        invariant forall key :: key in keys ==> key in record.fields && record.fields[key] != Undefined
        invariant forall m :: 0 <= m < i && record.fields[all[m]] != Undefined ==> all[m] in keys
      {
        assert all[i] in all;
        if record.fields[all[i]] != Undefined {
          keys := keys + [all[i]];
        }
      }
      forall key | key in record.fields && record.fields[key] != Undefined ensures key in keys {
        assert key in all;
      }
    }

    // What built-in functions answer without making anything

    ghost function AnswerOf(name: string, owner: Owner, args: seq<Value>): Option<Value>
      reads this`lists, lists
    {
      match owner
      case NoOwner => GlobalAnswer(name, args)
      case OfText(text) => TextAnswer(name, text, args)
      case OfNumber(n) => NumberAnswer(name, n, args)
      case OfArray(list) => if name == "join" && list in lists then JoinAnswer(list, args) else None
    }

    ghost function GlobalAnswer(name: string, args: seq<Value>): Option<Value>
      reads this`lists, lists
    {
      var first := ArgAt(args, 0);
      match name
      case "String" => AsText(Text(first))
      case "parseFloat" => Leading(Text(first), false)
      case "Number.parseFloat" => Leading(Text(first), false)
      case "parseInt" => Leading(Text(first), true)
      case _ => TestOrMath(name, args)
    }

    function Numbers(args: seq<Value>): seq<Number> {
      seq(|args|, i requires 0 <= i < |args| => NumberOf(host, args[i]))
    }

    function AsText(text: Option<string>): Option<Value> {
      if text.None? then None else Some(Str(text.value))
    }

    function Leading(text: Option<string>, whole: bool): Option<Value> {
      if text.None? then None else Some(Num(host.leading(text.value, whole)))
    }

    ghost function TextAnswer(name: string, text: string, args: seq<Value>): Option<Value>
      reads this`lists, lists
    {
      var a, b := Text(ArgAt(args, 0)), Text(ArgAt(args, 1));
      if name in {"trim", "toLowerCase", "toUpperCase"} then Some(Str(host.change(name, text)))
      else if name == "toString" then Some(Str(text))
      else if name in {"includes", "startsWith", "endsWith", "indexOf"} then
        if a.None? then None else Some(Lift(host.seek(name, text, a.value)))
      else if name in {"replace", "replaceAll"} then
        if a.None? || b.None? then None else Some(Str(host.swap(name, text, a.value, b.value)))
      else if name in {"slice", "substring"} then
        var (start, end) := Range(host, |text|, args);
        Some(Str(text[start..end]))
      else None
    }

    function NumberAnswer(name: string, n: Number, args: seq<Value>): Option<Value> {
      match name
      case "toString" => Some(Str(host.show(n)))
      case "toFixed" =>
        var digits := if |args| > 0 then host.integer(NumberOf(host, args[0])) else 0;
        if 0 <= digits <= 20 then Some(Str(host.fixed(n, digits))) else None
      case _ => None
    }

    ghost function JoinAnswer(list: Items, args: seq<Value>): Option<Value>
      reads this`lists, lists, list
    {
      var separator := if |args| > 0 then Text(args[0]) else Some(",");
      if separator.None? then None
      else AsText(Joined(host, list.items, |list.items|, separator.value, host.stack, lists))
    }

    /** The functions of the sandbox. */
    method CallBuiltin(name: string, owner: Owner, args: seq<Value>) returns (r: Outcome)
      requires Valid() && Inside(Builtin(name, owner), Now()) && AllInside(args, Now()) && Running()
      modifies this
      ensures Valid() && Later() && Follows(old(Now()), Now()) && Stands(r)
      ensures AnswerIs(old(AnswerOf(name, owner, args)), r)
    {
      hide Valid, Inside, Follows, Sees, Now, AllInside, MapInside, GlobalAnswer, TextAnswer, NumberAnswer, JoinAnswer;
      InsideIs(Builtin(name, owner), Now());
      match owner {
        case NoOwner => r := CallGlobal(name, args);
        case OfText(text) => r := CallText(name, text, args);
        case OfNumber(n) => r := CallNumber(name, n, args);
        case OfArray(list) =>
          NowIs();
          r := CallList(name, list, args);
      }
    }

    /** Where the answer is known the outcome is that answer, and nothing happens besides. */
    twostate predicate AnswerIs(new answer: Option<Value>, new r: Outcome)
      reads this, frames, records, lists
    {
      answer.Some? ==> Untouched() && r == Ok(answer.value)
    }

    method CallGlobal(name: string, args: seq<Value>) returns (r: Outcome)
      requires Valid() && AllInside(args, Now()) && Running()
      modifies this`asked, this`crashed, this`records, this`lists, this`age
      ensures Valid() && Later() && Follows(old(Now()), Now()) && Stands(r)
      ensures AnswerIs(old(GlobalAnswer(name, args)), r)
      ensures name == "JSON.parse" && r.Ok? ==>
                var text := old(Text(ArgAt(args, 0)));
                && text.Some? && host.decode(text.value).Some?
                && Mirrors(r.value, host.decode(text.value).value, records, lists)
      ensures name == "JSON.stringify" && r.Ok? ==>
                r.value.Str? && exists json ::
                  Exported(ArgAt(args, 0), json, old(records), old(lists)) && host.encode(json) == Some(r.value.text)
      ensures name == "JSON.stringify" ==>
                (crashed <==> !old(Bounded(ArgAt(args, 0), true, host.stack, records, lists)))
    {
      hide Valid, Inside, Follows, Sees, Now, AllInside, MapInside, Mirrors, Exported, Bounded, TextOf, TestOrMath;
      Same(Now());
      ArgInside(args, 0, Now());
      var first := ArgAt(args, 0);
      if name in {"Object.keys", "Object.values", "Object.entries"} {
        NotPlain(name, args);
        var list := ListFields(name, first);
        return Ok(list);
      } else if name == "JSON.parse" {
        NotPlain(name, args);
        r := ParseJson(first);
        return;
      } else if name == "JSON.stringify" {
        NotPlain(name, args);
        r := WriteJson(first);
        return;
      }
      if name in {"String", "parseFloat", "Number.parseFloat", "parseInt"} {
        var text := ToText(first);
        if text.None? {
          return Failed;
        }
        var v := if name == "String" then Str(text.value) else Num(host.leading(text.value, name == "parseInt"));
        InsideIs(v, Now());
        return Ok(v);
      }
      var answer := TestOrMath(name, args);
      if answer.Some? {
        InsideIs(answer.value, Now());
      }
      return if answer.Some? then Ok(answer.value) else Failed;
    }

    function TestOrMath(name: string, args: seq<Value>): (answer: Option<Value>)
      ensures answer.Some? ==> answer.value.Bool? || answer.value.Num?
    {
      var first := ArgAt(args, 0);
      match name
      case "Boolean" => Some(Bool(Truthy(first)))
      case "isNaN" => Some(Bool(NumberOf(host, first) == NaN))
      case "Number.isNaN" => Some(Bool(first.Num? && first.number == NaN))
      case "Number.isFinite" => Some(Bool(NumberOf(host, first).Finite?))
      case "Array.isArray" => Some(Bool(first.Arr?))
      case _ => if IsMath(name) then Some(Num(host.math(name, Numbers(args)))) else None
    }

    /** Listing fields and reading and writing JSON are not answered without making anything or asking for more. */
    lemma NotPlain(name: string, args: seq<Value>)
      requires name in {"Object.keys", "Object.values", "Object.entries", "JSON.parse", "JSON.stringify"}
      ensures GlobalAnswer(name, args).None?
    {
      hide TextOf;
    }

    method ParseJson(v: Value) returns (r: Outcome)
      requires Valid() && Inside(v, Now()) && Running()
      modifies this`crashed, this`records, this`lists, this`age
      ensures Valid() && Later() && Follows(old(Now()), Now()) && Stands(r)
      ensures r.Ok? ==>
                var text := old(Text(v));
                && text.Some? && host.decode(text.value).Some?
                && Mirrors(r.value, host.decode(text.value).value, records, lists)
    {
      hide Valid, Inside, Follows, Sees, Now, AllInside, MapInside, Mirrors, TextOf;
      Same(Now());
      var text := ToText(v);
      if text.None? || Bytes(text.value) > MAX_STRING || host.decode(text.value).None? {
        return Failed;
      }
      var built := Build(host.decode(text.value).value);
      return Ok(built);
    }

    method WriteJson(v: Value) returns (r: Outcome)
      requires Valid() && Inside(v, Now()) && Running()
      modifies this`crashed
      ensures Valid() && Later() && Follows(old(Now()), Now()) && Stands(r)
      ensures r.Ok? ==>
                r.value.Str? && exists json ::
                  Exported(v, json, records, lists) && host.encode(json) == Some(r.value.text)
      ensures crashed <==> !Bounded(v, true, host.stack, records, lists)
    {
      hide Valid, Inside, Follows, Sees, Now, AllInside, MapInside, Exported, Bounded;
      Same(Now());
      var json := Export(v);
      if json.None? || host.encode(json.value).None? || Bytes(host.encode(json.value).value) > MAX_STRING {
        return Failed;
      }
      InsideIs(Str(host.encode(json.value).value), Now());
      return Ok(Str(host.encode(json.value).value));
    }

    method CallText(name: string, text: string, args: seq<Value>) returns (r: Outcome)
      requires Valid() && AllInside(args, Now()) && Running()
      modifies this`crashed, this`lists, this`age
      ensures Valid() && Later() && Follows(old(Now()), Now()) && Stands(r)
      ensures AnswerIs(old(TextAnswer(name, text, args)), r)
    {
      hide Valid, Inside, Follows, Sees, Now, AllInside, MapInside, TextOf;
      Same(Now());
      ArgInside(args, 0, Now());
      ArgInside(args, 1, Now());
      var v: Value;
      if name in {"trim", "toLowerCase", "toUpperCase"} {
        v := Str(host.change(name, text));
      } else if name == "toString" {
        v := Str(text);
      } else if name in {"includes", "startsWith", "endsWith", "indexOf"} {
        var sought := ToText(ArgAt(args, 0));
        if sought.None? {
          return Failed;
        }
        v := Lift(host.seek(name, text, sought.value));
      } else if name in {"replace", "replaceAll"} {
        r := Replace(name, text, ArgAt(args, 0), ArgAt(args, 1));
        return;
      } else if name in {"slice", "substring"} {
        var (start, end) := Range(host, |text|, args);
        v := Str(text[start..end]);
      } else if name == "split" {
        r := Split(text, ArgAt(args, 0));
        return;
      } else {
        return Failed;
      }
      InsideIs(v, Now());
      return Ok(v);
    }

    method Replace(name: string, text: string, sought: Value, put: Value) returns (r: Outcome)
      requires Valid() && Inside(sought, Now()) && Inside(put, Now()) && Running()
      modifies this`crashed
      ensures Valid() && Later() && Follows(old(Now()), Now()) && Stands(r)
      ensures Text(sought).Some? && Text(put).Some? ==>
                r == Ok(Str(host.swap(name, text, Text(sought).value, Text(put).value)))
      ensures r.Ok? ==> Text(sought).Some? && Text(put).Some?
    {
      hide Valid, Inside, Follows, Sees, Now, AllInside, MapInside, TextOf;
      Same(Now());
      var a := ToText(sought);
      if a.None? {
        return Failed;
      }
      var b := ToText(put);
      if b.None? {
        return Failed;
      }
      InsideIs(Str(host.swap(name, text, a.value, b.value)), Now());
      return Ok(Str(host.swap(name, text, a.value, b.value)));
    }

    /** Without a separator a text falls into its characters. */
    method Split(text: string, separator: Value) returns (r: Outcome)
      requires Valid() && Inside(separator, Now()) && Running()
      modifies this`crashed, this`lists, this`age
      ensures Valid() && Later() && Follows(old(Now()), Now()) && Stands(r)
      ensures old(Text(separator)).Some? ==>
                r.Ok? && r.value.Arr? && fresh(r.value.list)
                && var parts := Parts(text, old(Text(separator)).value);
                   |r.value.list.items| == |parts|
                   && forall i :: 0 <= i < |parts| ==> r.value.list.items[i] == Str(parts[i])
    {
      hide Valid, Inside, Follows, Sees, Now, AllInside, MapInside, TextOf, Parts;
      Same(Now());
      var mark := ToText(separator);
      if mark.None? {
        return Failed;
      }
      var list := TextList(Parts(text, mark.value));
      return Ok(list);
    }

    function Parts(text: string, separator: string): seq<string> {
      if separator == "" then seq(|text|, i requires 0 <= i < |text| => [text[i]]) else host.pieces(text, separator)
    }

    method CallNumber(name: string, n: Number, args: seq<Value>) returns (r: Outcome)
      requires Valid() && Running()
      ensures Later() && Follows(old(Now()), Now()) && Stands(r)
      ensures AnswerIs(NumberAnswer(name, n, args), r)
    {
      hide Valid, Inside, Follows, Sees, Now, AllInside, MapInside;
      Same(Now());
      var answer := NumberAnswer(name, n, args);
      if answer.None? {
        return Failed;
      }
      InsideIs(answer.value, Now());
      return Ok(answer.value);
    }

    method CallList(name: string, list: Items, args: seq<Value>) returns (r: Outcome)
      requires Valid() && list in Now().lists && AllInside(args, Now()) && Running()
      modifies this`asked, this`crashed, this`lists, this`age
      ensures Valid() && Later() && Follows(old(Now()), Now()) && Stands(r)
      ensures name == "join" ==> AnswerIs(old(JoinAnswer(list, args)), r)
      ensures name == "slice" ==>
                var (start, end) := Range(host, |list.items|, args);
                r.Ok? && r.value.Arr? && fresh(r.value.list) && r.value.list.items == list.items[start..end]
      ensures name in {"includes", "indexOf"} && !IsFunction(ArgAt(args, 0)) ==>
                var k := old(PlaceOf(list, ArgAt(args, 0)));
                r == Ok(if name == "includes" then Bool(k < |list.items|)
                        else Num(Finite(if k < |list.items| then k as real else -1.0)))
      ensures IsCallbackMethod(name) ==> r == Failed
    {
      hide Valid, Inside, Follows, Sees, Now, AllInside, MapInside, Range;
      Same(Now());
      if name == "join" {
        r := Join(list, args);
      } else if name == "slice" {
        var v := Slice(list, args);
        return Ok(v);
      } else if name == "includes" || name == "indexOf" {
        var k := Find(list, ArgAt(args, 0));
        var found := k < |list.items|;
        r := Ok(
          if name == "includes" then Bool(found) else Num(Finite(if found then k as real else -1.0)));
        InsideIs(r.value, Now());
      } else {
        return Failed;
      }
    }

    method Join(list: Items, args: seq<Value>) returns (r: Outcome)
      requires Valid() && list in Now().lists && AllInside(args, Now()) && Running()
      modifies this`crashed
      ensures Valid() && Later() && Follows(old(Now()), Now()) && Stands(r)
      ensures AnswerIs(old(JoinAnswer(list, args)), r)
    {
      hide Valid, Inside, Follows, Sees, Now, AllInside, MapInside, TextOf, Joined, Known, Sure;
      Same(Now());
      NowIs();
      var text := JoinBy(list, args);
      if text.None? {
        return Failed;
      }
      InsideIs(Str(text.value), Now());
      return Ok(Str(text.value));
    }

    method JoinBy(list: Items, args: seq<Value>) returns (text: Option<string>)
      requires Valid() && list in lists && AllInside(args, Now()) && !crashed
      modifies this`crashed
      ensures Valid() && (crashed <==> text.None?) && AsText(text) == JoinAnswer(list, args)
    {
      hide Valid, Inside, Follows, Sees, Now, AllInside, MapInside, TextOf, Joined, Known, Sure;
      var separator := Some(",");
      if |args| > 0 {
        ArgInside(args, 0, Now());
        separator := ToText(args[0]);
      }
      if separator.None? {
        return None;
      }
      text := JoinWith(list, separator.value);
    }

    method JoinWith(list: Items, separator: string) returns (text: Option<string>)
      requires Valid() && list in lists && !crashed
      modifies this`crashed
      ensures Valid() && (crashed <==> text.None?)
      ensures text == Joined(host, list.items, |list.items|, separator, host.stack, lists)
    {
      hide Valid, TextOf, Joined;
      text := JoinTexts(list, separator, host.stack);
      if text.None? {
        JoinTooDeep(list, separator);
        Overflow();
      }
    }

    /** The first element that strictly equals a value, or the number of elements. */
    ghost function PlaceOf(list: Items, v: Value): (k: nat)
      reads this`records, this`lists, records, lists, list
    {
      FirstEqual(list.items, v, 0)
    }

    ghost function FirstEqual(items: seq<Value>, v: Value, i: nat): (k: nat)
      requires i <= |items|
      reads this`records, this`lists, records, lists
      decreases |items| - i
    {
      if i == |items| || Equals(items[i], v, true) == Some(true) then i else FirstEqual(items, v, i + 1)
    }

    method Find(list: Items, v: Value) returns (k: nat)
      requires Valid() && list in Now().lists
      modifies this`asked
      ensures k <= |list.items|
      ensures !IsFunction(v) ==> k == PlaceOf(list, v)
    {
      hide Valid, Inside, AllInside, Sees, Now, MapInside, Equals;
      for i := 0 to |list.items|
        invariant !IsFunction(v) ==> PlaceOf(list, v) == FirstEqual(list.items, v, i)
      {
        if !IsFunction(v) {
          ItemIsDecided(list, i, v);
        }
        var same := LooseEqual(list.items[i], v, true);
        if same {
          return i;
        }
      }
      return |list.items|;
    }

    lemma ItemIsDecided(list: Items, i: nat, v: Value)
      requires Valid() && list in Now().lists && i < |list.items| && !IsFunction(v)
      ensures Equals(list.items[i], v, true).Some?
    {
      NowIs();
      ItemInside(list, i);
      InsideIs(list.items[i], Now());
    }

    // -----------------------------------------------------------------------------------------
    // Expressions
    // -----------------------------------------------------------------------------------------

    /** What an expression comes to, if that neither changes nor makes anything: a reference evaluator for literals,
        templates, functions, variables, members, conditions, operators, and calls of built-in functions and of
        script functions whose bodies are of this kind. */
    ghost function Known(n: Node, at: Place): Option<Value>
      reads this`records, this`lists, at.frames, records, lists
      decreases at.calls, n, 1
    {
      match n
      case NumLit(x) => Some(Num(Finite(x)))
      case StrLit(text) => Some(Str(text))
      case BoolLit(truth) => Some(Bool(truth))
      case NullLit => Some(Null)
      case UndefLit => Some(Undefined)
      case FnLit(params, body) => if at.local != [] then None else Some(Closure(params, Statements(body), at.scope))
      case ArrowLit(params, expr) => if at.local != [] then None else Some(Closure(params, Result(expr), at.scope))
      case TmplLit(chunks, exprs) =>
        var text := KnownText(chunks, exprs, at, |chunks|);
        if text.None? then None else Some(Str(text.value))
      case Ident(name) => KnownName(name, at)
      case Unary(op, arg) =>
        var v := Known(arg, at);
        if v.None? then None else UnaryOf(host, op, v.value)
      case Logical(op, left, right) =>
        var v := Known(left, at);
        if v.None? || Decides(op, v.value) then v else Known(right, at)
      case Cond(test, cons, alt) =>
        var v := Known(test, at);
        if v.None? then None else if Truthy(v.value) then Known(cons, at) else Known(alt, at)
      case Binary(op, left, right) =>
        var a, b := Known(left, at), Known(right, at);
        if a.None? || b.None? then None else BinaryOf(op, a.value, b.value)
      case Member(base, _, optional) => KnownMember(Known(base, at), KnownKey(n, at), optional)
      case Element(base, _, optional) => KnownMember(Known(base, at), KnownKey(n, at), optional)
      case Call(callee, args, optional) =>
        var fn, values := Known(callee, at), KnownArgs(KnownEach(args, at));
        if fn.None? then None
        else if IsNullish(fn.value) then if optional then Some(Undefined) else None
        else if values.None? then None
        else if fn.value.Builtin? then AnswerOf(fn.value.name, fn.value.owner, values.value)
        else if fn.value.Closure? && at.calls > 0 then KnownRun(fn.value, values.value, Below(at))
        else None
      case _ => None
    }

    ghost function TextIn(v: Option<Value>): Option<string>
      reads this`lists, lists
    {
      if v.None? then None else Text(v.value)
    }

    /** The first chunks of a template, each with the expression behind it. */
    ghost function KnownText(chunks: seq<string>, exprs: seq<Node>, at: Place, i: nat): Option<string>
      requires i <= |chunks|
      reads this`records, this`lists, at.frames, records, lists
      decreases at.calls, exprs, i
    {
      if i == 0 then Some("")
      else
        var before, piece := KnownText(chunks, exprs, at, i - 1), KnownPiece(chunks[i - 1], exprs, i - 1, at);
        if before.None? || piece.None? || Bytes(before.value + piece.value) > MAX_STRING then None
        else Some(before.value + piece.value)
    }

    ghost function KnownPiece(chunk: string, exprs: seq<Node>, i: nat, at: Place): Option<string>
      reads this`records, this`lists, at.frames, records, lists
      decreases at.calls, exprs, 0
    {
      if i >= |exprs| then Some(chunk)
      else
        var text := TextIn(Known(exprs[i], at));
        if text.None? then None else Some(chunk + text.value)
    }

    lemma {:induction false} KnownBefore(chunks: seq<string>, exprs: seq<Node>, at: Place, i: nat)
      requires i <= |chunks| && KnownText(chunks, exprs, at, i).Some?
      ensures forall j :: 0 <= j <= i ==> KnownText(chunks, exprs, at, j).Some?
    {
      if i > 0 {
        KnownBefore(chunks, exprs, at, i - 1);
      }
    }

    ghost function KnownKey(n: Node, at: Place): Option<string>
      requires n.Member? || n.Element?
      reads this`records, this`lists, at.frames, records, lists
      decreases at.calls, n, 0
    {
      if n.Member? then Some(n.name)
      else
        var v := Known(n.prop, at);
        if v.None? then None else Text(v.value)
    }

    ghost predicate KnownAll(items: seq<Node>, at: Place)
      reads this`records, this`lists, at.frames, records, lists
    {
      forall i :: 0 <= i < |items| ==> Known(items[i], at).Some?
    }

    ghost function KnownEach(items: seq<Node>, at: Place): (values: seq<Option<Value>>)
      reads this`records, this`lists, at.frames, records, lists
      decreases at.calls, items
      ensures |values| == |items| && forall i :: 0 <= i < |items| ==> values[i] == Known(items[i], at)
    {
      if items == [] then []
      else KnownEach(items[..|items| - 1], at) + [Known(items[|items| - 1], at)]
    }

    /** The variable of the innermost scope that has the name. */
    ghost function KnownName(name: string, at: Place): Option<Value>
      reads at.frames
    {
      if exists f :: f in at.scope && f !in at.frames then None
      else if LocalLevel(at.local, name) < |at.local| then Some(at.local[LocalLevel(at.local, name)][name])
      else if Level(at.scope, name) < |at.scope| then Some(at.scope[Level(at.scope, name)].vars[name])
      else GlobalPlain(name)
    }

    /** One call further down. */
    ghost function Below(at: Place): Place
      requires at.calls > 0
    {
      at.(calls := at.calls - 1)
    }

    /** Inside a call of a script function. */
    ghost function InCall(fn: Value, args: seq<Value>, at: Place): Place
      requires fn.Closure?
    {
      Place([Bindings(fn.params, args)], fn.scope, at.frames, at.calls)
    }

    /** What a script function returns: what its expression comes to, what its first return gives, or undefined. */
    ghost function KnownRun(fn: Value, args: seq<Value>, at: Place): Option<Value>
      requires fn.Closure?
      reads this`records, this`lists, at.frames, records, lists
      decreases at.calls
    {
      match fn.code
      case Result(expr) => Known(expr, InCall(fn, args, at))
      case Statements(body) =>
        match KnownBlock(body, InCall(fn, args, at), 0)
        case Some(Completes(Returned(v), _)) => Some(v)
        case Some(Completes(Done, _)) => Some(Undefined)
        case _ => None
    }

    /** The object that a call of a script function makes, if its body comes to a literal with known values. */
    ghost function KnownMade(fn: Value, args: seq<Value>, at: Place): Option<Ending>
      requires fn.Closure?
      reads this`records, this`lists, at.frames, records, lists
    {
      match fn.code
      case Result(expr) => KnownObject(expr, InCall(fn, args, at))
      case Statements(body) => KnownBlock(body, InCall(fn, args, at), 0)
    }

    /** What calling a function comes to. */
    ghost function KnownResult(fn: Value, args: seq<Value>, at: Place): Option<Value>
      reads this`records, this`lists, at.frames, records, lists
    {
      if fn.Builtin? then AnswerOf(fn.name, fn.owner, args)
      else if fn.Closure? && at.calls > 0 then KnownRun(fn, args, Below(at))
      else None
    }

    ghost function KnownAnswer(fn: Value, args: Option<seq<Value>>, at: Place): Option<Value>
      reads this`records, this`lists, at.frames, records, lists
    {
      if args.None? then None else KnownResult(fn, args.value, at)
    }

    ghost function KnownCall(
        callee: Option<Value>, args: Option<seq<Value>>, optional: bool, at: Place): Option<Value>
      reads this`records, this`lists, at.frames, records, lists
    {
      if callee.None? then None
      else if IsNullish(callee.value) then if optional then Some(Undefined) else None
      else KnownAnswer(callee.value, args, at)
    }

    /** The object and the key that an assignment to a member or an element goes to. */
    ghost function TargetOf(target: Node, at: Place): Option<(Value, string)>
      reads this`records, this`lists, at.frames, records, lists
    {
      if !target.Member? && !target.Element? then None
      else
        var base, key := Known(target.base, at), KnownKey(target, at);
        if base.None? || key.None? || key == Some("length") then None else Some((base.value, key.value))
    }

    ghost function KnownMember(base: Option<Value>, key: Option<string>, optional: bool): Option<Value>
      reads this`records, this`lists, records, lists
    {
      if base.None? then None
      else if IsNullish(base.value) then if optional then Some(Undefined) else None
      else if key.None? || (base.value.Obj? && base.value.record !in records)
              || (base.value.Arr? && base.value.list !in lists) then None
      else Some(PropertyOf(base.value, key.value))
    }

    ghost function KnownRest(base: Value, n: Node, at: Place): Option<Value>
      requires n.Member? || n.Element?
      reads this`records, this`lists, at.frames, records, lists
    {
      KnownMember(Some(base), KnownKey(n, at), n.optional)
    }

    lemma KnownRead(n: Node, at: Place)
      requires n.Member? || n.Element?
      ensures Known(n, at) == KnownMember(Known(n.base, at), KnownKey(n, at), n.optional)
    {
    }

    lemma KnownTemplate(chunks: seq<string>, exprs: seq<Node>, at: Place)
      ensures Known(TmplLit(chunks, exprs), at) ==
              var text := KnownText(chunks, exprs, at, |chunks|);
              if text.None? then None else Some(Str(text.value))
    {
    }

    lemma NoText(chunks: seq<string>, exprs: seq<Node>, at: Place)
      ensures KnownText(chunks, exprs, at, 0) == Some("") && Bytes("") == 0
    {
    }

    lemma NextChunk(chunks: seq<string>, exprs: seq<Node>, at: Place, i: nat)
      requires i < |chunks| && KnownText(chunks, exprs, at, i + 1).Some?
      ensures var before, piece := KnownText(chunks, exprs, at, i), KnownPiece(chunks[i], exprs, i, at);
              && before.Some? && piece.Some? && Bytes(before.value + piece.value) <= MAX_STRING
              && KnownText(chunks, exprs, at, i + 1) == Some(before.value + piece.value)
    {
      hide Known, TextOf, Bytes, KnownPiece;
    }

    /** Methods that call back are never answered without a call. */
    lemma NoCallbackAnswer(name: string, owner: Owner, args: seq<Value>)
      requires IsCallbackMethod(name)
      ensures AnswerOf(name, owner, args).None?
    {
      hide TextOf, Joined, Range;
      match owner {
        case NoOwner => NoGlobalCallback(name, args);
        case OfText(_) =>
        case OfNumber(_) =>
        case OfArray(_) =>
      }
    }

    lemma NoGlobalCallback(name: string, args: seq<Value>)
      requires IsCallbackMethod(name)
      ensures GlobalAnswer(name, args).None?
    {
      hide TextOf;
    }

    /** Known arguments, all of them or none. */
    ghost function KnownArgs(args: seq<Option<Value>>): Option<seq<Value>> {
      if forall i :: 0 <= i < |args| ==> args[i].Some?
      then Some(seq(|args|, i requires 0 <= i < |args| && args[i].Some? => args[i].value)) else None
    }

    lemma KnownCallIs(callee: Node, args: seq<Node>, optional: bool, at: Place)
      ensures Known(Call(callee, args, optional), at) ==
              KnownCall(Known(callee, at), KnownArgs(KnownEach(args, at)), optional, at)
    {
    }

    lemma KnownUnary(op: string, arg: Node, at: Place)
      ensures var v := Known(arg, at);
              Known(Unary(op, arg), at) == if v.None? then None else UnaryOf(host, op, v.value)
    {
    }

    lemma KnownLogical(op: string, left: Node, right: Node, at: Place)
      ensures var v := Known(left, at);
              Known(Logical(op, left, right), at) ==
              if v.None? || Decides(op, v.value) then v else Known(right, at)
    {
    }

    lemma KnownCond(test: Node, cons: Node, alt: Node, at: Place)
      ensures var v := Known(test, at);
              Known(Cond(test, cons, alt), at) ==
              if v.None? then None else Known(if Truthy(v.value) then cons else alt, at)
    {
    }

    lemma KnownBinary(op: string, left: Node, right: Node, at: Place)
      ensures var a, b := Known(left, at), Known(right, at);
              Known(Binary(op, left, right), at) ==
              if a.None? || b.None? then None else BinaryOf(op, a.value, b.value)
    {
    }

    /** The other place shows at least what the one shows: it looks into more scopes, or the local scopes of the one
        are real there. */
    ghost predicate Extends(other: Place, at: Place)
      reads other.scope
    {
      && other.calls == at.calls && at.frames <= other.frames
      && ((other.local == at.local && other.scope == at.scope) || IsReal(other, at))
    }

    ghost predicate IsReal(other: Place, at: Place)
      reads other.scope
    {
      && other.local == [] && |other.scope| == |at.local| + |at.scope| && other.scope[|at.local|..] == at.scope
      && forall j :: 0 <= j < |at.local| ==> other.scope[j] in other.frames && other.scope[j].vars == at.local[j]
    }

    lemma MovedName(name: string, at: Place, other: Place)
      requires Extends(other, at) && KnownName(name, at).Some?
      ensures KnownName(name, other) == KnownName(name, at)
    {
      assert forall f :: f in at.scope ==> f in other.frames;
      if !(other.local == at.local && other.scope == at.scope) {
        hide GlobalPlain, KnownName;
        NameMoves(name, at, other);
        RealFrames(at, other);
        NameIs(name, at);
        NameIs(name, other);
      }
    }

    lemma NameIs(name: string, at: Place)
      requires forall f :: f in at.scope ==> f in at.frames
      ensures KnownName(name, at) ==
              if LocalLevel(at.local, name) < |at.local| then Some(at.local[LocalLevel(at.local, name)][name])
              else if Level(at.scope, name) < |at.scope| then Some(at.scope[Level(at.scope, name)].vars[name])
              else GlobalPlain(name)
    {
    }

    lemma RealFrames(at: Place, other: Place)
      requires IsReal(other, at) && forall f :: f in at.scope ==> f in other.frames
      ensures forall f :: f in other.scope ==> f in other.frames
    {
      var n := |at.local|;
      forall f | f in other.scope ensures f in other.frames {
        var j :| 0 <= j < |other.scope| && other.scope[j] == f;
        assert j >= n ==> f == at.scope[j - n];
      }
    }

    lemma NameMoves(name: string, at: Place, other: Place)
      requires IsReal(other, at)
      ensures var k, n := LocalLevel(at.local, name), |at.local|;
              && LocalLevel(other.local, name) == 0 == |other.local|
              && Level(other.scope, name) == if k < n then k else n + Level(at.scope, name)
    {
      var k := LocalLevel(at.local, name);
      LevelBehind(other.scope, k, name);
      assert k < |at.local| ==> other.scope[k..][0] == other.scope[k];
    }

    /** What is known in one place is known in a place that shows more. */
    lemma {:induction false} MovedInside(n: Node, at: Place, other: Place)
      requires Extends(other, at) && Known(n, at).Some?
      ensures Known(n, other) == Known(n, at)
      decreases at.calls, n, 1
    {
      match n
      case TmplLit(chunks, exprs) => MovedText(chunks, exprs, at, other, |chunks|);
      case Ident(name) => MovedName(name, at, other);
      case Unary(_, arg) => MovedInside(arg, at, other);
      case Logical(op, left, right) =>
        MovedInside(left, at, other);
        if !Decides(op, Known(left, at).value) {
          MovedInside(right, at, other);
        }
      case Cond(test, cons, alt) =>
        MovedInside(test, at, other);
        MovedInside(if Truthy(Known(test, at).value) then cons else alt, at, other);
      case Binary(_, left, right) =>
        MovedInside(left, at, other);
        MovedInside(right, at, other);
      case Member(base, _, _) => MovedInside(base, at, other);
      case Element(base, prop, _) =>
        MovedInside(base, at, other);
        if !IsNullish(Known(base, at).value) {
          MovedInside(prop, at, other);
        }
      case Call(callee, args, _) =>
        MovedInside(callee, at, other);
        if !IsNullish(Known(callee, at).value) {
          MovedEach(args, at, other);
          var fn, values := Known(callee, at).value, KnownArgs(KnownEach(args, at)).value;
          if fn.Closure? && at.calls > 0 {
            MovedRun(fn, values, Below(at), Below(other));
          }
        }
      case _ =>
    }

    lemma {:induction false} MovedText(chunks: seq<string>, exprs: seq<Node>, at: Place, other: Place, i: nat)
      requires i <= |chunks| && Extends(other, at) && KnownText(chunks, exprs, at, i).Some?
      ensures KnownText(chunks, exprs, other, i) == KnownText(chunks, exprs, at, i)
      decreases at.calls, exprs, i
    {
      if i > 0 {
        hide Known, TextOf, Bytes;
        MovedText(chunks, exprs, at, other, i - 1);
        MovedPiece(chunks[i - 1], exprs, i - 1, at, other);
      }
    }

    lemma {:induction false} MovedPiece(chunk: string, exprs: seq<Node>, i: nat, at: Place, other: Place)
      requires Extends(other, at) && KnownPiece(chunk, exprs, i, at).Some?
      ensures KnownPiece(chunk, exprs, i, other) == KnownPiece(chunk, exprs, i, at)
      decreases at.calls, exprs, 0
    {
      hide TextOf;
      if i < |exprs| {
        MovedInside(exprs[i], at, other);
      }
    }

    lemma {:induction false} MovedEach(items: seq<Node>, at: Place, other: Place)
      requires Extends(other, at) && KnownArgs(KnownEach(items, at)).Some?
      ensures KnownEach(items, other) == KnownEach(items, at)
      decreases at.calls, items
    {
      forall i | 0 <= i < |items| ensures Known(items[i], other) == Known(items[i], at) {
        MovedInside(items[i], at, other);
      }
    }

    lemma {:induction false} MovedRun(fn: Value, args: seq<Value>, at: Place, other: Place)
      requires fn.Closure? && at.calls == other.calls && at.frames <= other.frames && KnownRun(fn, args, at).Some?
      ensures KnownRun(fn, args, other) == KnownRun(fn, args, at)
      decreases at.calls
    {
      match fn.code
      case Result(expr) => MovedInside(expr, InCall(fn, args, at), InCall(fn, args, other));
      case Statements(body) =>
        assert InCall(fn, args, other) == Wider(InCall(fn, args, at), other.frames);
        MovedBlock(body, InCall(fn, args, at), other.frames, 0);
    }

    lemma {:induction false} MovedObject(n: Node, at: Place, other: Place)
      requires Extends(other, at) && KnownObject(n, at).Some?
      ensures KnownObject(n, other) == KnownObject(n, at)
      decreases at.calls, n, 0
    {
      MovedEach(n.values, at, other);
      hide KnownEach;
    }

    /** Looking into more scopes. */
    ghost function Wider(at: Place, more: set<Frame>): Place {
      at.(frames := at.frames + more)
    }

    lemma {:induction false} MovedEnd(s: Stmt, at: Place, more: set<Frame>)
      requires at.local != [] && KnownEnd(s, at).Some?
      ensures KnownEnd(s, Wider(at, more)) == KnownEnd(s, at)
      decreases at.calls, s, 0
    {
      var other := Wider(at, more);
      match s
      case VarDecl(names, inits) => MovedDecls(names, inits, at, more, 0);
      case ExprStmt(e) =>
        if e.Assign? {
          MovedNew(e, at, other);
        } else {
          MovedInside(e, at, other);
        }
      case Return(arg) =>
        if arg.Some? && arg.value.ObjLit? {
          MovedObject(arg.value, at, other);
        } else if arg.Some? {
          MovedInside(arg.value, at, other);
        }
      case If(test, cons, alt) =>
        MovedInside(test, at, other);
        if Truthy(Known(test, at).value) {
          MovedIn(cons, map[], at, more);
        } else if alt.Some? {
          MovedIn(alt.value, map[], at, more);
        }
      case Block(body) =>
        assert Wider(Inner(at, map[]), more) == Inner(other, map[]);
        MovedBlock(body, Inner(at, map[]), more, 0);
      case ForOf(name, iter, body) =>
        MovedInside(iter, at, other);
        var v := Known(iter, at).value;
        MovedTurns(name, if v.Arr? then v.list.items else Letters(v.text), body, at, more, 0);
    }

    lemma {:induction false} MovedNew(e: Node, at: Place, other: Place)
      requires e.Assign? && Extends(other, at) && KnownNew(e, at).Some?
      ensures KnownNew(e, other) == KnownNew(e, at)
      decreases at.calls, e, 0
    {
      MovedInside(e.value, at, other);
      if e.op != "=" {
        MovedInside(e.target, at, other);
      }
    }

    lemma {:induction false} MovedIn(s: Stmt, vars: map<string, Value>, at: Place, more: set<Frame>)
      requires KnownIn(s, vars, at).Some?
      ensures KnownIn(s, vars, Wider(at, more)) == KnownIn(s, vars, at)
      decreases at.calls, s, 1
    {
      assert Wider(Inner(at, vars), more) == Inner(Wider(at, more), vars);
      MovedEnd(s, Inner(at, vars), more);
    }

    lemma {:induction false} MovedTurns(
        name: string, items: seq<Value>, body: Stmt, at: Place, more: set<Frame>, i: nat)
      requires i <= |items| && KnownTurns(name, items, body, at, i).Some?
      ensures KnownTurns(name, items, body, Wider(at, more), i) == KnownTurns(name, items, body, at, i)
      decreases at.calls, body, 2 + |items| - i
    {
      if i < |items| {
        MovedIn(body, map[name := items[i]], at, more);
        match KnownIn(body, map[name := items[i]], at)
        case Some(Completes(Done, local)) =>
          assert Wider(at.(local := local), more) == Wider(at, more).(local := local);
          MovedTurns(name, items, body, at.(local := local), more, i + 1);
        case _ =>
      }
    }

    lemma {:induction false} MovedInit(init: Option<Node>, at: Place, other: Place)
      requires Extends(other, at) && KnownInit(init, at).Some?
      ensures KnownInit(init, other) == KnownInit(init, at)
      decreases at.calls, init, 0
    {
      if init.Some? {
        MovedInside(init.value, at, other);
      }
    }

    lemma {:induction false} MovedDecls(
        names: seq<string>, inits: seq<Option<Node>>, at: Place, more: set<Frame>, i: nat)
      requires at.local != [] && i <= |names| && KnownDecls(names, inits, at, i).Some?
      ensures KnownDecls(names, inits, Wider(at, more), i) == KnownDecls(names, inits, at, i)
      decreases at.calls, inits, |names| - i
    {
      if i < |names| {
        if i < |inits| {
          MovedInit(inits[i], at, Wider(at, more));
        }
        var v := KnownInitAt(inits, i, at).value;
        var next := at.(local := at.local[0 := at.local[0][names[i] := v]]);
        assert Wider(next, more) == Wider(at, more).(local := next.local);
        MovedDecls(names, inits, next, more, i + 1);
      }
    }

    lemma {:induction false} MovedBlock(body: seq<Stmt>, at: Place, more: set<Frame>, i: nat)
      requires at.local != [] && i <= |body| && KnownBlock(body, at, i).Some?
      ensures KnownBlock(body, Wider(at, more), i) == KnownBlock(body, at, i)
      decreases at.calls, body, |body| - i
    {
      if i < |body| {
        MovedEnd(body[i], at, more);
        match KnownEnd(body[i], at)
        case Some(Completes(Done, local)) =>
          assert Wider(at.(local := local), more) == Wider(at, more).(local := local);
          MovedBlock(body, at.(local := local), more, i + 1);
        case _ =>
      }
    }

    /** Nothing the run has made was changed, and nothing but scopes was made. */
    twostate predicate Untouched()
      reads this, frames, records, lists
    {
      && old(frames) <= frames && records == old(records) && lists == old(lists)
      && unchanged(old(frames)) && unchanged(records) && unchanged(lists)
    }

    /** Where the value is known the outcome is that value, or the step limit. */
    twostate predicate Sure(new known: Option<Value>, new r: Outcome)
      reads this, frames, records, lists
    {
      known.Some? ==> Untouched() && if r.Ok? then r.value == known.value else steps > MAX_STEPS
    }

    twostate predicate SureText(new known: Option<string>, new text: Option<string>)
      reads this, frames, records, lists
    {
      known.Some? ==> Untouched() && if text.Some? then text == known else steps > MAX_STEPS
    }

    /** Where a run stands itself. */
    ghost predicate Fits(at: Place, scope: Scope)
      reads this`frames
    {
      at.local == [] && at.scope == scope && at.frames <= frames
    }

    ghost function Here(scope: Scope): Place
      reads this`frames
    {
      Place([], scope, frames, 0)
    }

    lemma ObjectIs(n: Node, at: Place)
      ensures !n.ObjLit? ==> KnownObject(n, at).None?
    {
    }

    /** Every expression costs a step, and no step is taken beyond the limit and the one that reports it. */
    method Eval(n: Node, scope: Scope, ghost at: Place) returns (r: Outcome)
      requires Valid() && Sees(scope, Now()) && Fits(at, scope) && Running()
      modifies this, frames, records, lists
      ensures Valid() && Later() && Follows(old(Now()), Now()) && Stands(r) && old(steps) < steps
      ensures Sure(old(Known(n, at)), r)
      ensures r.Ok? && n.ObjLit? ==>
                && r.value.Obj? && fresh(r.value.record) && r.value.record.fields.Keys == NamesOf(n.keys)
                && KeepsFunctions(r.value.record.fields, n.keys, n.values, scope)
      ensures SureObject(old(KnownObject(n, at)), r)
      ensures n.Assign? && n.target.Ident? ==> SureStored(old(KnownNew(n, at)), n.target.name, scope, r)
      ensures Stated(n) ==> r.Ok? || steps > MAX_STEPS
      decreases MAX_STEPS + 1 - steps, 0
    {
      hide Valid, Inside, Follows, Sees, Now, AllInside, MapInside;
      ghost var start := Now();
      Same(start);
      var ok := Tick();
      if !ok {
        return Failed;
      }
      r := EvalNode(n, scope, at);
    }

    method EvalNode(n: Node, scope: Scope, ghost at: Place) returns (r: Outcome)
      requires Valid() && Sees(scope, Now()) && Fits(at, scope) && Running()
      modifies this, frames, records, lists
      ensures Valid() && Later() && Follows(old(Now()), Now()) && Stands(r)
      ensures Sure(old(Known(n, at)), r)
      ensures r.Ok? && n.ObjLit? ==>
                && r.value.Obj? && fresh(r.value.record) && r.value.record.fields.Keys == NamesOf(n.keys)
                && KeepsFunctions(r.value.record.fields, n.keys, n.values, scope)
      ensures SureObject(old(KnownObject(n, at)), r)
      ensures n.Assign? && n.target.Ident? ==> SureStored(old(KnownNew(n, at)), n.target.name, scope, r)
      ensures Stated(n) ==> r.Ok? || steps > MAX_STEPS
      decreases MAX_STEPS + 1 - steps, 9
    {
      hide Valid, Inside, Follows, Sees, Now, AllInside, MapInside, IsNew, KnownObject, KeepsFunctions;
      ghost var start := Now();
      Same(start);
      ObjectIs(n, at);
      match n {
        case TmplLit(chunks, exprs) => r := EvalTemplate(chunks, exprs, scope, at); return;
        case Ident(name) => r := EvalName(name, scope, at); return;
        case ObjLit(keys, values) => r := EvalObject(keys, values, scope, at); return;
        case ArrLit(items) => r := EvalArray(items, scope, at); return;
        case Unary(op, arg) => r := EvalUnary(op, arg, scope, at); return;
        case Binary(op, left, right) => r := EvalBinary(op, left, right, scope, at); return;
        case Logical(op, left, right) => r := EvalLogical(op, left, right, scope, at); return;
        case Cond(test, cons, alt) => r := EvalCond(test, cons, alt, scope, at); return;
        case Member(_, _, _) => var owner; r, owner := EvalMember(n, scope, at); return;
        case Element(_, _, _) => var owner; r, owner := EvalMember(n, scope, at); return;
        case Call(callee, args, optional) => r := EvalCall(callee, args, optional, scope, at); return;
        case Assign(target, op, value) => r := EvalAssign(target, op, value, scope, at); return;
        case NumLit(x) => r := Ok(Num(Finite(x)));
        case StrLit(text) => r := Ok(Str(text));
        case BoolLit(truth) => r := Ok(Bool(truth));
        case NullLit => r := Ok(Null);
        case UndefLit => r := Ok(Undefined);
        case FnLit(params, body) => r := Ok(Closure(params, Statements(body), scope));
        case ArrowLit(params, expr) => r := Ok(Closure(params, Result(expr), scope));
      }
      InsideIs(r.value, start);
    }

    method EvalTemplate(chunks: seq<string>, exprs: seq<Node>, scope: Scope, ghost at: Place) returns (r: Outcome)
      requires Valid() && Sees(scope, Now()) && Fits(at, scope) && Running()
      modifies this, frames, records, lists
      ensures Valid() && Later() && Follows(old(Now()), Now()) && Stands(r)
      ensures r.Ok? ==> r.value.Str? && Bytes(r.value.text) <= MAX_STRING
      ensures Sure(old(Known(TmplLit(chunks, exprs), at)), r)
      decreases MAX_STEPS + 1 - steps, 4
    {
      hide Valid, Inside, Follows, Sees, Now, AllInside, MapInside, Known, KnownText, TextOf, Bytes;
      KnownTemplate(chunks, exprs, at);
      var text := EvalChunks(chunks, exprs, scope, at);
      if text.None? {
        return Failed;
      }
      InsideIs(Str(text.value), Now());
      return Ok(Str(text.value));
    }

    method EvalChunks(chunks: seq<string>, exprs: seq<Node>, scope: Scope, ghost at: Place)
        returns (whole: Option<string>)
      requires Valid() && Sees(scope, Now()) && Fits(at, scope) && Running()
      modifies this, frames, records, lists
      ensures Valid() && Later() && Follows(old(Now()), Now()) && steps <= MAX_STEPS + 1
      ensures whole.Some? ==> Running() && Bytes(whole.value) <= MAX_STRING
      ensures SureText(old(KnownText(chunks, exprs, at, |chunks|)), whole)
      decreases MAX_STEPS + 1 - steps, 3
    {
      hide Valid, Inside, Follows, Sees, Now, AllInside, MapInside, Known, KnownText, KnownPiece, TextOf, Bytes;
      ghost var start := Now();
      Same(start);
      ghost var known := KnownText(chunks, exprs, at, |chunks|).Some?;
      if known {
        KnownBefore(chunks, exprs, at, |chunks|);
      }
      NoText(chunks, exprs, at);
      var text := "";
      for i := 0 to |chunks|
        invariant Valid() && Later() && Follows(start, Now()) && Sees(scope, Now()) && Running()
        invariant Fits(at, scope)
        invariant Bytes(text) <= MAX_STRING
        invariant known ==> Untouched() && Some(text) == old(KnownText(chunks, exprs, at, i))
      {
        if known {
          NextChunk(chunks, exprs, at, i);
        }
        ghost var before := Now();
        var piece := EvalPiece(chunks[i], exprs, i, scope, at);
        Chain(start, before, Now());
        if piece.None? || Bytes(text + piece.value) > MAX_STRING {
          return None;
        }
        text := text + piece.value;
      }
      return Some(text);
    }

    /** A chunk of a template and the expression behind it, if there is one. */
    method EvalPiece(chunk: string, exprs: seq<Node>, i: nat, scope: Scope, ghost at: Place)
        returns (piece: Option<string>)
      requires Valid() && Sees(scope, Now()) && Fits(at, scope) && Running()
      modifies this, frames, records, lists
      ensures Valid() && Later() && Follows(old(Now()), Now())
      ensures steps <= MAX_STEPS + 1 && (piece.Some? ==> Running())
      ensures SureText(old(KnownPiece(chunk, exprs, i, at)), piece)
      decreases MAX_STEPS + 1 - steps, 2
    {
      hide Valid, Inside, Follows, Sees, Now, AllInside, MapInside, Known, TextOf;
      Same(Now());
      if i >= |exprs| {
        return Some(chunk);
      }
      var text := EvalText(exprs[i], scope, at);
      return if text.None? then None else Some(chunk + text.value);
    }

    method EvalText(n: Node, scope: Scope, ghost at: Place) returns (text: Option<string>)
      requires Valid() && Sees(scope, Now()) && Fits(at, scope) && Running()
      modifies this, frames, records, lists
      ensures Valid() && Later() && Follows(old(Now()), Now()) && old(steps) < steps
      ensures steps <= MAX_STEPS + 1 && (text.Some? ==> Running())
      ensures SureText(old(TextIn(Known(n, at))), text)
      decreases MAX_STEPS + 1 - steps, 1
    {
      hide Valid, Inside, Follows, Sees, Now, AllInside, MapInside, Known, TextOf, SureObject, KeepsFunctions, Stated;
      var r := Eval(n, scope, at);
      if r.Failed? {
        return None;
      }
      text := ToText(r.value);
    }

    method EvalName(name: string, scope: Scope, ghost at: Place) returns (r: Outcome)
      requires Valid() && Sees(scope, Now()) && Fits(at, scope) && Running()
      modifies this, frames, records, lists
      ensures Valid() && Later() && Follows(old(Now()), Now()) && Stands(r)
      ensures Sure(old(KnownName(name, at)), r)
      decreases MAX_STEPS + 1 - steps, 1
    {
      hide Valid, Inside, Follows, Sees, Now, AllInside, MapInside, Known;
      ghost var start := Now();
      Same(start);
      var found := Lookup(scope, name);
      if found.None? {
        found := GlobalValue(name);
      }
      return if found.Some? then Ok(found.value) else Failed;
    }

    method GlobalValue(name: string) returns (found: Option<Value>)
      requires Valid()
      modifies this`records, this`age
      ensures Valid() && Later() && Follows(old(Now()), Now()) && (found.Some? ==> Inside(found.value, Now()))
      ensures GlobalMembers(name).Some? ==>
                found.Some? && found.value.Obj? && fresh(found.value.record)
                && found.value.record.fields == Bound(name, GlobalMembers(name).value)
      ensures GlobalMembers(name).None? ==> found == GlobalPlain(name) && Untouched()
      ensures GlobalMembers(name).Some? ==> GlobalPlain(name).None?
    {
      hide Valid, Inside, Follows, Sees, Now, AllInside, MapInside, Known, Sure;
      Same(Now());
      if GlobalMembers(name).Some? {
        BoundInside(name, GlobalMembers(name).value, Now());
        var v := NewRecord(Bound(name, GlobalMembers(name).value));
        return Some(v);
      }
      if name in {"String", "Boolean", "parseFloat", "parseInt", "isNaN"} {
        found := Some(Builtin(name, NoOwner));
      } else if name == "NaN" {
        found := Some(Num(NaN));
      } else if name == "Infinity" {
        found := Some(Num(Infinite(false)));
      } else {
        return None;
      }
      InsideIs(found.value, Now());
    }

    method EvalAll(items: seq<Node>, scope: Scope, ghost at: Place) returns (values: Option<seq<Value>>)
      requires Valid() && Sees(scope, Now()) && Fits(at, scope) && Running()
      modifies this, frames, records, lists
      ensures Valid() && Later() && Follows(old(Now()), Now()) && StandsAll(values)
      ensures values.Some? ==> |values.value| == |items|
      ensures old(KnownAll(items, at)) ==> Untouched() && (values.None? ==> steps > MAX_STEPS)
      ensures values.Some? && old(KnownAll(items, at)) ==>
                forall i :: 0 <= i < |items| ==> values.value[i] == old(Known(items[i], at)).value
      ensures AllStated(items) ==> values.Some? || steps > MAX_STEPS
      decreases MAX_STEPS + 1 - steps, 1
    {
      hide Valid, Inside, Follows, Sees, Now, AllInside, MapInside, Known;
      ghost var start := Now();
      Same(start);
      var done := [];
      NoneInside(start);
      for i := 0 to |items|
        invariant Valid() && Later() && Follows(start, Now()) && Sees(scope, Now()) && Running()
        invariant Fits(at, scope)
        invariant AllInside(done, Now()) && |done| == i
        invariant old(KnownAll(items, at)) ==> Untouched()
        invariant old(KnownAll(items, at)) ==>
                    forall j :: 0 <= j < i ==> done[j] == old(Known(items[j], at)).value
      {
        ghost var before := Now();
        var r := Eval(items[i], scope, at);
        Chain(start, before, Now());
        if r.Failed? {
          return None;
        }
        OneMoreInside(done, r.value, Now());
        done := done + [r.value];
      }
      return Some(done);
    }

    method EvalArray(items: seq<Node>, scope: Scope, ghost at: Place) returns (r: Outcome)
      requires Valid() && Sees(scope, Now()) && Fits(at, scope) && Running()
      modifies this, frames, records, lists
      ensures Valid() && Later() && Follows(old(Now()), Now()) && Stands(r)
      ensures r.Ok? ==> r.value.Arr? && fresh(r.value.list) && |r.value.list.items| == |items|
      ensures r.Ok? && old(KnownAll(items, at)) ==>
                forall i :: 0 <= i < |items| ==> r.value.list.items[i] == old(Known(items[i], at)).value
      ensures AllStated(items) ==> r.Ok? || steps > MAX_STEPS
      decreases MAX_STEPS + 1 - steps, 2
    {
      hide Valid, Inside, Follows, Sees, Now, AllInside, MapInside, Known;
      ghost var start := Now();
      var values := EvalAll(items, scope, at);
      if values.None? {
        return Failed;
      }
      ghost var before := Now();
      var v := NewList(values.value);
      Chain(start, before, Now());
      return Ok(v);
    }

    method EvalObject(keys: seq<string>, values: seq<Node>, scope: Scope, ghost at: Place) returns (r: Outcome)
      requires Valid() && Sees(scope, Now()) && Fits(at, scope) && Running()
      modifies this, frames, records, lists
      ensures Valid() && Later() && Follows(old(Now()), Now()) && Stands(r)
      ensures r.Ok? ==>
                && r.value.Obj? && fresh(r.value.record) && r.value.record.fields.Keys == NamesOf(keys)
                && KeepsFunctions(r.value.record.fields, keys, values, scope)
      ensures SureObject(old(KnownObject(ObjLit(keys, values), at)), r)
      ensures |keys| <= |values| && AllStated(values) ==> r.Ok? || steps > MAX_STEPS
      decreases MAX_STEPS + 1 - steps, 2
    {
      hide Valid, Inside, Follows, Sees, Now, AllInside, MapInside, Known, Sure, IsLast;
      ghost var start := Now();
      var fields := EvalFields(keys, values, scope, at);
      if fields.None? {
        return Failed;
      }
      ghost var before := Now();
      var v := NewRecord(fields.value);
      Chain(start, before, Now());
      return Ok(v);
    }

    /** A literal has a value for every key; a repeated key keeps its last value. */
    method EvalFields(keys: seq<string>, values: seq<Node>, scope: Scope, ghost at: Place)
        returns (all: Option<map<string, Value>>)
      requires Valid() && Sees(scope, Now()) && Fits(at, scope) && Running()
      modifies this, frames, records, lists
      ensures Valid() && Later() && Follows(old(Now()), Now()) && steps <= MAX_STEPS + 1
      ensures all.Some? ==>
                && Running() && MapInside(all.value, Now())
                && all.value.Keys == NamesOf(keys) && |keys| <= |values|
      ensures all.Some? ==> KeepsFunctions(all.value, keys, values, scope)
      ensures |keys| == |values| && old(KnownArgs(KnownEach(values, at))).Some? ==>
                if all.Some? then Holds(all.value, keys, old(KnownArgs(KnownEach(values, at))).value)
                else steps > MAX_STEPS
      ensures |keys| <= |values| && AllStated(values) ==> all.Some? || steps > MAX_STEPS
      decreases MAX_STEPS + 1 - steps, 1
    {
      hide Valid, Inside, Follows, Sees, Now, AllInside, MapInside, Known, FieldsAre, KnownEach, KnownArgs, FunctionOf;
      ghost var start := Now();
      Same(start);
      ghost var known := KnownArgs(KnownEach(values, at)).Some?;
      ghost var expected := KnownEach(values, at);
      AllOrNone(expected);
      NoFieldsYet(keys, expected);
      NoFieldsYet(keys, Functions(values, scope));
      var fields := map[];
      NothingInside(start);
      for i := 0 to |keys|
        invariant Valid() && Later() && Follows(start, Now()) && Sees(scope, Now()) && Running()
        invariant Fits(at, scope)
        invariant MapInside(fields, Now()) && fields.Keys == NamesOf(keys[..i]) && i <= |values|
        invariant FieldsAre(fields, keys, Functions(values, scope), i)
        invariant known ==> Untouched() && FieldsAre(fields, keys, expected, i)
      {
        if i >= |values| {
          return None;
        }
        ghost var before := Now();
        FunctionIsKnown(values[i], at);
        var r := Eval(values[i], scope, at);
        Chain(start, before, Now());
        if r.Failed? {
          return None;
        }
        NextName(keys, i);
        NextField(fields, keys, Functions(values, scope), i, r.value);
        if known {
          NextField(fields, keys, expected, i, r.value);
        }
        MapUpdated(fields, keys[i], r.value, Now());
        fields := fields[keys[i] := r.value];
      }
      assert keys[..|keys|] == keys;
      if known && |keys| == |values| {
        FieldsHold(fields, keys, expected);
      }
      return Some(fields);
    }

    lemma FunctionIsKnown(n: Node, at: Place)
      requires at.local == []
      ensures FunctionOf(n, at.scope).Some? ==> Known(n, at) == FunctionOf(n, at.scope)
    {
    }

    lemma AllOrNone(values: seq<Option<Value>>)
      ensures KnownArgs(values).Some? <==> forall i :: 0 <= i < |values| ==> values[i].Some?
    {
    }

    lemma FieldsHold(fields: map<string, Value>, keys: seq<string>, expected: seq<Option<Value>>)
      requires FieldsAre(fields, keys, expected, |keys|) && fields.Keys == NamesOf(keys) && |keys| == |expected|
      requires KnownArgs(expected).Some?
      ensures Holds(fields, keys, KnownArgs(expected).value)
    {
    }

    method EvalUnary(op: string, arg: Node, scope: Scope, ghost at: Place) returns (r: Outcome)
      requires Valid() && Sees(scope, Now()) && Fits(at, scope) && Running()
      modifies this, frames, records, lists
      ensures Valid() && Later() && Follows(old(Now()), Now()) && Stands(r)
      ensures Sure(old(Known(Unary(op, arg), at)), r)
      decreases MAX_STEPS + 1 - steps, 1
    {
      hide Valid, Inside, Follows, Sees, Now, AllInside, MapInside, Known, SureObject, KeepsFunctions, Stated;
      ghost var start := Now();
      KnownUnary(op, arg, at);
      r := Eval(arg, scope, at);
      if r.Failed? {
        return;
      }
      var v: Value;
      if op == "!" {
        v := Bool(!Truthy(r.value));
      } else if op == "-" {
        v := Num(Negated(NumberOf(host, r.value)));
      } else if op == "+" {
        v := Num(NumberOf(host, r.value));
      } else if op == "typeof" {
        v := Str(TypeOf(r.value));
      } else {
        return Failed;
      }
      InsideIs(v, Now());
      return Ok(v);
    }

    method EvalLogical(op: string, left: Node, right: Node, scope: Scope, ghost at: Place) returns (r: Outcome)
      requires Valid() && Sees(scope, Now()) && Fits(at, scope) && Running()
      modifies this, frames, records, lists
      ensures Valid() && Later() && Follows(old(Now()), Now()) && Stands(r)
      ensures Sure(old(Known(Logical(op, left, right), at)), r)
      decreases MAX_STEPS + 1 - steps, 1
    {
      hide Valid, Inside, Follows, Sees, Now, AllInside, MapInside, Known, Truthy, SureObject, KeepsFunctions, Stated;
      ghost var start := Now();
      KnownLogical(op, left, right, at);
      r := Eval(left, scope, at);
      if r.Failed? || (op == "&&" && !Truthy(r.value)) || (op == "||" && Truthy(r.value))
        || (op == "??" && !IsNullish(r.value)) {
        return;
      }
      ghost var before := Now();
      Grow(start, before);
      r := Eval(right, scope, at);
      Chain(start, before, Now());
    }

    method EvalCond(test: Node, cons: Node, alt: Node, scope: Scope, ghost at: Place) returns (r: Outcome)
      requires Valid() && Sees(scope, Now()) && Fits(at, scope) && Running()
      modifies this, frames, records, lists
      ensures Valid() && Later() && Follows(old(Now()), Now()) && Stands(r)
      ensures Sure(old(Known(Cond(test, cons, alt), at)), r)
      decreases MAX_STEPS + 1 - steps, 1
    {
      hide Valid, Inside, Follows, Sees, Now, AllInside, MapInside, Known, Truthy, SureObject, KeepsFunctions, Stated;
      ghost var start := Now();
      KnownCond(test, cons, alt, at);
      r := Eval(test, scope, at);
      if r.Failed? {
        return;
      }
      ghost var before := Now();
      Grow(start, before);
      r := Eval(if Truthy(r.value) then cons else alt, scope, at);
      Chain(start, before, Now());
    }

    method EvalBinary(op: string, left: Node, right: Node, scope: Scope, ghost at: Place) returns (r: Outcome)
      requires Valid() && Sees(scope, Now()) && Fits(at, scope) && Running()
      modifies this, frames, records, lists
      ensures Valid() && Later() && Follows(old(Now()), Now()) && Stands(r)
      ensures Sure(old(Known(Binary(op, left, right), at)), r)
      decreases MAX_STEPS + 1 - steps, 2
    {
      hide Valid, Inside, Follows, Sees, Now, AllInside, MapInside, Known, BinaryOf;
      KnownBinary(op, left, right, at);
      var a, b := EvalBoth(left, right, scope, at);
      if a.Failed? || b.Failed? {
        return Failed;
      }
      r := Operate(op, a.value, b.value);
      if r.Ok? {
        InsideIs(r.value, Now());
      }
    }

    /** The right operand is not evaluated when the left one fails. */
    method EvalBoth(left: Node, right: Node, scope: Scope, ghost at: Place) returns (a: Outcome, b: Outcome)
      requires Valid() && Sees(scope, Now()) && Fits(at, scope) && Running()
      modifies this, frames, records, lists
      ensures Valid() && Later() && Follows(old(Now()), Now())
      ensures steps <= MAX_STEPS + 1 && (a.Ok? && b.Ok? ==>
                Running() && Inside(a.value, Now()) && Inside(b.value, Now()))
      ensures var x, y := old(Known(left, at)), old(Known(right, at));
              x.Some? && y.Some? ==>
                Untouched() && if a.Ok? && b.Ok? then a.value == x.value && b.value == y.value else steps > MAX_STEPS
      decreases MAX_STEPS + 1 - steps, 1
    {
      hide Valid, Inside, Follows, Sees, Now, AllInside, MapInside, Known, SureObject, KeepsFunctions, Stated;
      ghost var start := Now();
      a := Eval(left, scope, at);
      b := Failed;
      if a.Failed? {
        return;
      }
      ghost var before := Now();
      Grow(start, before);
      assert old(Known(left, at)).Some? ==>
               Untouched() && a.value == old(Known(left, at)).value
               && Known(right, at) == old(Known(right, at));
      b := Eval(right, scope, at);
      Chain(start, before, Now());
    }

    method EvalMember(n: Node, scope: Scope, ghost at: Place) returns (r: Outcome, owner: Option<Value>)
      requires n.Member? || n.Element?
      requires Valid() && Sees(scope, Now()) && Fits(at, scope) && Running()
      modifies this, frames, records, lists
      ensures Valid() && Later() && Follows(old(Now()), Now()) && Stands(r)
              && (owner.Some? ==> Inside(owner.value, Now()))
      ensures Sure(old(Known(n, at)), r)
      ensures owner.Some? ==> r.Ok? && !IsNullish(owner.value)
      ensures r.Ok? && owner.None? ==> n.optional && r.value == Undefined
      ensures owner.Some? && n.Member? ==> r.value == PropertyOf(owner.value, n.name)
      ensures r.Ok? && old(Known(n.base, at)).Some? ==>
                var base := old(Known(n.base, at)).value;
                owner == if IsNullish(base) then None else Some(base)
      decreases MAX_STEPS + 1 - steps, 3
    {
      hide Valid, Inside, Follows, Sees, Now, AllInside, MapInside, Known, KnownKey, KnownMember, SureObject,
        KeepsFunctions, Stated;
      ghost var start := Now();
      KnownRead(n, at);
      NothingRead(KnownKey(n, at), n.optional);
      var base := Eval(n.base, scope, at);
      if base.Failed? {
        return base, None;
      }
      ghost var before := Now();
      Grow(start, before);
      assert old(Known(n.base, at)).Some? ==> KnownKey(n, at) == old(KnownKey(n, at));
      assert old(Known(n.base, at)).Some? ==>
               KnownMember(Some(base.value), KnownKey(n, at), n.optional) ==
               old(KnownMember(Known(n.base, at), KnownKey(n, at), n.optional));
      r, owner := ReadMember(base.value, n, scope, at);
      Chain(start, before, Now());
    }

    lemma NothingRead(key: Option<string>, optional: bool)
      ensures KnownMember(None, key, optional) == None
    {
    }

    /** Nullish values have no members; an optional access does not even look at its key. */
    method ReadMember(base: Value, n: Node, scope: Scope, ghost at: Place) returns (r: Outcome, owner: Option<Value>)
      requires n.Member? || n.Element?
      requires Valid() && Sees(scope, Now()) && Fits(at, scope) && Running() && Inside(base, Now())
      modifies this, frames, records, lists
      ensures Valid() && Later() && Follows(old(Now()), Now()) && Stands(r)
              && (owner.Some? ==> Inside(owner.value, Now()))
      ensures Sure(old(KnownRest(base, n, at)), r)
      ensures IsNullish(base) ==> r == (if n.optional then Ok(Undefined) else Failed) && owner.None?
      ensures r.Ok? && !IsNullish(base) ==> owner == Some(base)
      ensures r.Ok? && owner.Some? && n.Member? ==> r.value == PropertyOf(base, n.name)
      ensures owner.Some? ==> r.Ok? && owner == Some(base)
      decreases MAX_STEPS + 1 - steps, 2
    {
      hide Valid, Inside, Follows, Sees, Now, AllInside, MapInside, Known, KnownKey, PropertyOf;
      ghost var start := Now();
      Same(start);
      if IsNullish(base) {
        InsideIs(Undefined, Now());
        return if n.optional then Ok(Undefined) else Failed, None;
      }
      var key := KeyOf(n, scope, at);
      Grow(start, Now());
      if key.None? {
        return Failed, None;
      }
      var v := GetProperty(base, key.value);
      return Ok(v), Some(base);
    }

    method KeyOf(n: Node, scope: Scope, ghost at: Place) returns (key: Option<string>)
      requires n.Member? || n.Element?
      requires Valid() && Sees(scope, Now()) && Fits(at, scope) && Running()
      modifies this, frames, records, lists
      ensures Valid() && Later() && Follows(old(Now()), Now()) && steps <= MAX_STEPS + 1
              && (key.Some? ==> Running())
      ensures n.Member? ==> key == Some(n.name)
      ensures SureText(old(KnownKey(n, at)), key)
      decreases MAX_STEPS + 1 - steps, 1
    {
      hide Valid, Inside, Follows, Sees, Now, AllInside, MapInside, Known, TextOf, SureObject, KeepsFunctions, Stated;
      ghost var start := Now();
      Same(start);
      if n.Member? {
        return Some(n.name);
      }
      var r := Eval(n.prop, scope, at);
      if r.Failed? {
        return None;
      }
      key := ToText(r.value);
    }

    method EvalCall(callee: Node, args: seq<Node>, optional: bool, scope: Scope, ghost at: Place) returns (r: Outcome)
      requires Valid() && Sees(scope, Now()) && Fits(at, scope) && Running()
      modifies this, frames, records, lists
      ensures Valid() && Later() && Follows(old(Now()), Now()) && Stands(r)
      ensures Sure(old(Known(Call(callee, args, optional), at)), r)
      decreases MAX_STEPS + 1 - steps, 8
    {
      hide Valid, Inside, Follows, Sees, Now, AllInside, MapInside, Known, KnownEach, KnownAnswer;
      ghost var start := Now();
      KnownCallIs(callee, args, optional, at);
      var owner;
      r, owner := EvalCallee(callee, scope, at);
      if r.Failed? {
        return;
      }
      if IsNullish(r.value) {
        InsideIs(Undefined, Now());
        return if optional then Ok(Undefined) else Failed;
      }
      ghost var called := Now();
      Grow(start, called);
      assert old(Known(callee, at)).Some? ==>
               KnownEach(args, at) == old(KnownEach(args, at))
               && KnownAnswer(r.value, KnownArgs(KnownEach(args, at)), at) ==
                  old(KnownAnswer(Known(callee, at).value, KnownArgs(KnownEach(args, at)), at));
      r := CallWith(r.value, owner, args, scope, at);
      Chain(start, called, Now());
    }

    /** Calling a member remembers what it is a member of. */
    method EvalCallee(callee: Node, scope: Scope, ghost at: Place) returns (r: Outcome, owner: Option<Value>)
      requires Valid() && Sees(scope, Now()) && Fits(at, scope) && Running()
      modifies this, frames, records, lists
      ensures Valid() && Later() && Follows(old(Now()), Now()) && Stands(r)
              && (owner.Some? ==> Inside(owner.value, Now()))
      ensures Sure(old(Known(callee, at)), r)
      decreases MAX_STEPS + 1 - steps, 4
    {
      hide Valid, Inside, Follows, Sees, Now, AllInside, MapInside, Known, SureObject, KeepsFunctions, Stated;
      ghost var start := Now();
      owner := None;
      if callee.Member? || callee.Element? {
        r, owner := EvalMember(callee, scope, at);
      } else {
        r := Eval(callee, scope, at);
      }
    }

    method CallWith(fn: Value, owner: Option<Value>, args: seq<Node>, scope: Scope, ghost at: Place)
        returns (r: Outcome)
      requires Valid() && Sees(scope, Now()) && Fits(at, scope) && Running() && Inside(fn, Now())
               && (owner.Some? ==> Inside(owner.value, Now()))
      modifies this, frames, records, lists
      ensures Valid() && Later() && Follows(old(Now()), Now()) && Stands(r)
      ensures Sure(old(KnownAnswer(fn, KnownArgs(KnownEach(args, at)), at)), r)
      decreases MAX_STEPS + 1 - steps, 7
    {
      hide Valid, Inside, Follows, Sees, Now, AllInside, MapInside, Known, KnownEach, KnownArgs, KnownResult,
        SureObject;
      ghost var start := Now();
      ghost var known := KnownArgs(KnownEach(args, at));
      var values := EvalArgs(args, scope, at);
      if values.None? {
        return Failed;
      }
      ghost var ready := Now();
      Grow(start, ready);
      assert known.Some? ==> KnownResult(fn, values.value, at) == old(KnownResult(fn, known.value, at));
      r := CallValues(fn, owner, values.value, at);
      Chain(start, ready, Now());
    }

    method EvalArgs(args: seq<Node>, scope: Scope, ghost at: Place) returns (values: Option<seq<Value>>)
      requires Valid() && Sees(scope, Now()) && Fits(at, scope) && Running()
      modifies this, frames, records, lists
      ensures Valid() && Later() && Follows(old(Now()), Now()) && StandsAll(values)
      ensures var known := old(KnownArgs(KnownEach(args, at)));
              known.Some? ==> Untouched() && if values.Some? then values == known else steps > MAX_STEPS
      decreases MAX_STEPS + 1 - steps, 2
    {
      hide Valid, Inside, Follows, Sees, Now, AllInside, MapInside, Known;
      ghost var known := KnownArgs(KnownEach(args, at));
      values := EvalAll(args, scope, at);
      assert values.Some? && known.Some? ==> values.value == known.value;
    }

    method CallValues(fn: Value, owner: Option<Value>, args: seq<Value>, ghost at: Place) returns (r: Outcome)
      requires Valid() && Running() && Inside(fn, Now()) && AllInside(args, Now()) && at.frames <= frames
               && (owner.Some? ==> Inside(owner.value, Now()))
      modifies this, frames, records, lists
      ensures Valid() && Later() && Follows(old(Now()), Now()) && Stands(r)
      ensures Sure(old(KnownResult(fn, args, at)), r)
      decreases MAX_STEPS + 1 - steps, 6, 1
    {
      hide Valid, Inside, Follows, Sees, Now, AllInside, MapInside, Known, AnswerOf, SureObject;
      if owner.Some? && owner.value.Arr? && fn.Builtin? && IsCallbackMethod(fn.name) {
        InsideIs(owner.value, Now());
        NoCallbackAnswer(fn.name, fn.owner, args);
        ghost var visits;
        r, visits := CallArray(owner.value.list, fn.name, args);
      } else {
        r := Invoke(fn, args, at);
      }
    }

    /** Calls a function and keeps a record of what came of it. */
    method Invoke(fn: Value, args: seq<Value>, ghost at: Place) returns (r: Outcome)
      requires Valid() && Inside(fn, Now()) && AllInside(args, Now()) && at.frames <= frames && Running()
      modifies this, frames, records, lists
      ensures Valid() && Later() && Follows(old(Now()), Now()) && Stands(r) && old(steps) < steps
      ensures Sure(old(KnownResult(fn, args, at)), r)
      ensures fn.Closure? && at.calls > 0 ==> SureObject(old(KnownMade(fn, args, Below(at))), r)
      ensures |old(calls)| < |calls| && calls[|calls| - 1] == Called(fn, args, r)
      decreases MAX_STEPS + 1 - steps, 0
    {
      hide Valid, Inside, Follows, Sees, Now, AllInside, MapInside, Known, AnswerOf;
      r := Apply(fn, args, at);
      calls := calls + [Called(fn, args, r)];
    }

    /** Calls a function: a step, and then its body in a scope of its own. */
    method Apply(fn: Value, args: seq<Value>, ghost at: Place) returns (r: Outcome)
      requires Valid() && Inside(fn, Now()) && AllInside(args, Now()) && at.frames <= frames && Running()
      modifies this, frames, records, lists
      ensures Valid() && Later() && Follows(old(Now()), Now()) && Stands(r) && old(steps) < steps
      ensures Sure(old(KnownResult(fn, args, at)), r)
      ensures fn.Closure? && at.calls > 0 ==> SureObject(old(KnownMade(fn, args, Below(at))), r)
      decreases MAX_STEPS + 1 - steps, 0, 0
    {
      hide Valid, Inside, Follows, Sees, Now, AllInside, MapInside, Known, AnswerOf;
      ghost var start := Now();
      Same(start);
      var ok := Tick();
      if !ok {
        return Failed;
      }
      InsideIs(fn, start);
      if fn.Builtin? {
        r := CallBuiltin(fn.name, fn.owner, args);
      } else if fn.Closure? {
        r := RunClosure(fn, args, at);
      } else {
        return Failed;
      }
    }

    /** Runs the body of a function behind its parameters: an expression gives its value, statements what the first
        return gives, or undefined. */
    method RunClosure(fn: Value, args: seq<Value>, ghost at: Place) returns (r: Outcome)
      requires fn.Closure? && Valid() && Sees(fn.scope, Now()) && Running() && AllInside(args, Now())
               && at.frames <= frames
      modifies this, frames, records, lists
      ensures Valid() && Later() && Follows(old(Now()), Now()) && Stands(r)
      ensures Sure(old(KnownResult(fn, args, at)), r)
      ensures at.calls > 0 ==> SureObject(old(KnownMade(fn, args, Below(at))), r)
      decreases MAX_STEPS + 1 - steps, 4
    {
      hide Valid, Inside, Follows, Sees, Now, AllInside, MapInside, Known, KnownBlock, KnownObject, Holds;
      ghost var start := Now();
      BindingsInside(fn.params, args, start);
      var inner := Enter(fn.scope, Bindings(fn.params, args));
      ghost var before := Now();
      ghost var inside := InCall(fn, args, if at.calls > 0 then Below(at) else at);
      match fn.code {
        case Result(expr) =>
          r := EvalIn(expr, inner, inside);
          Chain(start, before, Now());
        case Statements(body) =>
          r := RunBody(body, inner, inside);
          ScopeCloses(start, before, Now(), inner, DeclaredAll(body));
      }
    }

    /** The first return gives the value of a call; without one it is undefined. */
    method RunBody(body: seq<Stmt>, scope: Scope, ghost at: Place) returns (r: Outcome)
      requires Valid() && Sees(scope, Now()) && Shows(at, scope) && Running()
      modifies this, frames, records, lists
      ensures Valid() && Later() && Declares(old(Now()), Now(), scope, DeclaredAll(body)) && Stands(r)
      ensures var known := old(KnownBlock(body, at, 0));
              && SureObject(known, r)
              && (known.Some? && known.value.Completes? && !known.value.end.Broken? ==>
                    SureIn(Some(Given(known.value.end)), scope, |at.local|, r))
      decreases MAX_STEPS + 1 - steps, 3
    {
      hide Valid, Inside, Declares, Sees, Now, Has, KnownBlock, Holds, Apart;
      var c := ExecBlock(body, scope, at);
      match c {
        case Done => InsideIs(Undefined, Now()); return Ok(Undefined);
        case Returned(v) => return Ok(v);
        case Broken => return Failed;
      }
    }

    method EvalAssign(target: Node, op: string, value: Node, scope: Scope, ghost at: Place) returns (r: Outcome)
      requires Valid() && Sees(scope, Now()) && Fits(at, scope) && Running()
      modifies this, frames, records, lists
      ensures Valid() && Later() && Follows(old(Now()), Now()) && Stands(r)
      ensures r.Ok? && target.Ident? ==> KnownName(target.name, Here(scope)) == Some(r.value)
      ensures var put := old(KnownNew(Assign(target, op, value), at));
              && (r.Ok? && put.Some? ==> r.value == put.value && IsAt(old(TargetOf(target, at)), r.value))
              && (target.Ident? ==> SureStored(put, target.name, scope, r))
      decreases MAX_STEPS + 1 - steps, 5
    {
      hide Valid, Inside, Follows, Sees, Now, AllInside, MapInside, Known, KnownKey, TargetOf, IsAt, KnownName,
        KnownCombined,
        SureObject, KeepsFunctions, Stated;
      ghost var start := Now();
      r := Eval(value, scope, at);
      if r.Failed? {
        return;
      }
      ghost var before := Now();
      Grow(start, before);
      assert old(Known(value, at)).Some? ==>
               TargetOf(target, at) == old(TargetOf(target, at))
               && KnownCombined(target, op, r.value, at) ==
                  old(KnownCombined(target, op, Known(value, at).value, at));
      r := AssignValue(target, op, r.value, scope, at);
      Chain(start, before, Now());
    }

    /** The value is where an assignment should have put it, if that place is known. */
    ghost predicate IsAt(place: Option<(Value, string)>, v: Value)
      reads if place.Some? && place.value.0.Obj? then {place.value.0.record} else {},
            if place.Some? && place.value.0.Arr? then {place.value.0.list} else {}
    {
      place.Some? ==> PropertyOf(place.value.0, place.value.1) == v
    }

    method AssignValue(target: Node, op: string, v: Value, scope: Scope, ghost at: Place) returns (r: Outcome)
      requires Valid() && Sees(scope, Now()) && Fits(at, scope) && Running() && Inside(v, Now())
      modifies this, frames, records, lists
      ensures Valid() && Later() && Follows(old(Now()), Now()) && Stands(r)
      ensures r.Ok? && target.Ident? ==> KnownName(target.name, Here(scope)) == Some(r.value)
      ensures var put := old(KnownCombined(target, op, v, at));
              && (r.Ok? && put.Some? ==> r.value == put.value && IsAt(old(TargetOf(target, at)), r.value))
              && (target.Ident? ==> SureStored(put, target.name, scope, r))
      decreases MAX_STEPS + 1 - steps, 4
    {
      hide Valid, Inside, Follows, Sees, Now, AllInside, MapInside, Known, KnownKey, TargetOf, IsAt, KnownName,
        KnownCombined;
      ghost var start := Now();
      r := Combine(target, op, v, scope, at);
      ghost var after := Now();
      Grow(start, after);
      if r.Failed? {
        return;
      }
      assert old(KnownCombined(target, op, v, at)).Some? ==> TargetOf(target, at) == old(TargetOf(target, at));
      var ok := StoreInto(target, r.value, scope, at);
      Chain(start, after, Now());
      return if ok then r else Failed;
    }

    /** A compound assignment reads its target first. */
    method Combine(target: Node, op: string, v: Value, scope: Scope, ghost at: Place) returns (r: Outcome)
      requires Valid() && Sees(scope, Now()) && Fits(at, scope) && Running() && Inside(v, Now())
      modifies this, frames, records, lists
      ensures Valid() && Later() && Follows(old(Now()), Now()) && Stands(r)
      ensures Sure(old(KnownCombined(target, op, v, at)), r)
      decreases MAX_STEPS + 1 - steps, 1
    {
      hide Valid, Inside, Follows, Sees, Now, AllInside, MapInside, Known, ArithmeticOf, SureObject, KeepsFunctions,
        Stated, SureStored, KnownObject, KnownNew;
      ghost var start := Now();
      Same(start);
      if op == "=" {
        return Ok(v);
      }
      r := Eval(target, scope, at);
      if r.Failed? {
        return;
      }
      ghost var before := Now();
      Grow(start, before);
      assert old(Known(target, at)).Some? ==>
               ArithmeticOf(WithoutEquals(op), r.value, v) ==
               old(ArithmeticOf(WithoutEquals(op), Known(target, at).value, v));
      r := Compute(WithoutEquals(op), r.value, v);
    }

    method Compute(op: string, left: Value, right: Value) returns (r: Outcome)
      requires Valid() && Inside(left, Now()) && Inside(right, Now()) && Running()
      modifies this
      ensures Valid() && Later() && Now() == old(Now()) && Stands(r)
      ensures AnswerIs(old(ArithmeticOf(op, left, right)), r)
    {
      hide Valid, Inside, Now, TextOf, Bytes;
      r := Arithmetic(op, left, right);
      if r.Ok? {
        InsideIs(r.value, Now());
      }
    }

    method StoreInto(target: Node, v: Value, scope: Scope, ghost at: Place) returns (ok: bool)
      requires Valid() && Sees(scope, Now()) && Fits(at, scope) && Running() && Inside(v, Now())
      modifies this, frames, records, lists
      ensures Valid() && Later() && Follows(old(Now()), Now()) && steps <= MAX_STEPS + 1
      ensures ok ==> Running() && Inside(v, Now()) && IsAt(old(TargetOf(target, at)), v)
      ensures ok && target.Ident? ==> KnownName(target.name, Here(scope)) == Some(v)
      ensures target.Ident? ==> SureStored(Some(v), target.name, scope, if ok then Ok(v) else Failed)
      decreases MAX_STEPS + 1 - steps, 3
    {
      hide Valid, Inside, Follows, Sees, Now, AllInside, MapInside, Known, KnownKey;
      ghost var start := Now();
      Same(start);
      if target.Ident? {
        ScopeIn(scope);
        ok := AssignName(scope, target.name, v);
        Grow(start, Now());
      } else if target.Member? || target.Element? {
        ok := StoreAt(target, v, scope, at);
        Grow(start, Now());
      } else {
        ok := false;
      }
    }

    method StoreAt(target: Node, v: Value, scope: Scope, ghost at: Place) returns (ok: bool)
      requires target.Member? || target.Element?
      requires Valid() && Sees(scope, Now()) && Fits(at, scope) && Running() && Inside(v, Now())
      modifies this, frames, records, lists
      ensures Valid() && Later() && Follows(old(Now()), Now()) && steps <= MAX_STEPS + 1 && (ok ==> Running())
      ensures ok ==> IsAt(old(TargetOf(target, at)), v)
      decreases MAX_STEPS + 1 - steps, 2
    {
      hide Valid, Inside, Follows, Sees, Now, AllInside, MapInside, Known, KnownKey, PropertyOf, SureObject,
        KeepsFunctions, Stated;
      ghost var start := Now();
      var base := Eval(target.base, scope, at);
      if base.Failed? {
        return false;
      }
      ghost var based := Now();
      Grow(start, based);
      assert old(Known(target.base, at)).Some? ==> KnownKey(target, at) == old(KnownKey(target, at));
      ok := StoreKey(base.value, target, v, scope, at);
      Chain(start, based, Now());
    }

    method StoreKey(base: Value, target: Node, v: Value, scope: Scope, ghost at: Place) returns (ok: bool)
      requires target.Member? || target.Element?
      requires Valid() && Sees(scope, Now()) && Fits(at, scope) && Running()
      requires Inside(base, Now()) && Inside(v, Now())
      modifies this, frames, records, lists
      ensures Valid() && Later() && Follows(old(Now()), Now()) && steps <= MAX_STEPS + 1 && (ok ==> Running())
      ensures var key := old(KnownKey(target, at));
              ok && key.Some? && key != Some("length") ==> IsAt(Some((base, key.value)), v)
      decreases MAX_STEPS + 1 - steps, 2
    {
      hide Valid, Inside, Follows, Sees, Now, AllInside, MapInside, Known, KnownKey;
      ghost var start := Now();
      var key := KeyOf(target, scope, at);
      ghost var ready := Now();
      Grow(start, ready);
      if key.None? {
        return false;
      }
      ok := SetProperty(base, key.value, v);
      Chain(start, ready, Now());
    }

    // -----------------------------------------------------------------------------------------
    // Statements
    // -----------------------------------------------------------------------------------------

    /** How a statement ends, if it changes nothing but local variables and makes nothing but an object to return: a
        reference interpreter whose state is the contents of the local scopes.  It knows declarations, assignments
        to local variables, conditions, blocks, loops and returns. */
    ghost function KnownEnd(s: Stmt, at: Place): (ending: Option<Ending>)
      requires at.local != []
      reads this`records, this`lists, at.frames, records, lists
      decreases at.calls, s, 0
      ensures Keeps(ending, |at.local|)
    {
      match s
      case VarDecl(names, inits) => KnownDecls(names, inits, at, 0)
      case ExprStmt(e) =>
        if e.Assign? then KnownStore(e, at)
        else if Known(e, at).None? then None
        else Some(Completes(Done, at.local))
      case Return(arg) =>
        if arg.None? then Some(Completes(Returned(Undefined), at.local))
        else if arg.value.ObjLit? then KnownObject(arg.value, at)
        else
          var v := Known(arg.value, at);
          if v.None? then None else Some(Completes(Returned(v.value), at.local))
      case If(test, cons, alt) =>
        var v := Known(test, at);
        if v.None? then None
        else if Truthy(v.value) then KnownIn(cons, map[], at)
        else if alt.Some? then KnownIn(alt.value, map[], at)
        else Some(Completes(Done, at.local))
      case Block(body) => Left(KnownBlock(body, Inner(at, map[]), 0))
      case ForOf(name, iter, body) =>
        var v := Known(iter, at);
        if v.None? then None else KnownLoop(name, v.value, body, at)
    }

    ghost function KnownLoop(name: string, v: Value, body: Stmt, at: Place): (ending: Option<Ending>)
      reads this`records, this`lists, at.frames, records, lists
      decreases at.calls, body
      ensures Keeps(ending, |at.local|)
    {
      match v
      case Arr(list) => if list in lists then KnownTurns(name, list.items, body, at, 0) else None
      case Str(text) => KnownTurns(name, Letters(text), body, at, 0)
      case _ => None
    }

    ghost function KnownBranch(branch: Option<Stmt>, at: Place): (ending: Option<Ending>)
      reads this`records, this`lists, at.frames, records, lists
      ensures Keeps(ending, |at.local|)
    {
      if branch.None? then Some(Completes(Done, at.local)) else KnownIn(branch.value, map[], at)
    }

    lemma BranchIs(test: Node, cons: Stmt, alt: Option<Stmt>, at: Place)
      requires at.local != []
      ensures var v := Known(test, at);
              KnownEnd(If(test, cons, alt), at) ==
              if v.None? then None else KnownBranch(if Truthy(v.value) then Some(cons) else alt, at)
    {
    }

    /** In a scope of its own. */
    ghost function Inner(at: Place, vars: map<string, Value>): Place {
      at.(local := [vars] + at.local)
    }

    ghost function KnownIn(s: Stmt, vars: map<string, Value>, at: Place): (ending: Option<Ending>)
      reads this`records, this`lists, at.frames, records, lists
      decreases at.calls, s, 1
      ensures Keeps(ending, |at.local|)
    {
      Left(KnownEnd(s, Inner(at, vars)))
    }

    /** The turns of a loop from the i-th on, each with its element in a scope of its own. */
    ghost function KnownTurns(name: string, items: seq<Value>, body: Stmt, at: Place, i: nat): (ending: Option<Ending>)
      requires i <= |items|
      reads this`records, this`lists, at.frames, records, lists
      decreases at.calls, body, 2 + |items| - i
      ensures Keeps(ending, |at.local|)
    {
      if i == |items| then Some(Completes(Done, at.local))
      else
        match KnownIn(body, map[name := items[i]], at)
        case Some(Completes(Done, local)) => KnownTurns(name, items, body, at.(local := local), i + 1)
        case other => other
    }

    /** The declarations from the i-th on; without an initializer a variable is undefined. */
    ghost function KnownDecls(names: seq<string>, inits: seq<Option<Node>>, at: Place, i: nat): (ending: Option<Ending>)
      requires at.local != [] && i <= |names|
      reads this`records, this`lists, at.frames, records, lists
      decreases at.calls, inits, |names| - i
      ensures Keeps(ending, |at.local|)
    {
      if i == |names| then Some(Completes(Done, at.local))
      else
        match KnownInitAt(inits, i, at)
        case None => None
        case Some(v) => KnownDecls(names, inits, at.(local := at.local[0 := at.local[0][names[i] := v]]), i + 1)
    }

    ghost function KnownInitAt(inits: seq<Option<Node>>, i: nat, at: Place): Option<Value>
      reads this`records, this`lists, at.frames, records, lists
      decreases at.calls, inits, 0
    {
      if i < |inits| then KnownInit(inits[i], at) else Some(Undefined)
    }

    ghost function KnownInit(init: Option<Node>, at: Place): Option<Value>
      reads this`records, this`lists, at.frames, records, lists
      decreases at.calls, init, 0
    {
      if init.None? then Some(Undefined) else Known(init.value, at)
    }

    /** What an assignment gives its target. */
    ghost function KnownNew(e: Node, at: Place): Option<Value>
      requires e.Assign?
      reads this`records, this`lists, at.frames, records, lists
      decreases at.calls, e, 0
    {
      var v := Known(e.value, at);
      if v.None? then None else KnownCombined(e.target, e.op, v.value, at)
    }

    /** A compound assignment operates on what its target holds. */
    ghost function KnownCombined(target: Node, op: string, v: Value, at: Place): Option<Value>
      reads this`records, this`lists, at.frames, records, lists
      decreases at.calls, target, 2
    {
      if op == "=" then Some(v)
      else
        var held := Known(target, at);
        if held.None? then None else ArithmeticOf(WithoutEquals(op), held.value, v)
    }

    /** An assignment to a local variable. */
    ghost function KnownStore(e: Node, at: Place): (ending: Option<Ending>)
      requires e.Assign?
      reads this`records, this`lists, at.frames, records, lists
      decreases at.calls, e, 1
      ensures Keeps(ending, |at.local|)
    {
      var v := KnownNew(e, at);
      if v.None? || !e.target.Ident? then None
      else
        var k := LocalLevel(at.local, e.target.name);
        if k == |at.local| then None
        else Some(Completes(Done, at.local[k := at.local[k][e.target.name := v.value]]))
    }

    /** The object that a literal with known values makes. */
    ghost function KnownObject(n: Node, at: Place): (made: Option<Ending>)
      reads this`records, this`lists, at.frames, records, lists
      decreases at.calls, n, 0
      ensures made.Some? ==> made.value.Makes?
    {
      if n.ObjLit? && |n.keys| == |n.values| && KnownArgs(KnownEach(n.values, at)).Some?
      then Some(Makes(n.keys, KnownArgs(KnownEach(n.values, at)).value)) else None
    }

    /** How the statements from the i-th on end. */
    ghost function KnownBlock(body: seq<Stmt>, at: Place, i: nat): (ending: Option<Ending>)
      requires at.local != [] && i <= |body|
      reads this`records, this`lists, at.frames, records, lists
      decreases at.calls, body, |body| - i
      ensures Keeps(ending, |at.local|)
    {
      if i == |body| then Some(Completes(Done, at.local))
      else
        match KnownEnd(body[i], at)
        case Some(Completes(Done, local)) => KnownBlock(body, at.(local := local), i + 1)
        case other => other
    }

    ghost function Contents(scope: Scope, n: nat): (vars: seq<map<string, Value>>)
      requires n <= |scope|
      reads scope
      ensures |vars| == n
    {
      seq(n, j requires 0 <= j < n reads scope => scope[j].vars)
    }

    /** The local scopes of a place are the innermost real ones, with these variables at present, and reading looks
        into none of them. */
    ghost predicate Shows(at: Place, scope: Scope)
      reads this`frames, scope
    {
      && Apart(|at.local|, at.scope, at.frames, scope) && at.frames <= frames
      && at.local == Contents(scope, |at.local|)
    }

    /** The place with the present variables. */
    ghost function Current(at: Place, scope: Scope): Place
      requires |at.local| <= |scope|
      reads scope
    {
      at.(local := Contents(scope, |at.local|))
    }

    /** Where the statements of a place run. */
    ghost function Real(at: Place, scope: Scope): Place
      requires |at.local| <= |scope|
    {
      Place([], scope, at.frames + (set j | 0 <= j < |at.local| :: scope[j]), at.calls)
    }

    lemma RealKnows(e: Node, at: Place, scope: Scope)
      requires Shows(at, scope) && Sees(scope, Now())
      ensures Fits(Real(at, scope), scope)
      ensures Known(e, at).Some? ==> Known(e, Real(at, scope)) == Known(e, at)
      ensures KnownObject(e, at).Some? ==> KnownObject(e, Real(at, scope)) == KnownObject(e, at)
      ensures e.Assign? && KnownNew(e, at).Some? ==> KnownNew(e, Real(at, scope)) == KnownNew(e, at)
    {
      hide Known, KnownObject, KnownNew, Sees, Now;
      ScopeIn(scope);
      var inside := Real(at, scope);
      assert IsReal(inside, at);
      if Known(e, at).Some? {
        MovedInside(e, at, inside);
      }
      if KnownObject(e, at).Some? {
        MovedObject(e, at, inside);
      }
      if e.Assign? && KnownNew(e, at).Some? {
        MovedNew(e, at, inside);
      }
    }

    /** Nothing was changed but the n innermost scopes, and nothing but scopes was made. */
    twostate predicate UntouchedBut(scope: Scope, n: nat)
      requires n <= |scope|
      reads this, frames, records, lists
    {
      && old(frames) <= frames && records == old(records) && lists == old(lists)
      && unchanged(old(frames) - (set j | 0 <= j < n :: scope[j])) && unchanged(records) && unchanged(lists)
    }

    /** Where the value of a call is known it is that value, or the step limit is reached. */
    twostate predicate SureIn(new known: Option<Value>, scope: Scope, n: nat, new r: Outcome)
      requires n <= |scope|
      reads this, frames, records, lists
    {
      known.Some? ==> UntouchedBut(scope, n) && if r.Ok? then r.value == known.value else steps > MAX_STEPS
    }

    /** The scope that holds a variable. */
    ghost function Holder(scope: Scope, name: string): set<Frame>
      reads scope
    {
      if Level(scope, name) < |scope| then {scope[Level(scope, name)]} else {}
    }

    /** An assignment whose value is known changes that variable and nothing else; it fails without the variable, or
        at the step limit. */
    twostate predicate SureStored(new known: Option<Value>, name: string, scope: Scope, new r: Outcome)
      reads this, frames, records, lists, scope
    {
      known.Some? ==>
        && old(frames) <= frames && records == old(records) && lists == old(lists)
        && unchanged(old(frames) - old(Holder(scope, name))) && unchanged(records) && unchanged(lists)
        && var k := old(Level(scope, name));
          if r.Ok? then r.value == known.value && k < |scope| && scope[k].vars == old(scope[k].vars)[name := r.value]
          else steps > MAX_STEPS || k == |scope|
    }

    lemma BlockGoesOn(body: seq<Stmt>, at: Place, i: nat)
      requires at.local != [] && i < |body|
      ensures KnownBlock(body, at, i) ==
              match KnownEnd(body[i], at) {
                case Some(Completes(Done, local)) => KnownBlock(body, at.(local := local), i + 1)
                case other => other
              }
    {
    }

    lemma BlockEnds(body: seq<Stmt>, at: Place)
      requires at.local != []
      ensures KnownBlock(body, at, |body|) == Some(Completes(Done, at.local))
    {
    }

    /** Where the ending is known, the statement ends that way and leaves these variables, or the step limit is
        reached. */
    twostate predicate SureEnd(new known: Option<Ending>, scope: Scope, n: nat, new c: Completion)
      requires n <= |scope| && Keeps(known, n)
      reads this, frames, records, lists, scope
    {
      known.Some? ==>
        && (known.value.Completes? ==> UntouchedBut(scope, n))
        && if c.Broken? then steps > MAX_STEPS
           else if known.value.Completes? then
             c == known.value.end && Contents(scope, n) == known.value.local
           else c.Returned? && IsNew(known.value.keys, known.value.values, c.value)
    }

    /** What stands behind an optional access is not looked at when there is nothing before it. */
    lemma OptionalAccess(base: Node, name: string, prop: Node, args: seq<Node>, at: Place)
      requires Known(base, at) == Some(Null) || Known(base, at) == Some(Undefined)
      ensures Known(Member(base, name, true), at) == Known(Element(base, prop, true), at) == Some(Undefined)
      ensures Known(Call(base, args, true), at) == Some(Undefined)
      ensures Known(Member(base, name, false), at) == Known(Element(base, prop, false), at) == None
      ensures Known(Call(base, args, false), at) == None
    {
    }

    /** Calling a function where it is written: an arrow function gives its expression with the parameters bound to the
        arguments, `(function () { return x; })()` gives x, and `(function () { })()` gives undefined. */
    lemma ImmediateCalls(params: seq<string>, expr: Node, args: seq<Node>, x: real, at: Place)
      requires at.local == [] && at.calls > 0 && KnownArgs(KnownEach(args, at)).Some?
      ensures var values := KnownArgs(KnownEach(args, at)).value;
              Known(Call(ArrowLit(params, expr), args, false), at) ==
              Known(expr, Place([Bindings(params, values)], at.scope, at.frames, at.calls - 1))
      ensures Known(Call(FnLit([], [Return(Some(NumLit(x)))]), [], false), at) == Some(Num(Finite(x)))
      ensures Known(Call(FnLit([], []), [], false), at) == Some(Undefined)
    {
      var values := KnownArgs(KnownEach(args, at)).value;
      FunctionIsKnown(ArrowLit(params, expr), at);
      FunctionIsKnown(FnLit([], []), at);
      FunctionIsKnown(FnLit([], [Return(Some(NumLit(x)))]), at);
      KnownCallIs(ArrowLit(params, expr), args, false, at);
      KnownCallIs(FnLit([], []), [], false, at);
      KnownCallIs(FnLit([], [Return(Some(NumLit(x)))]), [], false, at);
      NumberReturned(x, InCall(Closure([], Statements([Return(Some(NumLit(x)))]), at.scope), [], Below(at)));
      BlockEnds([], InCall(Closure([], Statements([]), at.scope), [], Below(at)));
      hide Known, KnownBlock;
    }

    lemma NumberReturned(x: real, at: Place)
      requires at.local != []
      ensures KnownBlock([Return(Some(NumLit(x)))], at, 0) == Some(Completes(Returned(Num(Finite(x))), at.local))
    {
      BlockGoesOn([Return(Some(NumLit(x)))], at, 0);
    }

    /** One number after the other added to a total. */
    function AddedUp(total: Number, items: seq<Value>): Number
      decreases items
    {
      if items == [] then total
      else AddedUp(host.compute("+", total, if items[0].Num? then items[0].number else NaN), items[1..])
    }

    /** `for (let item of items) total += item` adds the elements up from the first to the last. */
    lemma {:induction false} LoopAddsUp(item: string, total: string, items: seq<Value>, at: Place, i: nat)
      requires i <= |items| && at.local != [] && item != total && total in at.local[0] && at.local[0][total].Num?
      requires (forall f :: f in at.scope ==> f in at.frames) && forall j :: 0 <= j < |items| ==> items[j].Num?
      ensures KnownTurns(item, items, ExprStmt(Assign(Ident(total), "+=", Ident(item))), at, i) ==
              Some(Completes(Done, at.local[0 := at.local[0][total :=
                Num(AddedUp(at.local[0][total].number, items[i..]))]]))
      decreases |items| - i
    {
      hide Known, KnownTurns, KnownEnd, KnownName;
      var body := ExprStmt(Assign(Ident(total), "+=", Ident(item)));
      if i == |items| {
        TurnsEnd(item, items, body, at);
        assert items[i..] == [];
        assert at.local[0][total := at.local[0][total]] == at.local[0];
        assert Num(at.local[0][total].number) == at.local[0][total];
        assert at.local[0 := at.local[0]] == at.local;
      } else {
        TurnsGoOn(item, items, body, at, i);
        TurnAdds(item, total, items[i], at);
        var sum := Num(host.compute("+", at.local[0][total].number, items[i].number));
        var next := at.(local := at.local[0 := at.local[0][total := sum]]);
        LoopAddsUp(item, total, items, next, i + 1);
        assert items[i..][0] == items[i] && items[i..][1..] == items[i + 1..];
        assert at.local[0][total := sum][total := Num(AddedUp(sum.number, items[i + 1..]))] ==
               at.local[0][total := Num(AddedUp(sum.number, items[i + 1..]))];
        assert next.local[0 := at.local[0][total := Num(AddedUp(sum.number, items[i + 1..]))]] ==
               at.local[0 := at.local[0][total := Num(AddedUp(sum.number, items[i + 1..]))]];
      }
    }

    lemma TurnAdds(item: string, total: string, v: Value, at: Place)
      requires at.local != [] && item != total && total in at.local[0] && at.local[0][total].Num? && v.Num?
      requires forall f :: f in at.scope ==> f in at.frames
      ensures KnownIn(ExprStmt(Assign(Ident(total), "+=", Ident(item))), map[item := v], at) ==
              Some(Completes(Done, at.local[0 := at.local[0][total :=
                Num(host.compute("+", at.local[0][total].number, v.number))]]))
    {
      hide GlobalPlain, KnownName;
      var inner := Inner(at, map[item := v]);
      NameIs(item, inner);
      NameIs(total, inner);
      assert inner.local[1..] == at.local;
      assert LocalLevel(inner.local, item) == 0 && LocalLevel(inner.local, total) == 1;
      assert Known(Ident(item), inner) == Some(v) && Known(Ident(total), inner) == Some(at.local[0][total]);
      var e := Assign(Ident(total), "+=", Ident(item));
      WithoutLast();
      var sum := Num(host.compute("+", at.local[0][total].number, v.number));
      hide Known;
      assert KnownNew(e, inner) == Some(sum);
      assert KnownStore(e, inner) == Some(Completes(Done, inner.local[1 := inner.local[1][total := sum]]));
      assert inner.local[1 := inner.local[1][total := sum]][1..] == at.local[0 := at.local[0][total := sum]];
    }

    /** An object that was not there before, with these fields. */
    twostate predicate IsNew(keys: seq<string>, new values: seq<Value>, new v: Value)
      reads this`records, records
    {
      v.Obj? && v.record in records && fresh(v.record) && Holds(v.record.fields, keys, values)
    }

    /** A known object is new, unless the step limit is reached. */
    twostate predicate SureObject(new known: Option<Ending>, new r: Outcome)
      reads this, frames, records, lists
    {
      known.Some? && known.value.Makes? ==>
        if r.Ok? then IsNew(known.value.keys, known.value.values, r.value) else steps > MAX_STEPS
    }

    method ExecBlock(body: seq<Stmt>, scope: Scope, ghost at: Place) returns (c: Completion)
      requires Valid() && Sees(scope, Now()) && Shows(at, scope) && Running()
      modifies this, frames, records, lists
      ensures Valid() && Later() && Declares(old(Now()), Now(), scope, DeclaredAll(body))
              && Ends(c, scope, DeclaredAll(body))
      ensures SureEnd(old(KnownBlock(body, at, 0)), scope, |at.local|, c)
      decreases MAX_STEPS + 1 - steps, 2
    {
      hide Valid, Inside, Follows, Declares, Sees, Now, AllInside, MapInside, Has, Known, KnownEnd, KnownBlock, Holds,
        Contents, Apart;
      ghost var start := Now();
      Same(start);
      FollowsDeclares(start, start, scope, {});
      HasNothing(start, scope);
      assert DeclaredAll(body[..0]) == {};
      ghost var known := KnownBlock(body, at, 0);
      ghost var here := at;
      for i := 0 to |body|
        invariant Shows(here, scope) && here == at.(local := here.local) && |here.local| == |at.local|
        invariant known.Some? ==> UntouchedBut(scope, |at.local|) && KnownBlock(body, here, i) == known
        invariant Valid() && Later() && Sees(scope, Now()) && Running()
        invariant Declares(start, Now(), scope, DeclaredAll(body[..i])) && Has(Now(), scope, DeclaredAll(body[..i]))
      {
        c := ExecAt(body, i, scope, here, start);
        here := Current(here, scope);
        if !c.Done? {
          return;
        }
      }
      assert body[..|body|] == body;
      BlockEnds(body, here);
      return Done;
    }

    /** The i-th statement of a block, after those before it. */
    method ExecAt(body: seq<Stmt>, i: nat, scope: Scope, ghost at: Place, ghost start: Shape) returns (c: Completion)
      requires i < |body| && Valid() && Sees(scope, Now()) && Shows(at, scope) && Running()
      requires Declares(start, Now(), scope, DeclaredAll(body[..i])) && Has(Now(), scope, DeclaredAll(body[..i]))
      modifies this, frames, records, lists
      ensures Valid() && Later() && EndsInside(c) && Sees(scope, Now())
      ensures var done := if c.Done? then body[..i + 1] else body;
              Declares(start, Now(), scope, DeclaredAll(done)) && (c.Done? ==> Has(Now(), scope, DeclaredAll(done)))
      ensures var known := old(KnownBlock(body, at, i));
              if c.Done? then
                known.Some? ==>
                  UntouchedBut(scope, |at.local|) && KnownBlock(body, Current(at, scope), i + 1) == known
              else SureEnd(known, scope, |at.local|, c)
      decreases MAX_STEPS + 1 - steps, 1
    {
      hide Valid, Inside, Follows, Declares, Sees, Now, AllInside, MapInside, Has, Known, KnownEnd, KnownBlock, Holds,
        Contents;
      BlockGoesOn(body, at, i);
      ghost var known, before := KnownEnd(body[i], at), Now();
      DeclaredNext(body, i);
      c := Exec(body[i], scope, at);
      ChainDeclares(start, before, Now(), scope, DeclaredAll(body[..i]), Declared(body[i]));
      if c.Done? {
        HasBoth(Now(), scope, DeclaredAll(body[..i]), Declared(body[i]));
      } else {
        MoreDeclared(start, Now(), scope, DeclaredAll(body[..i + 1]), DeclaredAll(body));
      }
      if known.Some? && known.value.Completes? && c.Done? {
        assert Current(at, scope) == at.(local := known.value.local);
        assert KnownBlock(body, at.(local := known.value.local), i + 1) ==
               old(KnownBlock(body, at.(local := known.value.local), i + 1));
      }
    }

    method Exec(s: Stmt, scope: Scope, ghost at: Place) returns (c: Completion)
      requires Valid() && Sees(scope, Now()) && Shows(at, scope) && Running()
      modifies this, frames, records, lists
      ensures Valid() && Later() && Declares(old(Now()), Now(), scope, Declared(s)) && Ends(c, scope, Declared(s))
      ensures SureEnd(old(KnownEnd(s, at)), scope, |at.local|, c)
      decreases MAX_STEPS + 1 - steps, 0
    {
      hide Valid, Inside, Follows, Declares, Sees, Now, AllInside, MapInside, Has, Known, KnownEnd, Holds, Contents,
        Apart;
      ghost var start := Now();
      Same(start);
      FollowsDeclares(start, start, scope, Declared(s));
      var ok := Tick();
      if !ok {
        return Broken;
      }
      assert KnownEnd(s, at) == old(KnownEnd(s, at));
      if s.VarDecl? {
        DeclaredIs(s, at);
        c := ExecDeclaration(s.names, s.inits, scope, at);
      } else {
        c := ExecInside(s, scope, at);
        FollowsDeclares(start, Now(), scope, {});
        if c.Done? {
          Grow(start, Now());
          HasNothing(Now(), scope);
        }
      }
    }

    lemma DeclaredIs(s: Stmt, at: Place)
      requires s.VarDecl? && at.local != []
      ensures KnownEnd(s, at) == KnownDecls(s.names, s.inits, at, 0)
    {
    }

    method ExecDeclaration(names: seq<string>, inits: seq<Option<Node>>, scope: Scope, ghost at: Place)
        returns (c: Completion)
      requires Valid() && Sees(scope, Now()) && Shows(at, scope) && Running()
      modifies this, frames, records, lists
      ensures Valid() && Later() && Declares(old(Now()), Now(), scope, NamesOf(names)) && Ends(c, scope, NamesOf(names))
      ensures SureEnd(old(KnownDecls(names, inits, at, 0)), scope, |at.local|, c)
      decreases MAX_STEPS + 1 - steps, 3
    {
      hide Valid, Inside, Follows, Declares, Sees, Now, AllInside, MapInside, Has, Known, KnownDecls, Sure, Contents,
        Apart;
      ghost var start := Now();
      Same(start);
      FollowsDeclares(start, start, scope, {});
      HasNothing(start, scope);
      assert NamesOf(names[..0]) == {};
      ghost var known := KnownDecls(names, inits, at, 0);
      ghost var here := at;
      for i := 0 to |names|
        invariant Shows(here, scope) && here == at.(local := here.local) && |here.local| == |at.local|
        invariant known.Some? ==> UntouchedBut(scope, |at.local|) && KnownDecls(names, inits, here, i) == known
        invariant Valid() && Later() && Sees(scope, Now()) && Running()
        invariant Declares(start, Now(), scope, NamesOf(names[..i])) && Has(Now(), scope, NamesOf(names[..i]))
      {
        ghost var before := Now();
        NextName(names, i);
        c := DeclareAt(names, inits, i, scope, here);
        here := Current(here, scope);
        ChainDeclares(start, before, Now(), scope, NamesOf(names[..i]), {names[i]});
        if !c.Done? {
          MoreDeclared(start, Now(), scope, NamesOf(names[..i + 1]), NamesOf(names));
          return;
        }
        HasBoth(Now(), scope, NamesOf(names[..i]), {names[i]});
      }
      assert names[..|names|] == names;
      DeclsEnd(names, inits, here);
      return Done;
    }

    lemma DeclsEnd(names: seq<string>, inits: seq<Option<Node>>, at: Place)
      requires at.local != []
      ensures KnownDecls(names, inits, at, |names|) == Some(Completes(Done, at.local))
    {
    }

    lemma DeclsGoOn(names: seq<string>, inits: seq<Option<Node>>, at: Place, i: nat)
      requires at.local != [] && i < |names|
      ensures KnownDecls(names, inits, at, i) ==
              match KnownInitAt(inits, i, at) {
                case None => None
                case Some(v) => KnownDecls(names, inits, at.(local := at.local[0 := at.local[0][names[i] := v]]), i + 1)
              }
    {
    }

    method DeclareAt(names: seq<string>, inits: seq<Option<Node>>, i: nat, scope: Scope, ghost at: Place)
        returns (c: Completion)
      requires i < |names| && Valid() && Sees(scope, Now()) && Shows(at, scope) && Running()
      modifies this, frames, records, lists
      ensures Valid() && Later() && Declares(old(Now()), Now(), scope, {names[i]}) && Ends(c, scope, {names[i]})
      ensures c.Done? || c.Broken?
      ensures var known := old(KnownDecls(names, inits, at, i));
              known.Some? ==>
                && UntouchedBut(scope, |at.local|)
                && if c.Done? then KnownDecls(names, inits, Current(at, scope), i + 1) == known else steps > MAX_STEPS
      decreases MAX_STEPS + 1 - steps, 2, 1
    {
      hide Valid, Inside, Follows, Declares, Sees, Now, AllInside, MapInside, Has, Known, KnownDecls;
      DeclsGoOn(names, inits, at, i);
      ghost var v := KnownInitAt(inits, i, at);
      c := DeclareOne(names[i], if i < |inits| then inits[i] else None, scope, at);
      if v.Some? && c.Done? {
        ghost var next := at.(local := at.local[0 := at.local[0][names[i] := v.value]]);
        assert Current(at, scope) == next;
        assert KnownDecls(names, inits, next, i + 1) == old(KnownDecls(names, inits, next, i + 1));
      }
    }

    method DeclareOne(name: string, init: Option<Node>, scope: Scope, ghost at: Place) returns (c: Completion)
      requires Valid() && Sees(scope, Now()) && Shows(at, scope) && Running()
      modifies this, frames, records, lists
      ensures Valid() && Later() && Declares(old(Now()), Now(), scope, {name}) && Ends(c, scope, {name})
      ensures c.Done? || c.Broken?
      ensures var v := old(KnownInit(init, at));
              v.Some? ==>
                && UntouchedBut(scope, 1)
                && if c.Done? then scope[0].vars == old(scope[0].vars)[name := v.value] else steps > MAX_STEPS
      decreases MAX_STEPS + 1 - steps, 2, 0
    {
      hide Valid, Inside, Follows, Declares, Sees, Now, AllInside, MapInside, Has, Known, SureObject, KeepsFunctions,
        Stated, SureStored, KnownObject, KnownNew, Real;
      ghost var start := Now();
      Same(start);
      var v := Undefined;
      InsideIs(v, start);
      if init.Some? {
        RealKnows(init.value, at, scope);
        var r := Eval(init.value, scope, Real(at, scope));
        FollowsDeclares(start, Now(), scope, {name});
        if r.Failed? {
          return Broken;
        }
        v := r.value;
        Grow(start, Now());
      }
      ghost var before := Now();
      ScopeIn(scope);
      DeclareName(scope, name, v);
      FollowsDeclares(start, before, scope, {});
      assert {} + {name} == {name};
      ChainDeclares(start, before, Now(), scope, {}, {name});
      return Done;
    }

    method DeclareName(scope: Scope, name: string, v: Value)
      requires Valid() && scope != [] && Sees(scope, Now()) && Inside(v, Now())
      modifies scope[0]
      ensures Valid() && Later() && Declares(old(Now()), Now(), scope, {name}) && Has(Now(), scope, {name})
      ensures forall f :: f in scope ==> f.vars == if f == scope[0] then old(f.vars)[name := v] else old(f.vars)
    {
      hide Inside, MapInside, AllInside, Sees, Now, Follows, Declares, Has;
      ghost var before := Now();
      ScopeIn(scope);
      var frame := scope[0];
      MapUpdated(frame.vars, name, v, before);
      frame.vars := frame.vars[name := v];
      Named(name);
      GrowDeclares(before, Now(), scope, {name});
    }

    /** The statements that declare nothing in the scope they run in. */
    method ExecInside(s: Stmt, scope: Scope, ghost at: Place) returns (c: Completion)
      requires !s.VarDecl?
      requires Valid() && Sees(scope, Now()) && Shows(at, scope) && Running()
      modifies this, frames, records, lists
      ensures Valid() && Later() && Follows(old(Now()), Now()) && EndsInside(c)
      ensures s.Return? ==> !c.Done?
      ensures SureEnd(old(KnownEnd(s, at)), scope, |at.local|, c)
      decreases MAX_STEPS + 1 - steps, 5
    {
      hide Valid, Inside, Follows, Sees, Now, AllInside, MapInside, Known, KnownIn, KnownBlock, KnownTurns, Contents,
        Apart;
      ghost var start := Now();
      Same(start);
      match s {
        case Block(body) => c := ExecBody(body, scope, at);
        case ExprStmt(e) => c := ExecExpression(e, scope, at);
        case Return(arg) => c := ExecReturn(arg, scope, at);
        case If(test, cons, alt) => c := ExecIf(test, cons, alt, scope, at);
        case ForOf(name, iter, body) => c := ExecForOf(name, iter, body, scope, at);
      }
    }

    method ExecExpression(e: Node, scope: Scope, ghost at: Place) returns (c: Completion)
      requires Valid() && Sees(scope, Now()) && Shows(at, scope) && Running()
      modifies this, frames, records, lists
      ensures Valid() && Later() && Follows(old(Now()), Now()) && EndsInside(c)
      ensures SureEnd(old(KnownEnd(ExprStmt(e), at)), scope, |at.local|, c)
      decreases MAX_STEPS + 1 - steps, 4
    {
      hide Valid, Inside, Follows, Sees, Now, AllInside, MapInside, Known, KnownNew, Real, Stated, KeepsFunctions,
        SureObject, Level, LocalLevel, KnownObject;
      RealKnows(e, at, scope);
      if e.Assign? && e.target.Ident? {
        LocalIsReal(e.target.name, at, scope);
      }
      ScopeIn(scope);
      var r := Eval(e, scope, Real(at, scope));
      return if r.Ok? then Done else Broken;
    }

    lemma LocalIsReal(name: string, at: Place, scope: Scope)
      requires Shows(at, scope)
      ensures var k := LocalLevel(at.local, name); k < |at.local| ==> Level(scope, name) == k
    {
      var k := LocalLevel(at.local, name);
      if k < |at.local| {
        assert forall j :: 0 <= j <= k ==> at.local[j] == scope[j].vars;
        LevelBehind(scope, k, name);
        assert scope[k..][0] == scope[k];
      }
    }

    method ExecReturn(arg: Option<Node>, scope: Scope, ghost at: Place) returns (c: Completion)
      requires Valid() && Sees(scope, Now()) && Shows(at, scope) && Running()
      modifies this, frames, records, lists
      ensures Valid() && Later() && Follows(old(Now()), Now()) && EndsInside(c) && !c.Done?
      ensures SureEnd(old(KnownEnd(Return(arg), at)), scope, |at.local|, c)
      decreases MAX_STEPS + 1 - steps, 4
    {
      hide Valid, Inside, Follows, Sees, Now, AllInside, MapInside, Known, KnownObject, Real, Apart;
      Same(Now());
      if arg.None? {
        InsideIs(Undefined, Now());
        return Returned(Undefined);
      }
      RealKnows(arg.value, at, scope);
      var r := Eval(arg.value, scope, Real(at, scope));
      return if r.Ok? then Returned(r.value) else Broken;
    }

    method ExecIf(test: Node, cons: Stmt, alt: Option<Stmt>, scope: Scope, ghost at: Place) returns (c: Completion)
      requires Valid() && Sees(scope, Now()) && Shows(at, scope) && Running()
      modifies this, frames, records, lists
      ensures Valid() && Later() && Follows(old(Now()), Now()) && EndsInside(c)
      ensures SureEnd(old(KnownEnd(If(test, cons, alt), at)), scope, |at.local|, c)
      decreases MAX_STEPS + 1 - steps, 4
    {
      hide Valid, Inside, Follows, Sees, Now, AllInside, MapInside, Known, KnownBranch, KnownEnd, Contents, Truthy,
        Apart, Holds;
      ghost var start := Now();
      BranchIs(test, cons, alt, at);
      var r := EvalIn(test, scope, at);
      if r.Failed? {
        return Broken;
      }
      var branch := if Truthy(r.value) then Some(cons) else alt;
      ghost var before, here := Now(), Current(at, scope);
      Grow(start, before);
      assert old(Known(test, at)).Some? ==> KnownBranch(branch, here) == old(KnownBranch(branch, at));
      c := ExecBranch(branch, scope, here);
      Chain(start, before, Now());
    }

    /** A branch runs in a scope of its own; there may be none. */
    method ExecBranch(branch: Option<Stmt>, scope: Scope, ghost at: Place) returns (c: Completion)
      requires Valid() && Sees(scope, Now()) && Shows(at, scope) && Running()
      modifies this, frames, records, lists
      ensures Valid() && Later() && Follows(old(Now()), Now()) && EndsInside(c)
      ensures SureEnd(old(KnownBranch(branch, at)), scope, |at.local|, c)
      decreases MAX_STEPS + 1 - steps, 2
    {
      hide Valid, Inside, Follows, Sees, Now, AllInside, MapInside, Known, KnownIn, Contents, Apart, Holds;
      Same(Now());
      if branch.None? {
        return Done;
      }
      NothingInside(Now());
      c := ExecIn(branch.value, scope, map[], at);
    }

    /** Evaluates an expression of a statement. */
    method EvalIn(n: Node, scope: Scope, ghost at: Place) returns (r: Outcome)
      requires Valid() && Sees(scope, Now()) && Shows(at, scope) && Running()
      modifies this, frames, records, lists
      ensures Valid() && Later() && Follows(old(Now()), Now()) && Stands(r) && old(steps) < steps
      ensures Sure(old(Known(n, at)), r) && SureObject(old(KnownObject(n, at)), r)
      ensures old(Known(n, at)).Some? ==> Current(at, scope) == at
      decreases MAX_STEPS + 1 - steps, 1
    {
      hide Valid, Inside, Follows, Sees, Now, AllInside, MapInside, Known, KnownObject, Holds, Real, SureStored, Stated,
        KeepsFunctions;
      RealKnows(n, at, scope);
      ScopeIn(scope);
      r := Eval(n, scope, Real(at, scope));
    }

    method ExecBody(body: seq<Stmt>, scope: Scope, ghost at: Place) returns (c: Completion)
      requires Valid() && Sees(scope, Now()) && Shows(at, scope) && Running()
      modifies this, frames, records, lists
      ensures Valid() && Later() && Follows(old(Now()), Now()) && EndsInside(c)
      ensures SureEnd(old(Left(KnownBlock(body, Inner(at, map[]), 0))), scope, |at.local|, c)
      decreases MAX_STEPS + 1 - steps, 3
    {
      hide Valid, Inside, Follows, Sees, Now, AllInside, MapInside, Known, Sure, KnownBlock, Holds;
      ghost var start := Now();
      NothingInside(start);
      ScopeIn(scope);
      var inner := Enter(scope, map[]);
      ghost var before := Now();
      InnerShows(at, scope, inner, map[]);
      c := ExecBlock(body, inner, Inner(at, map[]));
      ScopeCloses(start, before, Now(), inner, DeclaredAll(body));
      ContentsBehind(inner, |at.local|);
    }

    lemma InnerShows(at: Place, scope: Scope, inner: Scope, vars: map<string, Value>)
      requires Shows(at, scope) && inner != [] && inner[1..] == scope && inner[0].vars == vars
      requires inner[0] !in at.frames && inner[0] !in scope
      ensures Shows(Inner(at, vars), inner)
    {
      ContentsBehind(inner, |at.local|);
      assert inner == [inner[0]] + scope;
    }

    lemma ContentsBehind(inner: Scope, n: nat)
      requires n < |inner|
      ensures Contents(inner, n + 1) == [inner[0].vars] + Contents(inner[1..], n)
    {
    }

    method ExecIn(body: Stmt, scope: Scope, vars: map<string, Value>, ghost at: Place) returns (c: Completion)
      requires Valid() && Sees(scope, Now()) && Shows(at, scope) && Running() && MapInside(vars, Now())
      modifies this, frames, records, lists
      ensures Valid() && Later() && Follows(old(Now()), Now()) && EndsInside(c)
      ensures SureEnd(old(KnownIn(body, vars, at)), scope, |at.local|, c)
      decreases MAX_STEPS + 1 - steps, 1, 0
    {
      hide Valid, Inside, Follows, Sees, Now, AllInside, MapInside, Known, Sure, KnownEnd, Holds;
      ghost var start := Now();
      ScopeIn(scope);
      var inner := Enter(scope, vars);
      ghost var before := Now();
      InnerShows(at, scope, inner, vars);
      c := Exec(body, inner, Inner(at, vars));
      ScopeCloses(start, before, Now(), inner, Declared(body));
      ContentsBehind(inner, |at.local|);
    }

    method ExecForOf(name: string, iter: Node, body: Stmt, scope: Scope, ghost at: Place) returns (c: Completion)
      requires Valid() && Sees(scope, Now()) && Shows(at, scope) && Running()
      modifies this, frames, records, lists
      ensures Valid() && Later() && Follows(old(Now()), Now()) && EndsInside(c)
      ensures SureEnd(old(KnownEnd(ForOf(name, iter, body), at)), scope, |at.local|, c)
      decreases MAX_STEPS + 1 - steps, 4
    {
      hide Valid, Inside, Follows, Sees, Now, AllInside, MapInside, Known, KnownLoop, KnownEnd, Contents, Apart, Holds;
      ghost var start := Now();
      LoopIs(name, iter, body, at);
      var r := EvalIn(iter, scope, at);
      if r.Failed? {
        return Broken;
      }
      ghost var before, here := Now(), Current(at, scope);
      Grow(start, before);
      assert old(Known(iter, at)).Some? ==>
               KnownLoop(name, r.value, body, here) == old(KnownLoop(name, Known(iter, at).value, body, at));
      c := ExecOver(name, r.value, body, scope, here);
      Chain(start, before, Now());
    }

    lemma LoopIs(name: string, iter: Node, body: Stmt, at: Place)
      requires at.local != []
      ensures var v := Known(iter, at);
              KnownEnd(ForOf(name, iter, body), at) == if v.None? then None else KnownLoop(name, v.value, body, at)
    {
    }

    /** A loop runs over the elements of an array or the characters of a text. */
    method ExecOver(name: string, v: Value, body: Stmt, scope: Scope, ghost at: Place) returns (c: Completion)
      requires Valid() && Sees(scope, Now()) && Shows(at, scope) && Running() && Inside(v, Now())
      modifies this, frames, records, lists
      ensures Valid() && Later() && Follows(old(Now()), Now()) && EndsInside(c)
      ensures SureEnd(old(KnownLoop(name, v, body, at)), scope, |at.local|, c)
      decreases MAX_STEPS + 1 - steps, 4
    {
      hide Valid, Inside, Follows, Sees, Now, AllInside, MapInside, KnownTurns, Contents, Letters, Apart, Holds;
      if v.Arr? {
        InsideIs(v, Now());
        c := ForList(name, v.list, body, scope, at);
      } else if v.Str? {
        c := ForText(name, v.text, body, scope, at);
      } else {
        Same(Now());
        return Broken;
      }
    }

    /** The body may change elements that are still to come, but not how many there are. */
    method ForList(name: string, list: Items, body: Stmt, scope: Scope, ghost at: Place) returns (c: Completion)
      requires Valid() && Sees(scope, Now()) && Shows(at, scope) && Running() && list in Now().lists
      modifies this, frames, records, lists
      ensures Valid() && Later() && Follows(old(Now()), Now()) && EndsInside(c)
      ensures SureEnd(old(KnownTurns(name, list.items, body, at, 0)), scope, |at.local|, c)
      decreases MAX_STEPS + 1 - steps, 3
    {
      hide Valid, Inside, Follows, Sees, Now, AllInside, MapInside, Known, Sure, KnownTurns, KnownIn, Contents, Apart,
        Holds;
      ghost var start := Now();
      Same(start);
      ListIs(list);
      ghost var items := list.items;
      ghost var known := KnownTurns(name, items, body, at, 0);
      ghost var here := at;
      var n := |list.items|;
      for i := 0 to n
        invariant Valid() && Later() && Follows(start, Now()) && Sees(scope, Now()) && Running()
        invariant list in Now().lists && Now().lists[list] == n
        invariant Shows(here, scope) && here == at.(local := here.local) && |here.local| == |at.local|
        invariant known.Some? ==> UntouchedBut(scope, |at.local|) && KnownTurns(name, items, body, here, i) == known
      {
        ghost var before := Now();
        ListIs(list);
        assert known.Some? ==> list.items == items;
        c := ExecItem(name, list, i, if list.items == items then items else list.items, body, scope, here);
        here := Current(here, scope);
        Chain(start, before, Now());
        if !c.Done? {
          return;
        }
      }
      TurnsEnd(name, items, body, here);
      return Done;
    }

    lemma TurnsGoOn(name: string, items: seq<Value>, body: Stmt, at: Place, i: nat)
      requires i < |items|
      ensures KnownTurns(name, items, body, at, i) ==
              match KnownIn(body, map[name := items[i]], at) {
                case Some(Completes(Done, local)) => KnownTurns(name, items, body, at.(local := local), i + 1)
                case other => other
              }
    {
    }

    lemma TurnsEnd(name: string, items: seq<Value>, body: Stmt, at: Place)
      ensures KnownTurns(name, items, body, at, |items|) == Some(Completes(Done, at.local))
    {
    }

    method ExecItem(
        name: string, list: Items, i: nat, ghost items: seq<Value>, body: Stmt, scope: Scope, ghost at: Place)
        returns (c: Completion)
      requires Valid() && Sees(scope, Now()) && Shows(at, scope) && Running()
      requires list in Now().lists && i < Now().lists[list] && i < |list.items| && list.items == items
      modifies this, frames, records, lists
      ensures Valid() && Later() && Follows(old(Now()), Now()) && EndsInside(c)
      ensures var known := old(KnownTurns(name, items, body, at, i));
              if c.Done? then
                known.Some? ==>
                  UntouchedBut(scope, |at.local|) && KnownTurns(name, items, body, Current(at, scope), i + 1) == known
              else SureEnd(known, scope, |at.local|, c)
      decreases MAX_STEPS + 1 - steps, 2
    {
      hide Valid, Inside, Follows, Sees, Now, AllInside, MapInside, Known, Sure, KnownTurns, KnownIn, Contents, Apart,
        Holds, UntouchedBut, SureEnd;
      ListIs(list);
      ItemInside(list, i);
      c := ExecTurn(name, list.items[i], items, i, body, scope, at);
    }

    /** One turn of a loop, in a scope of its own that holds the element. */
    method ExecTurn(
        name: string, item: Value, ghost items: seq<Value>, ghost i: nat, body: Stmt, scope: Scope, ghost at: Place)
        returns (c: Completion)
      requires Valid() && Sees(scope, Now()) && Shows(at, scope) && Running()
      requires i < |items| && items[i] == item && Inside(item, Now())
      modifies this, frames, records, lists
      ensures Valid() && Later() && Follows(old(Now()), Now()) && EndsInside(c)
      ensures var known := old(KnownTurns(name, items, body, at, i));
              if c.Done? then
                known.Some? ==>
                  UntouchedBut(scope, |at.local|) && KnownTurns(name, items, body, Current(at, scope), i + 1) == known
              else SureEnd(known, scope, |at.local|, c)
      decreases MAX_STEPS + 1 - steps, 1, 1
    {
      hide Valid, Inside, Follows, Sees, Now, AllInside, MapInside, Known, Sure, KnownTurns, KnownIn, Contents, Holds;
      Same(Now());
      var ok := Tick();
      if !ok {
        return Broken;
      }
      assert KnownTurns(name, items, body, at, i) == old(KnownTurns(name, items, body, at, i));
      TurnsGoOn(name, items, body, at, i);
      OneInside(name, item, Now());
      ghost var known := KnownIn(body, map[name := item], at);
      label Turn:
      c := ExecIn(body, scope, map[name := item], at);
      if known.Some? && known.value.Completes? && c.Done? {
        assert Current(at, scope) == at.(local := known.value.local);
        assert KnownTurns(name, items, body, at.(local := known.value.local), i + 1) ==
               old@Turn(KnownTurns(name, items, body, at.(local := known.value.local), i + 1));
      }
    }

    method ForText(name: string, text: string, body: Stmt, scope: Scope, ghost at: Place) returns (c: Completion)
      requires Valid() && Sees(scope, Now()) && Shows(at, scope) && Running()
      modifies this, frames, records, lists
      ensures Valid() && Later() && Follows(old(Now()), Now()) && EndsInside(c)
      ensures SureEnd(old(KnownTurns(name, Letters(text), body, at, 0)), scope, |at.local|, c)
      decreases MAX_STEPS + 1 - steps, 2
    {
      hide Valid, Inside, Follows, Sees, Now, AllInside, MapInside, Known, Sure, KnownTurns, KnownIn, Contents, Apart,
        Holds;
      ghost var start := Now();
      Same(start);
      ghost var items := Letters(text);
      ghost var known := KnownTurns(name, items, body, at, 0);
      ghost var here := at;
      for i := 0 to |text|
        invariant Valid() && Later() && Follows(start, Now()) && Sees(scope, Now()) && Running()
        invariant Shows(here, scope) && here == at.(local := here.local) && |here.local| == |at.local|
        invariant known.Some? ==> UntouchedBut(scope, |at.local|) && KnownTurns(name, items, body, here, i) == known
      {
        ghost var before := Now();
        c := ExecLetter(name, text, i, body, scope, here);
        here := Current(here, scope);
        Chain(start, before, Now());
        if !c.Done? {
          return;
        }
      }
      TurnsEnd(name, items, body, here);
      return Done;
    }

    method ExecLetter(name: string, text: string, i: nat, body: Stmt, scope: Scope, ghost at: Place)
        returns (c: Completion)
      requires Valid() && Sees(scope, Now()) && Shows(at, scope) && Running() && i < |text|
      modifies this, frames, records, lists
      ensures Valid() && Later() && Follows(old(Now()), Now()) && EndsInside(c)
      ensures var known := old(KnownTurns(name, Letters(text), body, at, i));
              if c.Done? then
                known.Some? ==>
                  UntouchedBut(scope, |at.local|)
                  && KnownTurns(name, Letters(text), body, Current(at, scope), i + 1) == known
              else SureEnd(known, scope, |at.local|, c)
      decreases MAX_STEPS + 1 - steps, 1, 2
    {
      hide Valid, Inside, Follows, Sees, Now, AllInside, MapInside, Known, Sure, KnownTurns, KnownIn, Contents, Apart,
        Holds, UntouchedBut, SureEnd;
      var item := Str([text[i]]);
      InsideIs(item, Now());
      c := ExecTurn(name, item, Letters(text), i, body, scope, at);
    }

    // -----------------------------------------------------------------------------------------
    // Array methods that call back
    // -----------------------------------------------------------------------------------------

    method CallArray(list: Items, name: string, args: seq<Value>) returns (r: Outcome, ghost visits: seq<nat>)
      requires IsCallbackMethod(name)
      requires Valid() && list in Now().lists && AllInside(args, Now()) && Running()
      modifies this, frames, records, lists
      ensures Valid() && Later() && Follows(old(Now()), Now()) && Stands(r)
      ensures r.Ok? && name in {"map", "filter", "find", "some", "every", "forEach"} ==>
                Visited(visits, |old(calls)|, calls, ArgAt(args, 0))
      ensures r.Ok? && name in {"map", "filter", "forEach"} ==> |visits| == old(|list.items|)
      ensures r.Ok? && name == "map" ==>
                && r.value.Arr? && |r.value.list.items| == |visits|
                && forall j :: 0 <= j < |visits| ==> r.value.list.items[j] == AnswerAt(calls, visits[j])
      ensures r.Ok? && name == "filter" ==> r.value.Arr? && r.value.list.items == Chosen(visits, calls)
      ensures r.Ok? && name == "forEach" ==> r.value == Undefined
      ensures r.Ok? && name == "find" ==>
                && Decided(visits, calls, old(|list.items|), true)
                && r.value == if Settles(visits, calls, true) then ItemAt(calls, visits[|visits| - 1]) else Undefined
      ensures r.Ok? && name in {"some", "every"} ==>
                && Decided(visits, calls, old(|list.items|), name == "some")
                && r.value == Bool(Settles(visits, calls, name == "some") <==> name == "some")
      ensures r.Ok? && name == "reduce" ==>
                var place := if |args| > 1 then 0 else 1;
                && place <= old(|list.items|) && |visits| == old(|list.items|) - place
                && var first := if |args| > 1 then args[1] else old(ArgAt(list.items, 0));
                   Handed(visits, |old(calls)|, calls, ArgAt(args, 0), first, place)
                   && r.value == HandedOn(visits, calls, first, |visits|)
      ensures r.Ok? && name == "sort" ==> r.value.Arr? && multiset(r.value.list.items) == multiset(old(list.items))
      ensures name == "concat" ==>
                var all := old(list.items + Spread(args));
                if |all| > MAX_ARRAY then r == Failed
                else r.Ok? && r.value.Arr? && fresh(r.value.list) && r.value.list.items == all
      ensures name == "push" ==> r == Failed
      decreases MAX_STEPS + 1 - steps, 6, 0
    {
      hide Valid, Inside, Follows, Sees, Now, AllInside, MapInside, Known, Sure, Visited, Handed,
           HandedOn, AnswerAt, ItemAt, Chosen, Spread, Tagged, Sorting.StableSorted;
      ghost var start := Now();
      visits := [];
      if name == "map" {
        r, visits := MapOver(list, args);
      } else if name == "filter" {
        r, visits := FilterOver(list, args);
      } else if name == "find" {
        r, visits := FindIn(list, args);
      } else if name == "some" || name == "every" {
        r, visits := Quantify(list, args, name == "some");
      } else if name == "forEach" {
        r, visits := ForEach(list, args);
      } else if name == "reduce" {
        r, visits := Reduce(list, args);
      } else if name == "sort" {
        r := Sort(list, args);
      } else if name == "concat" {
        r := Concat(list, args);
      } else {
        Same(start);
        r := Failed;
      }
    }

    /** Calls back with an element and its place. */
    method Visit(list: Items, callback: Value, i: nat) returns (item: Value, r: Outcome)
      requires Valid() && list in Now().lists && i < Now().lists[list] && Inside(callback, Now()) && Running()
      modifies this, frames, records, lists
      ensures Valid() && Later() && Follows(old(Now()), Now()) && Stands(r) && Inside(item, Now())
      ensures |old(calls)| < |calls| && calls[|calls| - 1] == Called(callback, [item, PlaceValue(i)], r)
      decreases MAX_STEPS + 1 - steps, 1
    {
      hide Valid, Inside, Follows, Sees, Now, AllInside, MapInside, Known, Sure, SureObject;
      ghost var start := Now();
      NowIs();
      ItemInside(list, i);
      item := list.items[i];
      var position := PlaceValue(i);
      InsideIs(position, start);
      TwoInside(item, position, start);
      r := Invoke(callback, [item, position], Here([]));
      Grow(start, Now());
    }

    method MapOver(list: Items, args: seq<Value>) returns (r: Outcome, ghost visits: seq<nat>)
      requires Valid() && list in Now().lists && AllInside(args, Now()) && Running()
      modifies this, frames, records, lists
      ensures Valid() && Later() && Follows(old(Now()), Now()) && Stands(r)
      ensures r.Ok? ==> r.value.Arr? && |r.value.list.items| == old(|list.items|)
      ensures r.Ok? ==>
                && |visits| == old(|list.items|) && Visited(visits, |old(calls)|, calls, ArgAt(args, 0))
                && forall j :: 0 <= j < |visits| ==> r.value.list.items[j] == AnswerAt(calls, visits[j])
      decreases MAX_STEPS + 1 - steps, 2
    {
      hide Valid, Inside, Follows, Sees, Now, AllInside, MapInside, Known, Sure, Visited, AnswerAt,
           ItemAt, PlaceValue, Chosen;
      ghost var start := Now();
      Same(start);
      NowIs();
      ArgInside(args, 0, start);
      var callback, n := ArgAt(args, 0), |list.items|;
      var values := [];
      NoneInside(start);
      visits := [];
      NotVisited(|calls|, calls, callback);
      for i := 0 to n
        invariant Valid() && Later() && Follows(start, Now()) && Inside(callback, Now()) && Running()
        invariant list in Now().lists && Now().lists[list] == n
        invariant AllInside(values, Now()) && |values| == i
        invariant |visits| == i && Visited(visits, |old(calls)|, calls, callback)
        invariant forall j :: 0 <= j < i ==> values[j] == AnswerAt(calls, visits[j])
      {
        ghost var before, earlier := Now(), calls;
        var item;
        item, r := Visit(list, callback, i);
        Chain(start, before, Now());
        if r.Failed? {
          return;
        }
        OneMoreVisit(visits, |old(calls)|, earlier, calls, callback, item, r);
        visits := visits + [|calls| - 1];
        OneMoreInside(values, r.value, Now());
        values := values + [r.value];
      }
      ghost var before := Now();
      var v := NewList(values);
      Chain(start, before, Now());
      r := Ok(v);
    }

    method FilterOver(list: Items, args: seq<Value>) returns (r: Outcome, ghost visits: seq<nat>)
      requires Valid() && list in Now().lists && AllInside(args, Now()) && Running()
      modifies this, frames, records, lists
      ensures Valid() && Later() && Follows(old(Now()), Now()) && Stands(r)
      ensures r.Ok? ==>
                && |visits| == old(|list.items|) && Visited(visits, |old(calls)|, calls, ArgAt(args, 0))
                && r.value.Arr? && r.value.list.items == Chosen(visits, calls)
      decreases MAX_STEPS + 1 - steps, 2
    {
      hide Valid, Inside, Follows, Sees, Now, AllInside, MapInside, Known, Sure, Visited, AnswerAt,
           ItemAt, PlaceValue, Chosen;
      ghost var start := Now();
      Same(start);
      NowIs();
      ArgInside(args, 0, start);
      var callback, n := ArgAt(args, 0), |list.items|;
      var values := [];
      NoneInside(start);
      visits := [];
      NotVisited(|calls|, calls, callback);
      NothingChosen(calls);
      for i := 0 to n
        invariant Valid() && Later() && Follows(start, Now()) && Inside(callback, Now()) && Running()
        invariant list in Now().lists && Now().lists[list] == n
        invariant AllInside(values, Now())
        invariant |visits| == i && Visited(visits, |old(calls)|, calls, callback)
        invariant values == Chosen(visits, calls)
      {
        ghost var before, earlier := Now(), calls;
        var item;
        item, r := Visit(list, callback, i);
        Chain(start, before, Now());
        if r.Failed? {
          return;
        }
        OneMoreVisit(visits, |old(calls)|, earlier, calls, callback, item, r);
        ChosenAgain(visits, earlier, calls);
        OneMoreChosen(visits, |calls| - 1, calls);
        visits := visits + [|calls| - 1];
        if Truthy(r.value) {
          OneMoreInside(values, item, Now());
          values := values + [item];
        }
      }
      ghost var before := Now();
      var v := NewList(values);
      Chain(start, before, Now());
      r := Ok(v);
    }

    method FindIn(list: Items, args: seq<Value>) returns (r: Outcome, ghost visits: seq<nat>)
      requires Valid() && list in Now().lists && AllInside(args, Now()) && Running()
      modifies this, frames, records, lists
      ensures Valid() && Later() && Follows(old(Now()), Now()) && Stands(r)
      ensures r.Ok? && old(list.items) == [] ==> r.value == Undefined
      ensures r.Ok? ==>
                Visited(visits, |old(calls)|, calls, ArgAt(args, 0))
                && Decided(visits, calls, old(|list.items|), true)
      ensures r.Ok? ==>
                r.value == if Settles(visits, calls, true) then ItemAt(calls, visits[|visits| - 1]) else Undefined
      decreases MAX_STEPS + 1 - steps, 2
    {
      hide Valid, Inside, Follows, Sees, Now, AllInside, MapInside, Known, Sure, Visited, AnswerAt,
           ItemAt, PlaceValue, Chosen;
      ghost var start := Now();
      Same(start);
      NowIs();
      ArgInside(args, 0, start);
      var callback, n := ArgAt(args, 0), |list.items|;
      visits := [];
      NotVisited(|calls|, calls, callback);
      for i := 0 to n
        invariant Valid() && Later() && Follows(start, Now()) && Inside(callback, Now()) && Running()
        invariant list in Now().lists && Now().lists[list] == n
        invariant |visits| == i && Visited(visits, |old(calls)|, calls, callback)
        invariant forall j :: 0 <= j < i ==> !Truthy(AnswerAt(calls, visits[j]))
      {
        ghost var before, earlier := Now(), calls;
        var item;
        item, r := Visit(list, callback, i);
        Chain(start, before, Now());
        if r.Failed? {
          return;
        }
        OneMoreVisit(visits, |old(calls)|, earlier, calls, callback, item, r);
        visits := visits + [|calls| - 1];
        if Truthy(r.value) {
          r := Ok(item);
          return;
        }
      }
      InsideIs(Undefined, Now());
      r := Ok(Undefined);
    }

    method Quantify(list: Items, args: seq<Value>, some: bool) returns (r: Outcome, ghost visits: seq<nat>)
      requires Valid() && list in Now().lists && AllInside(args, Now()) && Running()
      modifies this, frames, records, lists
      ensures Valid() && Later() && Follows(old(Now()), Now()) && Stands(r)
      ensures r.Ok? ==> r.value.Bool?
      ensures r.Ok? && old(list.items) == [] ==> r.value == Bool(!some)
      ensures r.Ok? ==>
                Visited(visits, |old(calls)|, calls, ArgAt(args, 0))
                && Decided(visits, calls, old(|list.items|), some)
      ensures r.Ok? ==> r.value == Bool(if Settles(visits, calls, some) then some else !some)
      decreases MAX_STEPS + 1 - steps, 2
    {
      hide Valid, Inside, Follows, Sees, Now, AllInside, MapInside, Known, Sure, Visited, AnswerAt,
           ItemAt, PlaceValue, Chosen;
      ghost var start := Now();
      Same(start);
      NowIs();
      ArgInside(args, 0, start);
      var callback, n := ArgAt(args, 0), |list.items|;
      InsideIs(Bool(true), start);
      InsideIs(Bool(false), start);
      visits := [];
      NotVisited(|calls|, calls, callback);
      for i := 0 to n
        invariant Valid() && Later() && Follows(start, Now()) && Inside(callback, Now()) && Running()
        invariant list in Now().lists && Now().lists[list] == n
        invariant Inside(Bool(true), Now()) && Inside(Bool(false), Now())
        invariant |visits| == i && Visited(visits, |old(calls)|, calls, callback)
        invariant forall j :: 0 <= j < i ==> Truthy(AnswerAt(calls, visits[j])) != some
      {
        ghost var before, earlier := Now(), calls;
        var item;
        item, r := Visit(list, callback, i);
        Chain(start, before, Now());
        if r.Failed? {
          return;
        }
        OneMoreVisit(visits, |old(calls)|, earlier, calls, callback, item, r);
        visits := visits + [|calls| - 1];
        if Truthy(r.value) == some {
          r := Ok(Bool(some));
          return;
        }
      }
      r := Ok(Bool(!some));
    }

    method ForEach(list: Items, args: seq<Value>) returns (r: Outcome, ghost visits: seq<nat>)
      requires Valid() && list in Now().lists && AllInside(args, Now()) && Running()
      modifies this, frames, records, lists
      ensures Valid() && Later() && Follows(old(Now()), Now()) && Stands(r)
      ensures r.Ok? ==> r.value == Undefined
      ensures r.Ok? ==> |visits| == old(|list.items|) && Visited(visits, |old(calls)|, calls, ArgAt(args, 0))
      decreases MAX_STEPS + 1 - steps, 2
    {
      hide Valid, Inside, Follows, Sees, Now, AllInside, MapInside, Known, Sure, Visited, AnswerAt,
           ItemAt, PlaceValue, Chosen;
      ghost var start := Now();
      Same(start);
      NowIs();
      ArgInside(args, 0, start);
      var callback, n := ArgAt(args, 0), |list.items|;
      visits := [];
      NotVisited(|calls|, calls, callback);
      for i := 0 to n
        invariant Valid() && Later() && Follows(start, Now()) && Inside(callback, Now()) && Running()
        invariant list in Now().lists && Now().lists[list] == n
        invariant |visits| == i && Visited(visits, |old(calls)|, calls, callback)
      {
        ghost var before, earlier := Now(), calls;
        var item;
        item, r := Visit(list, callback, i);
        Chain(start, before, Now());
        if r.Failed? {
          return;
        }
        OneMoreVisit(visits, |old(calls)|, earlier, calls, callback, item, r);
        visits := visits + [|calls| - 1];
      }
      InsideIs(Undefined, Now());
      r := Ok(Undefined);
    }

    method Reduce(list: Items, args: seq<Value>) returns (r: Outcome, ghost visits: seq<nat>)
      requires Valid() && list in Now().lists && AllInside(args, Now()) && Running()
      modifies this, frames, records, lists
      ensures Valid() && Later() && Follows(old(Now()), Now()) && Stands(r)
      ensures r.Ok? && old(list.items) == [] ==> |args| > 1 && r.value == args[1]
      ensures r.Ok? ==>
                var n, place := old(|list.items|), if |args| > 1 then 0 else 1;
                && place <= n && |visits| == n - place
                && var first := if |args| > 1 then args[1] else old(ArgAt(list.items, 0));
                   Handed(visits, |old(calls)|, calls, ArgAt(args, 0), first, place)
                   && r.value == HandedOn(visits, calls, first, |visits|)
      decreases MAX_STEPS + 1 - steps, 2
    {
      hide Valid, Inside, Follows, Sees, Now, AllInside, MapInside, Known, Sure, Handed, HandedOn, PlaceValue;
      ghost var start := Now();
      Same(start);
      NowIs();
      ArgInside(args, 0, start);
      var callback, n := ArgAt(args, 0), |list.items|;
      visits := [];
      if |args| <= 1 && n == 0 {
        r := Failed;
        return;
      }
      var first := if |args| > 1 then 0 else 1;
      var total: Value;
      if |args| > 1 {
        ArgInside(args, 1, start);
        total := args[1];
      } else {
        ItemInside(list, 0);
        total := list.items[0];
      }
      ghost var begun := total;
      NothingHanded(|calls|, calls, callback, begun, first);
      for i := first to n
        invariant Valid() && Later() && Follows(start, Now()) && Inside(callback, Now()) && Running()
        invariant list in Now().lists && Now().lists[list] == n
        invariant Inside(total, Now()) && (i == first && |args| > 1 ==> total == args[1])
        invariant |visits| == i - first && Handed(visits, |old(calls)|, calls, callback, begun, first)
        invariant total == HandedOn(visits, calls, begun, |visits|)
      {
        ghost var before, earlier := Now(), calls;
        r := Fold(list, callback, total, i);
        Chain(start, before, Now());
        if r.Failed? {
          return;
        }
        ghost var item :| calls[|calls| - 1] == Called(callback, [total, item, PlaceValue(i)], r);
        OneMoreHanded(visits, |old(calls)|, earlier, calls, callback, begun, first, item, r);
        visits := visits + [|calls| - 1];
        total := r.value;
      }
      r := Ok(total);
    }

    method Fold(list: Items, callback: Value, total: Value, i: nat) returns (r: Outcome)
      requires Valid() && list in Now().lists && i < Now().lists[list] && Running()
      requires Inside(callback, Now()) && Inside(total, Now())
      modifies this, frames, records, lists
      ensures Valid() && Later() && Follows(old(Now()), Now()) && Stands(r)
      ensures |old(calls)| < |calls|
      ensures exists item :: calls[|calls| - 1] == Called(callback, [total, item, PlaceValue(i)], r)
      decreases MAX_STEPS + 1 - steps, 1
    {
      hide Valid, Inside, Follows, Sees, Now, AllInside, MapInside, Known, Sure, SureObject;
      ghost var start := Now();
      NowIs();
      ItemInside(list, i);
      var position := PlaceValue(i);
      InsideIs(position, start);
      TwoInside(total, list.items[i], start);
      OneMoreInside([total, list.items[i]], position, start);
      ghost var item := list.items[i];
      r := Invoke(callback, [total, list.items[i]] + [position], Here([]));
      assert calls[|calls| - 1] == Called(callback, [total, item, PlaceValue(i)], r);
    }

    /** Sorting leaves the array as it is and answers with a new one, without a comparator by the texts of the
        elements, those with the same text in the order they had. */
    method Sort(list: Items, args: seq<Value>) returns (r: Outcome)
      requires Valid() && list in Now().lists && AllInside(args, Now()) && Running()
      modifies this, frames, records, lists
      ensures Valid() && Later() && Follows(old(Now()), Now()) && Stands(r)
      ensures r.Ok? ==> r.value.Arr? && multiset(r.value.list.items) == multiset(old(list.items))
      ensures r.Ok? && IsNullish(ArgAt(args, 0)) && |old(list.items)| > 1 ==>
                var tagged := old(Tagged(list.items, |list.items|));
                tagged.Some? && r.value.list.items == Untagged(Sorting.StableSorted(tagged.value, ByText))
      decreases MAX_STEPS + 1 - steps, 5
    {
      hide Valid, Inside, Follows, Sees, Now, AllInside, MapInside, Known, Sure, Tagged, Sorting.StableSorted, Untagged;
      ghost var start := Now();
      Same(start);
      PartInside(list, 0, |list.items|);
      ArgInside(args, 0, start);
      assert list.items[0..|list.items|] == list.items;
      var sorted := Rearrange(list.items, ArgAt(args, 0));
      if sorted.None? {
        return Failed;
      }
      ghost var before := Now();
      var v := NewList(sorted.value);
      Chain(start, before, Now());
      return Ok(v);
    }

    /** Whatever pairs a sort with a comparator compares and exchanges, it rearranges the values, and every
        comparison costs a step. */
    method Rearrange(values: seq<Value>, comparator: Value) returns (sorted: Option<seq<Value>>)
      requires Valid() && AllInside(values, Now()) && Inside(comparator, Now()) && Running()
      modifies this, frames, records, lists
      ensures Valid() && Later() && Follows(old(Now()), Now()) && StandsAll(sorted)
      ensures sorted.Some? ==> multiset(sorted.value) == multiset(values) && |sorted.value| == |values|
      ensures sorted.Some? && IsNullish(comparator) && |values| > 1 ==>
                var tagged := old(Tagged(values, |values|));
                tagged.Some? && sorted.value == Untagged(Sorting.StableSorted(tagged.value, ByText))
      decreases MAX_STEPS + 1 - steps, 4
    {
      hide Valid, Inside, Follows, Sees, Now, AllInside, MapInside, Known, Sure, Tagged, Sorting.StableSorted, Untagged;
      ghost var start := Now();
      Same(start);
      if |values| <= 1 {
        return Some(values);
      }
      if IsNullish(comparator) {
        sorted := SortTexts(values);
        return;
      }
      sorted := SortBy(values, comparator);
    }

    /** The first values with their texts. */
    ghost function Tagged(values: seq<Value>, n: nat): Option<seq<(string, Value)>>
      requires n <= |values|
      reads this`lists, lists
    {
      if n == 0 then Some([])
      else
        var before := Tagged(values, n - 1);
        if before.None? || Text(values[n - 1]).None? then None
        else Some(before.value + [(Text(values[n - 1]).value, values[n - 1])])
    }

    method SortTexts(values: seq<Value>) returns (sorted: Option<seq<Value>>)
      requires Valid() && AllInside(values, Now()) && Running()
      modifies this`crashed
      ensures Valid() && Later() && Follows(old(Now()), Now()) && StandsAll(sorted)
      ensures sorted.Some? ==>
                && multiset(sorted.value) == multiset(values) && |sorted.value| == |values|
                && var tagged := Tagged(values, |values|);
                   tagged.Some? && sorted.value == Untagged(Sorting.StableSorted(tagged.value, ByText))
    {
      hide Valid, Inside, Follows, Sees, Now, AllInside, MapInside, Known, Sure, TextOf, Sorting.StableSorted;
      Same(Now());
      var tagged: seq<(string, Value)> := [];
      for i := 0 to |values|
        invariant Valid() && Running() && Tagged(values, i) == Some(tagged)
      {
        ArgInside(values, i, Now());
        var text := ToText(values[i]);
        if text.None? {
          return None;
        }
        tagged := tagged + [(text.value, values[i])];
      }
      TaggedValues(values, |values|);
      assert values[..|values|] == values;
      SortedValues(tagged);
      sorted := Some(Untagged(Sorting.StableSorted(tagged, ByText)));
      PermutedInside(values, sorted.value, Now());
    }

    lemma {:induction false} TaggedValues(values: seq<Value>, n: nat)
      requires n <= |values| && Tagged(values, n).Some?
      ensures Untagged(Tagged(values, n).value) == values[..n]
    {
      if n > 0 {
        TaggedValues(values, n - 1);
        var tagged := Tagged(values, n).value;
        assert tagged[..|tagged| - 1] == Tagged(values, n - 1).value;
      }
    }

    method SortBy(values: seq<Value>, comparator: Value) returns (sorted: Option<seq<Value>>)
      requires Valid() && AllInside(values, Now()) && Inside(comparator, Now()) && Running() && |values| > 1
      modifies this, frames, records, lists
      ensures Valid() && Later() && Follows(old(Now()), Now()) && StandsAll(sorted)
      ensures sorted.Some? ==> multiset(sorted.value) == multiset(values) && |sorted.value| == |values|
      decreases MAX_STEPS + 1 - steps, 3
    {
      hide Valid, Inside, Follows, Sees, Now, AllInside, MapInside, Known, Sure;
      ghost var start := Now();
      Same(start);
      var arranged := values;
      var k := NextQuestion();
      var more := host.truths(k);
      while more
        invariant Valid() && Later() && Follows(start, Now()) && Inside(comparator, Now()) && Running()
        invariant AllInside(arranged, Now()) && multiset(arranged) == multiset(values) && |arranged| == |values|
        decreases MAX_STEPS - steps
      {
        ghost var before := Now();
        sorted := CompareAndExchange(arranged, comparator);
        Chain(start, before, Now());
        if sorted.None? {
          return;
        }
        arranged := sorted.value;
        k := NextQuestion();
        more := host.truths(k);
      }
      return Some(arranged);
    }

    method CompareAndExchange(values: seq<Value>, comparator: Value) returns (sorted: Option<seq<Value>>)
      requires Valid() && values != [] && AllInside(values, Now()) && Inside(comparator, Now()) && Running()
      modifies this, frames, records, lists
      ensures Valid() && Later() && Follows(old(Now()), Now()) && StandsAll(sorted) && old(steps) < steps
      ensures sorted.Some? ==> multiset(sorted.value) == multiset(values) && |sorted.value| == |values|
      decreases MAX_STEPS + 1 - steps, 2
    {
      hide Valid, Inside, Follows, Sees, Now, AllInside, MapInside, Known, Sure;
      ghost var start := Now();
      var compared := Compare(values, comparator);
      Grow(start, Now());
      if !compared {
        return None;
      }
      var arranged := Exchange(values);
      return Some(arranged);
    }

    method Compare(values: seq<Value>, comparator: Value) returns (ok: bool)
      requires Valid() && values != [] && AllInside(values, Now()) && Inside(comparator, Now()) && Running()
      modifies this, frames, records, lists
      ensures Valid() && Later() && Follows(old(Now()), Now()) && old(steps) < steps
      ensures steps <= MAX_STEPS + 1 && (ok ==> Running())
      decreases MAX_STEPS + 1 - steps, 1
    {
      hide Valid, Inside, Follows, Sees, Now, AllInside, MapInside, Known, Sure, SureObject;
      ghost var start := Now();
      var left := NextQuestion();
      var right := NextQuestion();
      var i, j := host.counts(left) % |values|, host.counts(right) % |values|;
      ArgInside(values, i, start);
      ArgInside(values, j, start);
      TwoInside(values[i], values[j], start);
      var r := Invoke(comparator, [values[i], values[j]], Here([]));
      if r.Failed? {
        return false;
      }
      return true;
    }

    method Exchange(values: seq<Value>) returns (exchanged: seq<Value>)
      requires AllInside(values, Now())
      modifies this`asked
      ensures AllInside(exchanged, Now()) && multiset(exchanged) == multiset(values) && |exchanged| == |values|
    {
      hide Inside, Now;
      exchanged := values;
      var k := NextQuestion();
      for round := 0 to host.counts(k)
        invariant AllInside(exchanged, Now()) && multiset(exchanged) == multiset(values) && |exchanged| == |values|
      {
        if exchanged != [] {
          var left := NextQuestion();
          var right := NextQuestion();
          var i, j := host.counts(left) % |exchanged|, host.counts(right) % |exchanged|;
          exchanged := exchanged[i := exchanged[j]][j := exchanged[i]];
        }
      }
    }

    /** Arguments one after the other, arrays by their elements. */
    function Spread(args: seq<Value>): seq<Value>
      reads set v | v in args && v.Arr? :: v.list
    {
      if args == [] then []
      else
        var last := args[|args| - 1];
        Spread(args[..|args| - 1]) + if last.Arr? then last.list.items else [last]
    }

    lemma NothingSpread(args: seq<Value>)
      ensures Spread(args[..0]) == []
    {
    }

    lemma OneMoreSpread(args: seq<Value>, i: nat)
      requires i < |args|
      ensures Spread(args[..i + 1]) == Spread(args[..i]) + if args[i].Arr? then args[i].list.items else [args[i]]
    {
      assert args[..i + 1][..i] == args[..i];
    }

    method Concat(list: Items, args: seq<Value>) returns (r: Outcome)
      requires Valid() && list in Now().lists && AllInside(args, Now()) && Running()
      modifies this, frames, records, lists
      ensures Valid() && Later() && Follows(old(Now()), Now()) && Stands(r)
      ensures var all := old(list.items + Spread(args));
              if |all| > MAX_ARRAY then r == Failed
              else r.Ok? && r.value.Arr? && fresh(r.value.list) && r.value.list.items == all
      decreases MAX_STEPS + 1 - steps, 2
    {
      hide Valid, Inside, Follows, Sees, Now, AllInside, MapInside, Known, Sure, Spread;
      ghost var start := Now();
      Same(start);
      PartInside(list, 0, |list.items|);
      NothingSpread(args);
      assert list.items[0..|list.items|] == list.items + [];
      var all := list.items[0..|list.items|];
      for i := 0 to |args|
        invariant AllInside(all, start) && all == list.items + Spread(args[..i])
        modifies {}
      {
        ArgInside(args, i, start);
        OneMoreSpread(args, i);
        InsideIs(args[i], start);
        if args[i].Arr? {
          PartInside(args[i].list, 0, |args[i].list.items|);
          MoreInside(all, args[i].list.items[0..|args[i].list.items|], start);
          all := all + args[i].list.items[0..|args[i].list.items|];
        } else {
          OneMoreInside(all, args[i], start);
          all := all + [args[i]];
        }
      }
      assert args[..|args|] == args;
      assert all == old(list.items + Spread(args));
      if |all| > MAX_ARRAY {
        return Failed;
      }
      var v := NewList(all);
      return Ok(v);
    }

    lemma NothingMade()
      requires frames == {} && records == {} && lists == {} && !crashed
      ensures Valid() && Sees([], Now())
    {
    }

    lemma RecordInside(v: Value)
      requires v.Obj? && Inside(v, Now())
      ensures v.record in records
    {
    }

    /** A second run may go on with what a first one made. */
    lemma TakesOver(other: Interp, config: Record)
      requires other.Valid() && frames == other.frames && records == other.records && lists == other.lists
      requires age == other.age && stored == other.stored && !crashed && config in records
      ensures Valid() && MapInside(config.fields, Now())
    {
      assert Now() == other.Now();
    }

    lemma FieldIsInside(record: Record, v: Value)
      requires MapInside(record.fields, Now()) && v in record.fields.Values
      ensures Inside(v, Now())
    {
    }

    /** Makes an array of one number and puts it in the place of the number. */
    method HoldItself() returns (a: Value)
      requires Valid() && host.index("0") == Some(0)
      modifies this`lists, this`age, this`stored, lists
      ensures Valid() && Inside(a, Now()) && a.Arr? && a.list in lists && Arr(a.list) in a.list.items
      ensures steps == old(steps) && crashed == old(crashed)
    {
      hide Valid, Inside, Follows, Sees, Now, AllInside, MapInside;
      var zero := Num(Finite(0.0));
      InsideIs(zero, Now());
      NoneInside(Now());
      OneMoreInside([], zero, Now());
      a := NewList([] + [zero]);
      ghost var before := Now();
      NowIs();
      InsideIs(a, before);
      SetItem(a.list, 0, a);
      Grow(before, Now());
      assert a.list.items[0] == a;
    }

    /** The variables are there: parts of the document as what mirrors them. */
    ghost predicate Agrees(env: map<string, Seen>, at: Place)
      reads this`records, this`lists, at.frames, records, lists
    {
      forall name :: name in env ==> KnownName(name, at).Some? && IsSeen(KnownName(name, at).value, env[name])
    }

    ghost predicate IsSeen(v: Value, seen: Seen)
      reads this`records, this`lists, records, lists
    {
      match seen
      case Part(json) => Mirrors(v, json, records, lists)
      case Plain(value) => v == value
    }

    lemma {:induction false} SeenIsKnown(e: Node, env: map<string, Seen>, at: Place)
      requires Agrees(env, at) && SeenAt(e, env).Some?
      ensures Known(e, at).Some? && IsSeen(Known(e, at).value, SeenAt(e, env).value)
      decreases e
    {
      hide Mirrors, KnownName;
      match e
      case Member(base, name, _) =>
        SeenIsKnown(base, env, at);
        FieldIsMirrored(Known(base, at).value, SeenAt(base, env).value.json, name);
      case Element(base, StrLit(name), _) =>
        SeenIsKnown(base, env, at);
        FieldIsMirrored(Known(base, at).value, SeenAt(base, env).value.json, name);
        assert Known(StrLit(name), at) == Some(Str(name));
      case _ =>
    }

    lemma FieldIsMirrored(v: Value, json: Json, name: string)
      requires json.JsonFields? && Mirrors(v, json, records, lists)
      ensures v.Obj? && v.record in records
      ensures var field := FieldAt(json.keys, json.values, name);
              if field.None? then PropertyOf(v, name) == Undefined
              else Mirrors(PropertyOf(v, name), field.value, records, lists)
    {
      FieldAtIs(json.keys, json.values, name);
    }

    lemma ScalarIsKnown(e: Node, env: map<string, Seen>, at: Place)
      requires Agrees(env, at) && ScalarOf(SeenAt(e, env)).Some?
      ensures Known(e, at) == ScalarOf(SeenAt(e, env))
    {
      hide Known, KnownName;
      SeenIsKnown(e, env, at);
    }

    lemma LiteralIsKnown(e: Node, at: Place)
      requires e.NumLit? || e.StrLit? || e.BoolLit? || e.NullLit? || e.UndefLit?
      ensures forall env :: Known(e, at) == Told(host, e, env)
    {
    }

    lemma NumbersAreMade(op: string, a: Value, b: Value)
      requires NumbersMake(host, op, a, b).Some?
      ensures BinaryOf(op, a, b) == NumbersMake(host, op, a, b)
    {
      hide TextOf, Ordered;
    }

    /** What is told of a document is what reading its mirror comes to. */
    lemma {:induction false} ToldIsKnown(e: Node, env: map<string, Seen>, at: Place)
      requires Agrees(env, at) && Told(host, e, env).Some?
      ensures Known(e, at) == Told(host, e, env)
      decreases e
    {
      hide Known, Agrees, BinaryOf, NumbersMake, UnaryOf, ScalarOf, SeenAt;
      match e
      case Unary(op, arg) =>
        KnownUnary(op, arg, at);
        ToldIsKnown(arg, env, at);
      case Logical(op, left, right) =>
        KnownLogical(op, left, right, at);
        ToldIsKnown(left, env, at);
        if !Decides(op, Told(host, left, env).value) {
          ToldIsKnown(right, env, at);
        }
      case Cond(test, cons, alt) =>
        KnownCond(test, cons, alt, at);
        ToldIsKnown(test, env, at);
        ToldIsKnown(if Truthy(Told(host, test, env).value) then cons else alt, env, at);
      case Binary(op, left, right) =>
        KnownBinary(op, left, right, at);
        ToldIsKnown(left, env, at);
        ToldIsKnown(right, env, at);
        NumbersAreMade(op, Known(left, at).value, Known(right, at).value);
      case _ =>
        if e.NumLit? || e.StrLit? || e.BoolLit? || e.NullLit? || e.UndefLit? {
          LiteralIsKnown(e, at);
        } else {
          ScalarIsKnown(e, env, at);
        }
    }

    /** Statements that go on end so and leave the outer scopes alone; those that give an object make it. */
    ghost predicate Accords(told: Telling, ending: Option<Ending>, at: Place)
      reads this`records, this`lists, at.frames, records, lists
    {
      match told
      case Gives(keys, values) => ending == Some(Makes(keys, values))
      case Goes(env) =>
        && ending.Some? && ending.value.Completes? && ending.value.end == Done
        && |ending.value.local| == |at.local| > 0 && ending.value.local[1..] == at.local[1..]
        && Agrees(env, at.(local := ending.value.local))
    }

    lemma {:induction false} DeclsAreTold(
        names: seq<string>, inits: seq<Option<Node>>, env: map<string, Seen>, at: Place, i: nat)
      requires at.local != [] && i <= |names| && Agrees(env, at) && SeesAll(at)
      requires ToldDecls(host, names, inits, env, i).Some?
      ensures Accords(ToldDecls(host, names, inits, env, i).value, KnownDecls(names, inits, at, i), at)
      decreases |names| - i
    {
      hide Told, Known, SeenAt, IsSeen, KnownInitAt;
      if i < |names| {
        var seen := SeenInit(host, inits, i, env).value;
        InitIsSeen(inits, env, at, i);
        var v := KnownInitAt(inits, i, at).value;
        var next := at.(local := at.local[0 := at.local[0][names[i] := v]]);
        OneMoreAgrees(env, at, names[i], v, seen);
        DeclsAreTold(names, inits, env[names[i] := seen], next, i + 1);
        assert next.local[1..] == at.local[1..];
      }
    }

    ghost predicate SeesAll(at: Place) {
      forall f :: f in at.scope ==> f in at.frames
    }

    lemma InitIsSeen(inits: seq<Option<Node>>, env: map<string, Seen>, at: Place, i: nat)
      requires Agrees(env, at) && SeenInit(host, inits, i, env).Some?
      ensures KnownInitAt(inits, i, at).Some?
      ensures IsSeen(KnownInitAt(inits, i, at).value, SeenInit(host, inits, i, env).value)
    {
      hide Told, Known, Agrees, SeenAt;
      if i < |inits| && inits[i].Some? {
        var e := inits[i].value;
        if SeenAt(e, env).Some? {
          SeenIsKnown(e, env, at);
        } else {
          ToldIsKnown(e, env, at);
        }
      }
    }

    lemma OneMoreAgrees(env: map<string, Seen>, at: Place, name: string, v: Value, seen: Seen)
      requires at.local != [] && Agrees(env, at) && SeesAll(at) && IsSeen(v, seen)
      ensures Agrees(env[name := seen], at.(local := at.local[0 := at.local[0][name := v]]))
    {
      hide IsSeen, GlobalPlain, KnownName;
      var next := at.(local := at.local[0 := at.local[0][name := v]]);
      forall other | other in env[name := seen]
        ensures KnownName(other, next) == if other == name then Some(v) else KnownName(other, at)
      {
        NameIs(other, at);
        NameIs(other, next);
        assert next.local[1..] == at.local[1..];
      }
    }

    lemma InnerAgrees(env: map<string, Seen>, at: Place)
      requires Agrees(env, at)
      ensures Agrees(env, Inner(at, map[]))
    {
      hide IsSeen, GlobalPlain;
      assert ([map[]] + at.local)[1..] == at.local;
      forall name | name in env ensures KnownName(name, Inner(at, map[])) == KnownName(name, at) {
        assert LocalLevel([map[]] + at.local, name) == 1 + LocalLevel(at.local, name);
      }
    }

    lemma {:induction false} StmtIsTold(s: Stmt, env: map<string, Seen>, at: Place)
      requires at.local != [] && Agrees(env, at) && SeesAll(at) && ToldStmt(host, s, env).Some?
      ensures Accords(ToldStmt(host, s, env).value, KnownEnd(s, at), at)
      decreases s, 0
    {
      hide Told, Known, KnownName, Mirrors, IsSeen, Agrees, KnownBlock, KnownDecls, ToldDecls, KnownObject;
      match s
      case VarDecl(names, inits) => DeclsAreTold(names, inits, env, at, 0);
      case Return(Some(ObjLit(keys, items))) => ObjectIsTold(ObjLit(keys, items), env, at);
      case If(test, cons, alt) =>
        ToldIsKnown(test, env, at);
        if Truthy(Told(host, test, env).value) {
          InnerIsTold(cons, env, at);
        } else if alt.Some? {
          InnerIsTold(alt.value, env, at);
        }
      case Block(body) =>
        InnerAgrees(env, at);
        BodyIsTold(body, env, Inner(at, map[]), 0);
      case _ =>
    }

    lemma {:induction false} InnerIsTold(s: Stmt, env: map<string, Seen>, at: Place)
      requires at.local != [] && Agrees(env, at) && SeesAll(at) && ToldStmt(host, s, env).Some?
      ensures Accords(Outside(ToldStmt(host, s, env), env).value, KnownIn(s, map[], at), at)
      decreases s, 1
    {
      hide Told, Known, KnownName, Mirrors, IsSeen, Agrees, KnownEnd, ToldStmt;
      InnerAgrees(env, at);
      StmtIsTold(s, env, Inner(at, map[]));
      assert at.(local := at.local) == at;
    }

    lemma {:induction false} BodyIsTold(body: seq<Stmt>, env: map<string, Seen>, at: Place, i: nat)
      requires at.local != [] && i <= |body| && Agrees(env, at) && SeesAll(at) && ToldBody(host, body, env, i).Some?
      ensures Accords(ToldBody(host, body, env, i).value, KnownBlock(body, at, i), at)
      decreases body, |body| - i
    {
      hide Told, Known, KnownName, Mirrors, IsSeen, Agrees, KnownEnd, ToldStmt;
      if i < |body| {
        StmtIsTold(body[i], env, at);
        match ToldStmt(host, body[i], env)
        case Some(Goes(next)) =>
          BodyIsTold(body, next, at.(local := KnownEnd(body[i], at).value.local), i + 1);
        case _ =>
      }
    }

    lemma ObjectIsTold(n: Node, env: map<string, Seen>, at: Place)
      requires n.ObjLit? && Agrees(env, at) && ToldAll(host, n.values, env).Some? && |n.keys| == |n.values|
      ensures KnownObject(n, at) == Some(Makes(n.keys, ToldAll(host, n.values, env).value))
    {
      hide Known, Agrees, Told;
      var values := ToldAll(host, n.values, env).value;
      forall i | 0 <= i < |n.values| ensures Known(n.values[i], at) == Some(values[i]) {
        ToldIsKnown(n.values[i], env, at);
      }
      assert KnownArgs(KnownEach(n.values, at)).value == values;
    }

    /** What a function tells of a document is the object that calling it makes. */
    lemma ToldIsMade(fn: Value, document: Json, v: Value, at: Place)
      requires fn.Closure? && Mirrors(v, document, records, lists) && ToldBy(host, fn.params, fn.code, document).Some?
      requires forall f :: f in fn.scope ==> f in at.frames
      ensures var told := ToldBy(host, fn.params, fn.code, document).value;
              KnownMade(fn, [v], at) == Some(Makes(told.0, told.1))
    {
      hide Known, Mirrors, KnownName, Told, KnownObject, KnownBlock, KnownEnd, ToldBody;
      var inside := InCall(fn, [v], at);
      var env := map[fn.params[0] := Part(document)];
      ParameterIsBound(fn.params, [v], 0);
      BoundIsKnown(fn.params[0], inside);
      assert Agrees(env, inside);
      match fn.code
      case Result(e) => ObjectIsTold(e, env, inside);
      case Statements(body) => BodyIsTold(body, env, inside, 0);
    }

    lemma BoundIsKnown(name: string, at: Place)
      requires at.local != [] && name in at.local[0] && forall f :: f in at.scope ==> f in at.frames
      ensures KnownName(name, at) == Some(at.local[0][name])
    {
    }

    lemma ScopeOfClosure(fn: Value)
      requires fn.Closure? && Inside(fn, Now())
      ensures forall f :: f in fn.scope ==> f in frames
    {
    }

    /** Calls a function with a value that mirrors a document; it must answer with an object. */
    method Answer(fn: Value, document: Json) returns (answer: Option<Record>)
      requires Valid() && Inside(fn, Now()) && Running()
      modifies this, frames, records, lists
      ensures Valid() && Later() && Follows(old(Now()), Now())
      ensures steps <= MAX_STEPS + 1 && (answer.Some? ==> Running() && answer.value in records)
      ensures fn.Closure? ==> Answers(ToldBy(host, fn.params, fn.code, document), answer, steps)
    {
      hide Valid, Inside, Follows, Sees, Now, AllInside, MapInside, Known, Sure, Mirrors, ToldBy, KnownMade, Holds;
      ghost var start := Now();
      var v := Build(document);
      ghost var before := Now();
      Grow(start, before);
      NoneInside(before);
      OneMoreInside([], v, before);
      ghost var at := Place([], [], frames, 1);
      if fn.Closure? && ToldBy(host, fn.params, fn.code, document).Some? {
        ScopeOfClosure(fn);
        ToldIsMade(fn, document, v, Below(at));
        assert [] + [v] == [v];
      }
      var r := Invoke(fn, [] + [v], at);
      Chain(start, before, Now());
      if r.Failed? || !r.value.Obj? {
        return None;
      }
      RecordInside(r.value);
      return Some(r.value.record);
    }
  }

  /** An answer has exactly the told fields; there is none only when the step limit is reached. */
  ghost predicate Answers(told: Option<(seq<string>, seq<Value>)>, answer: Option<Record>, steps: nat)
    reads if answer.Some? then {answer.value} else {}
  {
    told.Some? ==> if answer.Some? then Holds(answer.value.fields, told.value.0, told.value.1) else steps > MAX_STEPS
  }

  // ---------------------------------------------------------------------------------------------
  // Whole runs.  Neither may change anything that was there before it.
  // ---------------------------------------------------------------------------------------------

  /** A run that has made nothing but an empty scope. */
  method Start(host: Host) returns (interp: Interp, scope: Scope)
    ensures fresh(interp) && fresh(interp.frames) && fresh(interp.records) && fresh(interp.lists)
    ensures interp.Valid() && Sees(scope, interp.Now()) && interp.steps == 0 && interp.Running()
    ensures interp.host == host
  {
    interp := new Interp(host, {}, {}, {}, map[], false);
    interp.NothingMade();
    NothingInside(interp.Now());
    hide Interp.Valid, Inside, Follows, Sees, Interp.Now, MapInside;
    scope := interp.Enter([], map[]);
  }

  lemma ExtractorIsKept(fields: map<string, Value>, ast: Node, scope: Scope)
    requires ExtractorIn(ast).Some? && KeepsFunctions(fields, ast.keys, ast.values, scope)
    ensures KeptExtractor(fields, ast)
  {
  }

  lemma NoExtractor(fields: map<string, Value>, ast: Node)
    requires ExtractorIn(ast).None?
    ensures KeptExtractor(fields, ast)
  {
  }

  /** The field that is written as the extractor holds that function. */
  ghost predicate KeptExtractor(fields: map<string, Value>, ast: Node) {
    ExtractorIn(ast).Some? ==>
      && "extractor" in fields && fields["extractor"].Closure?
      && FunctionOf(ast.values[ExtractorIn(ast).value], fields["extractor"].scope) == Some(fields["extractor"])
  }

  /** Evaluates a script in a scope of its own; it must come to an object. */
  method EvalConfig(host: Host, ast: Node) returns (config: Option<Record>, interp: Interp)
    ensures fresh(interp) && fresh(interp.frames) && fresh(interp.records) && fresh(interp.lists)
    ensures interp.Valid() && interp.steps <= MAX_STEPS + 1 == 200_001
    ensures interp.host == host && (config.Some? ==> config.value in interp.records && interp.Running())
    ensures interp.crashed ==>
              config.None? && (interp.stored || |interp.records| + |interp.lists| > host.stack)
    ensures config.Some? && ast.ObjLit? ==> config.value.fields.Keys == NamesOf(ast.keys)
    ensures config.Some? ==> KeptExtractor(config.value.fields, ast)
    ensures Stated(ast) && ast.ObjLit? ==> config.Some? || interp.steps > MAX_STEPS
  {
    hide Interp.Valid, Inside, Follows, Sees, Interp.Now, Interp.Known, Interp.Sure, Interp.Contained, Interp.Aged,
      KeptExtractor, ExtractorIn, KeepsFunctions, FunctionOf, Interp.SureObject;
    var scope;
    interp, scope := Start(host);
    var r := interp.Eval(ast, scope, interp.Here(scope));
    interp.ContainedIs();
    if r.Failed? || !r.value.Obj? {
      return None, interp;
    }
    interp.RecordInside(r.value);
    if ExtractorIn(ast).Some? {
      ExtractorIsKept(r.value.record.fields, ast, scope);
    } else {
      NoExtractor(r.value.record.fields, ast);
    }
    return Some(r.value.record), interp;
  }

  /** Calls the extractor of a script on the response of an upstream; it must answer with an object. */
  method Extract(evaluating: Host, extracting: Host, ast: Node, response: Json)
      returns (answer: Option<Record>, steps: nat, crashed: bool)
    ensures answer.Some? ==> fresh(answer.value) && !crashed
    ensures steps <= 2 * (MAX_STEPS + 1) && (answer.Some? ==> steps <= 2 * MAX_STEPS)
    ensures Answers(Extracted(extracting, ast, response), answer, steps)
  {
    hide ToldBy, Stated, Holds;
    var config, first := EvalConfig(evaluating, ast);
    steps, crashed := first.steps, first.crashed;
    if config.None? || "extractor" !in config.value.fields || !config.value.fields["extractor"].Closure? {
      return None, steps, crashed;
    }
    var more: nat;
    answer, more, crashed := Resume(first, config.value, config.value.fields["extractor"], extracting, response);
    steps := steps + more;
  }

  /** A second run goes on with what a first one made. */
  method GoOn(first: Interp, config: Record, extractor: Value, host: Host) returns (second: Interp)
    requires first.Valid() && config in first.records && extractor in config.fields.Values
    ensures fresh(second) && second.host == host && second.steps == 0 && second.Running()
    ensures second.frames == first.frames && second.records == first.records && second.lists == first.lists
    ensures second.Valid() && Inside(extractor, second.Now())
  {
    second := new Interp(host, first.frames, first.records, first.lists, first.age, first.stored);
    second.TakesOver(first, config);
    hide Interp.Valid, Inside, Interp.Now, MapInside;
    second.FieldIsInside(config, extractor);
  }

  method Resume(first: Interp, config: Record, extractor: Value, host: Host, response: Json)
      returns (answer: Option<Record>, steps: nat, crashed: bool)
    requires first.Valid() && config in first.records && extractor in config.fields.Values
    modifies first.frames, first.records, first.lists
    ensures answer.Some? ==> (answer.value in old(first.records) || fresh(answer.value)) && !crashed
    ensures steps <= MAX_STEPS + 1 && (answer.Some? ==> steps <= MAX_STEPS)
    ensures extractor.Closure? ==> Answers(ToldBy(host, extractor.params, extractor.code, response), answer, steps)
  {
    hide Interp.Valid, Inside, Follows, Sees, Interp.Now, MapInside, Answers, ToldBy;
    var second := GoOn(first, config, extractor, host);
    answer := second.Answer(extractor, response);
    steps, crashed := second.steps, second.crashed;
  }

  // ---------------------------------------------------------------------------------------------
  // Values that contain themselves
  // ---------------------------------------------------------------------------------------------

  /** `const a = [0]; a[0] = a; a + ""` uses up every stack, however deep. */
  method TextOfItself(host: Host) returns (r: Outcome, crashed: bool)
    requires host.index("0") == Some(0)
    ensures r == Failed && crashed
  {
    var interp, scope := Start(host);
    hide Interp.Valid, Interp.Now, Inside, AllInside, Follows, Sees, TextOf;
    var a := interp.HoldItself();
    InsideIs(Str(""), interp.Now());
    SelfContained(host, a.list, false, interp.records, interp.lists);
    r := interp.Arithmetic("+", a, Str(""));
    crashed := interp.crashed;
  }

  /** `JSON.stringify` does so too. */
  method JsonOfItself(host: Host) returns (r: Outcome, crashed: bool)
    requires host.index("0") == Some(0)
    ensures r == Failed && crashed
  {
    var interp, scope := Start(host);
    hide Interp.Valid, Interp.Now, Inside, AllInside, Follows, Sees, Bounded, Exported;
    var a := interp.HoldItself();
    SelfContained(host, a.list, true, interp.records, interp.lists);
    r := interp.WriteJson(a);
    crashed := interp.crashed;
  }
}
