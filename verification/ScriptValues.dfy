/** Values of balance scripts and their conversions (internal/script/eval.go, internal/script/builtins.go).

    Turning an array into text goes down into its elements, and exporting a value for JSON goes down into objects
    too.  Neither looks out for values that contain themselves: both go on until the stack is used up, and then the
    program ends.  When that happens is the subject of the second half. */
module ScriptValues {
  import opened Lists
  import opened ScriptGrammar
  import Sorting

  datatype Number = NaN | Finite(value: real) | Infinite(negative: bool)

  /** Scopes from the inside out. */
  type Scope = seq<Frame>

  datatype Code = Statements(body: seq<Stmt>) | Result(expr: Node)

  /** What a built-in function belongs to. */
  datatype Owner = NoOwner | OfText(text: string) | OfNumber(number: Number) | OfArray(list: Items)

  datatype Value =
    | Undefined
    | Null
    | Bool(truth: bool)
    | Num(number: Number)
    | Str(text: string)
    | Obj(record: Record)
    | Arr(list: Items)
    | Closure(params: seq<string>, code: Code, scope: Scope)
    | Builtin(name: string, owner: Owner)

  class Frame {
    var vars: map<string, Value>

    constructor (vars: map<string, Value>)
      ensures this.vars == vars
    {
      this.vars := vars;
    }
  }

  class Record {
    var fields: map<string, Value>

    constructor (fields: map<string, Value>)
      ensures this.fields == fields
    {
      this.fields := fields;
    }
  }

  class Items {
    var items: seq<Value>

    constructor (items: seq<Value>)
      ensures this.items == items
    {
      this.items := items;
    }
  }

  /** Decoded JSON. */
  datatype Json =
    | JsonNull
    | JsonBool(truth: bool)
    | JsonNumber(number: Number)
    | JsonText(text: string)
    | JsonList(items: seq<Json>)
    | JsonFields(keys: seq<string>, values: seq<Json>)

  datatype Plain = PlainBool(truth: bool) | PlainNumber(number: Number) | PlainText(text: string)

  /** What the evaluator leaves to the language it is written in: how deep its stack is; numbers as texts and texts
      as numbers, arithmetic and rounding; searching, replacing, splitting and changing the case of texts; JSON as
      text.  All of these are functions of what they are given.  Whether two functions are the same one, and which
      elements a sort exchanges after asking a comparator, is answered in the order of the questions. */
  datatype Host = Host(
    stack: nat, show: Number -> string, read: string -> Number, compute: (string, Number, Number) -> Number,
    math: (string, seq<Number>) -> Number, integer: Number -> int, fixed: (Number, int) -> string,
    leading: (string, bool) -> Number, change: (string, string) -> string,
    seek: (string, string, string) -> Plain, swap: (string, string, string, string) -> string,
    pieces: (string, string) -> seq<string>, index: string -> Option<int>,
    decode: string -> Option<Json>, encode: Json -> Option<string>,
    truths: nat -> bool, counts: nat -> nat)

  function Lift(p: Plain): Value {
    match p
    case PlainBool(b) => Bool(b)
    case PlainNumber(n) => Num(n)
    case PlainText(s) => Str(s)
  }

  predicate Truthy(v: Value) {
    match v
    case Undefined => false
    case Null => false
    case Bool(b) => b
    case Num(n) => n != Finite(0.0) && n != NaN
    case Str(s) => s != ""
    case _ => true
  }

  /** Nothing else counts as false. */
  lemma FalsyAre(v: Value)
    ensures !Truthy(v) <==>
              v in {Undefined, Null, Bool(false), Num(Finite(0.0)), Num(NaN), Str("")}
  {
  }

  predicate IsNullish(v: Value) {
    v.Undefined? || v.Null?
  }

  predicate IsObject(v: Value) {
    v.Obj? || v.Arr?
  }

  predicate IsFunction(v: Value) {
    v.Closure? || v.Builtin?
  }

  function TypeOf(v: Value): string {
    match v
    case Undefined => "undefined"
    case Bool(_) => "boolean"
    case Num(_) => "number"
    case Str(_) => "string"
    case Closure(_, _, _) => "function"
    case Builtin(_, _) => "function"
    case _ => "object"
  }

  function ArgAt(args: seq<Value>, index: nat): Value {
    if index < |args| then args[index] else Undefined
  }

  // ---------------------------------------------------------------------------------------------
  // Numbers and texts
  // ---------------------------------------------------------------------------------------------

  /** Bytes of a text as UTF-8 (section 3 of RFC 3629). */
  function Bytes(text: string): (n: nat)
    ensures |text| <= n <= 4 * |text|
  {
    if text == "" then 0 else Bytes(text[..|text| - 1]) + Width(text[|text| - 1])
  }

  function Width(c: char): (n: nat)
    ensures 1 <= n <= 4
  {
    if c as int < 0x80 then 1 else if c as int < 0x800 then 2 else if c as int < 0x1_0000 then 3 else 4
  }

  lemma {:induction false} BytesConcat(a: string, b: string)
    ensures Bytes(a + b) == Bytes(a) + Bytes(b)
    decreases |b|
  {
    if b == "" {
      assert a + b == a;
    } else {
      var init := b[..|b| - 1];
      BytesConcat(a, init);
      assert (a + b)[..|a + b| - 1] == a + init;
    }
  }

  /** Byte order, which for UTF-8 is the order of code points. */
  predicate TextLess(a: string, b: string) {
    if a == "" then b != ""
    else if b == "" then false
    else a[0] < b[0] || (a[0] == b[0] && TextLess(a[1..], b[1..]))
  }

  lemma {:induction false} TextOrder(a: string, b: string)
    ensures !(TextLess(a, b) && TextLess(b, a))
    ensures TextLess(a, b) || TextLess(b, a) || a == b
    ensures !TextLess(a, a)
  {
    if a != "" && b != "" && a[0] == b[0] {
      TextOrder(a[1..], b[1..]);
      assert a == [a[0]] + a[1..] && b == [b[0]] + b[1..];
    }
    if a != "" {
      TextOrder(a[1..], a[1..]);
    }
  }

  /** The first difference decides, and a proper beginning is less than the whole. */
  lemma {:induction false} FirstDifferenceDecides(a: string, c: char, d: char, u: string, w: string)
    requires c < d
    ensures TextLess(a + [c] + u, a + [d] + w) && TextLess(a, a + [c] + u)
  {
    if a != "" {
      FirstDifferenceDecides(a[1..], c, d, u, w);
      assert (a + [c] + u)[1..] == a[1..] + [c] + u && (a + [d] + w)[1..] == a[1..] + [d] + w;
    }
  }

  lemma {:induction false} TextLessChain(a: string, b: string, c: string)
    requires TextLess(a, b) && TextLess(b, c)
    ensures TextLess(a, c)
  {
    if a != "" && a[0] == b[0] == c[0] {
      TextLessChain(a[1..], b[1..], c[1..]);
    }
  }

  predicate NumberLess(a: Number, b: Number) {
    match (a, b)
    case (Finite(x), Finite(y)) => x < y
    case (Finite(_), Infinite(negative)) => !negative
    case (Infinite(negative), Finite(_)) => negative
    case (Infinite(m), Infinite(n)) => m && !n
    case _ => false
  }

  predicate SameNumber(a: Number, b: Number) {
    a == b && a != NaN
  }

  function NumberOf(host: Host, v: Value): Number {
    match v
    case Null => Finite(0.0)
    case Bool(b) => Finite(if b then 1.0 else 0.0)
    case Num(n) => n
    case Str(s) => host.read(s)
    case _ => NaN
  }

  predicate Ordered(host: Host, op: string, left: Value, right: Value) {
    if left.Str? && right.Str? then
      match op
      case "<" => TextLess(left.text, right.text)
      case "<=" => !TextLess(right.text, left.text)
      case ">" => TextLess(right.text, left.text)
      case _ => !TextLess(left.text, right.text)
    else
      var a, b := NumberOf(host, left), NumberOf(host, right);
      match op
      case "<" => NumberLess(a, b)
      case "<=" => NumberLess(a, b) || SameNumber(a, b)
      case ">" => NumberLess(b, a)
      case _ => NumberLess(b, a) || SameNumber(a, b)
  }

  function Negated(n: Number): Number {
    match n
    case NaN => NaN
    case Finite(x) => Finite(-x)
    case Infinite(negative) => Infinite(!negative)
  }

  function UnaryOf(host: Host, op: string, v: Value): Option<Value> {
    match op
    case "!" => Some(Bool(!Truthy(v)))
    case "-" => Some(Num(Negated(NumberOf(host, v))))
    case "+" => Some(Num(NumberOf(host, v)))
    case "typeof" => Some(Str(TypeOf(v)))
    case _ => None
  }

  /** Whether the left side of a logical operator decides. */
  predicate Decides(op: string, left: Value) {
    match op
    case "&&" => !Truthy(left)
    case "||" => Truthy(left)
    case "??" => !IsNullish(left)
    case _ => false
  }

  /** Where a slice begins and ends. */
  function Range(host: Host, length: nat, args: seq<Value>): (r: (nat, nat))
    ensures r.0 <= r.1 <= length
  {
    var start :=
      if |args| > 0 && !IsNullish(args[0]) then Clamped(host.integer(NumberOf(host, args[0])), length) else 0;
    var end :=
      if |args| > 1 && !IsNullish(args[1]) then Clamped(host.integer(NumberOf(host, args[1])), length) else length;
    (start, if end < start then start else end)
  }

  /** A place in a list; negative ones count from the end. */
  function Clamped(i: int, length: nat): (k: nat)
    ensures k <= length
  {
    var k := if i < 0 then i + length else i;
    if k < 0 then 0 else if k > length then length else k
  }

  /** Missing places are the ends; a place before the beginning counts from the end and stops at the beginning. */
  lemma PlacesAre(host: Host, length: nat, i: int, v: Value, w: Value)
    requires host.integer(NumberOf(host, v)) == i && !IsNullish(v) && IsNullish(w)
    ensures var k := if i > length then length else if i >= 0 then i else if i + length >= 0 then i + length else 0;
            && Range(host, length, []) == (0, length)
            && Range(host, length, [v]) == (k, length) == Range(host, length, [v, w])
            && Range(host, length, [w, v]) == (0, k) && Range(host, length, [v, v]) == (k, k)
  {
  }

  // ---------------------------------------------------------------------------------------------
  // Texts of values
  // ---------------------------------------------------------------------------------------------

  /** The text of a value on a stack of the given depth, unless that is too deep. */
  ghost function TextOf(host: Host, v: Value, depth: nat, lists: set<Items>): Option<string>
    reads lists
    decreases depth, 0, 0
  {
    match v
    case Undefined => Some("undefined")
    case Null => Some("null")
    case Bool(b) => Some(if b then "true" else "false")
    case Num(n) => Some(host.show(n))
    case Str(s) => Some(s)
    case Obj(_) => Some("[object Object]")
    case Arr(list) =>
      if depth == 0 || list !in lists then None else Joined(host, list.items, |list.items|, ",", depth - 1, lists)
    case _ => Some("function")
  }

  /** The texts of the first values with a separator between them; nullish ones are left empty. */
  ghost function Joined(
      host: Host, items: seq<Value>, n: nat, separator: string, depth: nat, lists: set<Items>): Option<string>
    requires n <= |items|
    reads lists
    decreases depth, n
  {
    if n == 0 then Some("")
    else
      var before := Joined(host, items, n - 1, separator, depth, lists);
      var part := PartOf(host, items[n - 1], depth, lists);
      if before.None? || part.None? then None
      else Some(before.value + (if n == 1 then "" else separator) + part.value)
  }

  ghost function PartOf(host: Host, v: Value, depth: nat, lists: set<Items>): Option<string>
    reads lists
    decreases depth, 0, 1
  {
    if IsNullish(v) then Some("") else TextOf(host, v, depth, lists)
  }

  /** The texts of plain values, and of short arrays of them. */
  lemma TextsAre(host: Host, depth: nat, list: Items, record: Record, s: string, t: string)
    ensures TextOf(host, Undefined, depth, {}) == Some("undefined") && TextOf(host, Null, depth, {}) == Some("null")
    ensures TextOf(host, Bool(true), depth, {}) == Some("true") && TextOf(host, Bool(false), depth, {}) == Some("false")
    ensures TextOf(host, Str(s), depth, {}) == Some(s)
    ensures TextOf(host, Obj(record), depth, {}) == Some("[object Object]")
    ensures forall n :: TextOf(host, Num(n), depth, {}) == Some(host.show(n))
    ensures depth > 0 && list.items == [Str(s), Str(t)] ==>
              TextOf(host, Arr(list), depth, {list}) == Some(s + "," + t)
    ensures depth > 0 && list.items == [Null, Str(s)] ==> TextOf(host, Arr(list), depth, {list}) == Some("," + s)
    ensures depth > 0 && list.items == [] ==> TextOf(host, Arr(list), depth, {list}) == Some("")
  {
    if depth > 0 {
      assert Joined(host, list.items, 0, ",", depth - 1, {list}) == Some("");
      if |list.items| == 2 {
        OneJoined(host, list.items, 1, ",", depth - 1, {list});
        OneJoined(host, list.items, 2, ",", depth - 1, {list});
        assert "" + "" + s == s && "" + "" + "" == "" && "" + "," + s == "," + s;
      }
    }
  }

  lemma OneJoined(host: Host, items: seq<Value>, n: nat, separator: string, depth: nat, lists: set<Items>)
    requires 0 < n <= |items|
    ensures Joined(host, items, n, separator, depth, lists) ==
            var before := Joined(host, items, n - 1, separator, depth, lists);
            var part := PartOf(host, items[n - 1], depth, lists);
            if before.None? || part.None? then None
            else Some(before.value + (if n == 1 then "" else separator) + part.value)
  {
  }

  // ---------------------------------------------------------------------------------------------
  // Values that contain themselves
  // ---------------------------------------------------------------------------------------------

  /** The way down into a value ends after at most n levels: into arrays, and into objects too when it goes deep. */
  ghost predicate Bounded(v: Value, deep: bool, n: nat, records: set<Record>, lists: set<Items>)
    reads records, lists
    decreases n
  {
    if v.Arr? then
      n > 0 && v.list in lists
      && forall i :: 0 <= i < |v.list.items| ==> Bounded(v.list.items[i], deep, n - 1, records, lists)
    else if deep && v.Obj? then
      n > 0 && v.record in records
      && forall key :: key in v.record.fields ==> Bounded(v.record.fields[key], deep, n - 1, records, lists)
    else true
  }

  lemma {:induction false} BoundedMore(
      v: Value, deep: bool, n: nat, m: nat, records: set<Record>, lists: set<Items>)
    requires n <= m && Bounded(v, deep, n, records, lists)
    ensures Bounded(v, deep, m, records, lists)
    decreases n
  {
    if v.Arr? {
      forall i | 0 <= i < |v.list.items| ensures Bounded(v.list.items[i], deep, m - 1, records, lists) {
        BoundedMore(v.list.items[i], deep, n - 1, m - 1, records, lists);
      }
    } else if deep && v.Obj? {
      forall key | key in v.record.fields ensures Bounded(v.record.fields[key], deep, m - 1, records, lists) {
        BoundedMore(v.record.fields[key], deep, n - 1, m - 1, records, lists);
      }
    }
  }

  /** A text fits the stack if and only if the way down does. */
  lemma {:induction false} TextIffBounded(host: Host, v: Value, depth: nat, records: set<Record>, lists: set<Items>)
    ensures TextOf(host, v, depth, lists).Some? <==> Bounded(v, false, depth, records, lists)
    decreases depth, 0
  {
    if v.Arr? && depth > 0 && v.list in lists {
      JoinedIffBounded(host, v.list.items, |v.list.items|, ",", depth - 1, records, lists);
    }
  }

  lemma {:induction false} JoinedIffBounded(host: Host, items: seq<Value>, n: nat, separator: string, depth: nat,
      records: set<Record>, lists: set<Items>)
    requires n <= |items|
    ensures Joined(host, items, n, separator, depth, lists).Some?
            <==> forall i :: 0 <= i < n ==> Bounded(items[i], false, depth, records, lists)
    decreases depth, n
  {
    if n > 0 {
      JoinedIffBounded(host, items, n - 1, separator, depth, records, lists);
      if !IsNullish(items[n - 1]) {
        TextIffBounded(host, items[n - 1], depth, records, lists);
      }
    }
  }

  /** The way down from one value comes to another after k steps. */
  ghost predicate Leads(v: Value, w: Value, deep: bool, k: nat, records: set<Record>, lists: set<Items>)
    reads records, lists
    decreases k
  {
    if k == 0 then v == w
    else if v.Arr? then
      v.list in lists
      && exists i :: 0 <= i < |v.list.items| && Leads(v.list.items[i], w, deep, k - 1, records, lists)
    else if deep && v.Obj? then
      v.record in records
      && exists key :: key in v.record.fields && Leads(v.record.fields[key], w, deep, k - 1, records, lists)
    else false
  }

  /** The value contains itself, at any depth. */
  ghost predicate HoldsItself(w: Value, deep: bool, records: set<Record>, lists: set<Items>)
    reads records, lists
  {
    exists k: nat :: k > 0 && Leads(w, w, deep, k, records, lists)
  }

  ghost predicate Reached(v: Value, w: Value, deep: bool, records: set<Record>, lists: set<Items>)
    reads records, lists
  {
    exists k: nat :: Leads(v, w, deep, k, records, lists)
  }

  /** What the way down goes into. */
  ghost function Containers(deep: bool, records: set<Record>, lists: set<Items>): set<Value> {
    (set l | l in lists :: Arr(l)) + if deep then set r | r in records :: Obj(r) else {}
  }

  /** Neither the value nor anything it leads to contains itself. */
  ghost predicate FreeOfCycles(v: Value, deep: bool, records: set<Record>, lists: set<Items>)
    reads records, lists
  {
    forall w :: w in Containers(deep, records, lists) && Reached(v, w, deep, records, lists) ==>
      !HoldsItself(w, deep, records, lists)
  }

  /** Everything that a run has made leads to nothing it has not made. */
  ghost predicate Closed(records: set<Record>, lists: set<Items>)
    reads records, lists
  {
    && (forall l :: l in lists ==> forall i :: 0 <= i < |l.items| ==> Made(l.items[i], records, lists))
    && (forall r :: r in records ==> forall key :: key in r.fields ==> Made(r.fields[key], records, lists))
  }

  ghost predicate Made(v: Value, records: set<Record>, lists: set<Items>) {
    (v.Arr? ==> v.list in lists) && (v.Obj? ==> v.record in records)
  }

  lemma {:induction false} LeadsOn(
      v: Value, w: Value, x: Value, deep: bool, k: nat, m: nat, records: set<Record>, lists: set<Items>)
    requires Leads(v, w, deep, k, records, lists) && Leads(w, x, deep, m, records, lists)
    ensures Leads(v, x, deep, k + m, records, lists)
    decreases k
  {
    if k > 0 {
      if v.Arr? {
        var i :| 0 <= i < |v.list.items| && Leads(v.list.items[i], w, deep, k - 1, records, lists);
        LeadsOn(v.list.items[i], w, x, deep, k - 1, m, records, lists);
      } else {
        var key :| key in v.record.fields && Leads(v.record.fields[key], w, deep, k - 1, records, lists);
        LeadsOn(v.record.fields[key], w, x, deep, k - 1, m, records, lists);
      }
    }
  }

  /** Going down shortens the way. */
  lemma {:induction false} BoundFalls(
      v: Value, w: Value, deep: bool, k: nat, n: nat, records: set<Record>, lists: set<Items>)
    requires Leads(v, w, deep, k, records, lists) && Bounded(v, deep, n, records, lists)
    ensures k <= n && Bounded(w, deep, n - k, records, lists)
    decreases k
  {
    if k > 0 {
      if v.Arr? {
        var i :| 0 <= i < |v.list.items| && Leads(v.list.items[i], w, deep, k - 1, records, lists);
        BoundFalls(v.list.items[i], w, deep, k - 1, n - 1, records, lists);
      } else {
        var key :| key in v.record.fields && Leads(v.record.fields[key], w, deep, k - 1, records, lists);
        BoundFalls(v.record.fields[key], w, deep, k - 1, n - 1, records, lists);
      }
    }
  }

  /** No stack is deep enough for what contains itself. */
  lemma {:induction false} NoBound(w: Value, deep: bool, n: nat, records: set<Record>, lists: set<Items>)
    requires HoldsItself(w, deep, records, lists)
    ensures !Bounded(w, deep, n, records, lists)
    decreases n
  {
    if Bounded(w, deep, n, records, lists) {
      var k: nat :| k > 0 && Leads(w, w, deep, k, records, lists);
      BoundFalls(w, w, deep, k, n, records, lists);
      NoBound(w, deep, n - k, records, lists);
    }
  }

  /** Without cycles every level leaves one container behind for good, so their number bounds the way down. */
  lemma {:induction false} ContainersBound(
      v: Value, deep: bool, left: set<Value>, records: set<Record>, lists: set<Items>)
    requires Closed(records, lists) && Made(v, records, lists) && FreeOfCycles(v, deep, records, lists)
    requires left <= Containers(deep, records, lists)
    requires forall w :: w in Containers(deep, records, lists) && Reached(v, w, deep, records, lists) ==> w in left
    ensures Bounded(v, deep, |left|, records, lists)
    decreases |left|
  {
    if v.Arr? || (deep && v.Obj?) {
      assert Leads(v, v, deep, 0, records, lists);
      assert v in Containers(deep, records, lists) && Reached(v, v, deep, records, lists);
      var rest := left - {v};
      assert |rest| == |left| - 1;
      if v.Arr? {
        forall i | 0 <= i < |v.list.items| ensures Bounded(v.list.items[i], deep, |left| - 1, records, lists) {
          PartBound(v, v.list.items[i], deep, left, records, lists);
          ContainersBound(v.list.items[i], deep, rest, records, lists);
        }
      } else {
        forall key | key in v.record.fields
          ensures Bounded(v.record.fields[key], deep, |left| - 1, records, lists)
        {
          PartBound(v, v.record.fields[key], deep, left, records, lists);
          ContainersBound(v.record.fields[key], deep, rest, records, lists);
        }
      }
    }
  }

  /** What a part leads to, the whole leads to, and never back to the whole. */
  lemma PartBound(v: Value, part: Value, deep: bool, left: set<Value>, records: set<Record>, lists: set<Items>)
    requires v in Containers(deep, records, lists) && FreeOfCycles(v, deep, records, lists)
    requires (v.Arr? && v.list in lists && part in v.list.items)
             || (deep && v.Obj? && v.record in records && part in v.record.fields.Values)
    requires forall w :: w in Containers(deep, records, lists) && Reached(v, w, deep, records, lists) ==> w in left
    ensures FreeOfCycles(part, deep, records, lists)
    ensures forall w :: w in Containers(deep, records, lists) && Reached(part, w, deep, records, lists) ==>
              w in left - {v}
  {
    assert Leads(part, part, deep, 0, records, lists);
    assert Leads(v, part, deep, 1, records, lists) by {
      if v.Arr? {
        var i :| 0 <= i < |v.list.items| && v.list.items[i] == part;
        assert Leads(v.list.items[i], part, deep, 0, records, lists);
      } else {
        var key :| key in v.record.fields && v.record.fields[key] == part;
        assert Leads(v.record.fields[key], part, deep, 0, records, lists);
      }
    }
    assert Leads(v, v, deep, 0, records, lists);
    forall w | w in Containers(deep, records, lists) && Reached(part, w, deep, records, lists)
      ensures Reached(v, w, deep, records, lists) && w != v
    {
      var k: nat :| Leads(part, w, deep, k, records, lists);
      LeadsOn(v, part, w, deep, 1, k, records, lists);
      if w == v {
        assert HoldsItself(v, deep, records, lists);
      }
    }
  }

  /** Some stack is deep enough for a value if and only if nothing it leads to contains itself, and then as many
      levels as there are containers are enough. */
  lemma EndsIff(v: Value, deep: bool, records: set<Record>, lists: set<Items>)
    requires Closed(records, lists) && Made(v, records, lists)
    ensures (exists n: nat :: Bounded(v, deep, n, records, lists)) <==> FreeOfCycles(v, deep, records, lists)
    ensures FreeOfCycles(v, deep, records, lists)
            <==> Bounded(v, deep, |Containers(deep, records, lists)|, records, lists)
  {
    hide Leads, Bounded, HoldsItself, Reached, FreeOfCycles;
    var all := Containers(deep, records, lists);
    if FreeOfCycles(v, deep, records, lists) {
      ContainersBound(v, deep, all, records, lists);
      var n: nat := |all|;
      assert Bounded(v, deep, n, records, lists);
    }
    if n: nat :| Bounded(v, deep, n, records, lists) {
      BoundedIsFree(v, deep, n, records, lists);
    }
  }

  lemma BoundedIsFree(v: Value, deep: bool, n: nat, records: set<Record>, lists: set<Items>)
    requires Bounded(v, deep, n, records, lists)
    ensures FreeOfCycles(v, deep, records, lists)
  {
    forall w | w in Containers(deep, records, lists) && Reached(v, w, deep, records, lists)
      ensures !HoldsItself(w, deep, records, lists)
    {
      var k: nat :| Leads(v, w, deep, k, records, lists);
      BoundFalls(v, w, deep, k, n, records, lists);
      if HoldsItself(w, deep, records, lists) {
        NoBound(w, deep, n - k, records, lists);
      }
    }
  }

  /** An array with itself among its elements has no text on any stack. */
  lemma SelfContained(host: Host, l: Items, deep: bool, records: set<Record>, lists: set<Items>)
    requires l in lists && Arr(l) in l.items
    ensures HoldsItself(Arr(l), deep, records, lists) && !FreeOfCycles(Arr(l), deep, records, lists)
    ensures forall n: nat :: !Bounded(Arr(l), deep, n, records, lists)
    ensures forall depth: nat :: TextOf(host, Arr(l), depth, lists).None?
  {
    var i :| 0 <= i < |l.items| && l.items[i] == Arr(l);
    assert Leads(l.items[i], Arr(l), deep, 0, records, lists);
    assert Leads(Arr(l), Arr(l), deep, 1, records, lists);
    assert Leads(Arr(l), Arr(l), deep, 0, records, lists);
    assert Arr(l) in Containers(deep, records, lists) && Reached(Arr(l), Arr(l), deep, records, lists);
    assert Leads(l.items[i], Arr(l), false, 0, records, lists);
    assert Leads(Arr(l), Arr(l), false, 1, records, lists);
    forall n: nat ensures !Bounded(Arr(l), deep, n, records, lists) && TextOf(host, Arr(l), n, lists).None? {
      NoBound(Arr(l), deep, n, records, lists);
      NoBound(Arr(l), false, n, records, lists);
      TextIffBounded(host, Arr(l), n, records, lists);
    }
  }

  // ---------------------------------------------------------------------------------------------
  // Keys in order, and values as documents
  // ---------------------------------------------------------------------------------------------

  predicate Ascending(keys: seq<string>) {
    forall i, j :: 0 <= i < j < |keys| ==> TextLess(keys[i], keys[j])
  }

  function WithKey(keys: seq<string>, key: string): seq<string> {
    if keys == [] || TextLess(keys[|keys| - 1], key) then keys + [key]
    else WithKey(keys[..|keys| - 1], key) + [keys[|keys| - 1]]
  }

  lemma {:induction false} WithKeyAscends(keys: seq<string>, key: string)
    requires Ascending(keys) && key !in keys
    ensures Ascending(WithKey(keys, key))
    ensures forall k :: k in WithKey(keys, key) <==> k in keys || k == key
  {
    if keys != [] {
      var init, last := keys[..|keys| - 1], keys[|keys| - 1];
      TextOrder(last, key);
      assert keys == init + [last];
      if TextLess(last, key) {
        forall i | 0 <= i < |keys| - 1 ensures TextLess(keys[i], key) {
          TextLessChain(keys[i], last, key);
        }
      } else {
        WithKeyAscends(init, key);
        var more := WithKey(init, key);
        forall i | 0 <= i < |more| ensures TextLess(more[i], last) {
          assert more[i] in more;
          if more[i] != key {
            var j :| 0 <= j < |init| && init[j] == more[i];
            assert keys[j] == more[i];
          }
        }
      }
    }
  }

  /** The keys of an object, so that scripts meet them in the same order every time. */
  method SortedKeys(all: set<string>) returns (keys: seq<string>)
    ensures Ascending(keys) && forall key :: key in keys <==> key in all
  {
    keys := [];
    var rest := all;
    while rest != {}
      invariant Ascending(keys) && rest <= all
      invariant forall key :: key in keys <==> key in all && key !in rest
      decreases rest
    {
      var key :| key in rest;
      WithKeyAscends(keys, key);
      keys := WithKey(keys, key);
      rest := rest - {key};
    }
  }

  /** A document says what a value says: functions and undefined values are null, and undefined fields missing. */
  ghost predicate Exported(v: Value, json: Json, records: set<Record>, lists: set<Items>)
    reads records, lists
    decreases json
  {
    match json
    case JsonNull => v.Undefined? || v.Null? || IsFunction(v)
    case JsonBool(truth) => v == Bool(truth)
    case JsonNumber(n) => v == Num(n)
    case JsonText(text) => v == Str(text)
    case JsonList(items) =>
      v.Arr? && v.list in lists && |v.list.items| == |items|
      && forall i :: 0 <= i < |items| ==> Exported(v.list.items[i], items[i], records, lists)
    case JsonFields(keys, members) =>
      v.Obj? && v.record in records && |keys| == |members| && Ascending(keys)
      && (forall key :: key in keys <==> key in v.record.fields && v.record.fields[key] != Undefined)
      && forall i :: 0 <= i < |keys| ==>
           keys[i] in v.record.fields && Exported(v.record.fields[keys[i]], members[i], records, lists)
  }

  function PlainJson(v: Value): Json {
    match v
    case Bool(truth) => JsonBool(truth)
    case Num(n) => JsonNumber(n)
    case Str(text) => JsonText(text)
    case _ => JsonNull
  }

  lemma PlainBound(v: Value, depth: nat, records: set<Record>, lists: set<Items>)
    ensures !IsObject(v) ==> Bounded(v, true, depth, records, lists) && Exported(v, PlainJson(v), records, lists)
    ensures IsObject(v) ==> !Bounded(v, true, 0, records, lists)
  {
  }

  lemma ListTooDeep(list: Items, i: nat, depth: nat, records: set<Record>, lists: set<Items>)
    requires i < |list.items| && !Bounded(list.items[i], true, depth, records, lists)
    ensures !Bounded(Arr(list), true, depth + 1, records, lists)
  {
  }

  lemma RecordTooDeep(record: Record, key: string, depth: nat, records: set<Record>, lists: set<Items>)
    requires key in record.fields && !Bounded(record.fields[key], true, depth, records, lists)
    ensures !Bounded(Obj(record), true, depth + 1, records, lists)
  {
  }

  lemma ListIsExported(list: Items, items: seq<Json>, depth: nat, records: set<Record>, lists: set<Items>)
    requires list in lists && |items| == |list.items|
    requires forall i :: 0 <= i < |items| ==>
               Bounded(list.items[i], true, depth, records, lists)
               && Exported(list.items[i], items[i], records, lists)
    ensures Bounded(Arr(list), true, depth + 1, records, lists)
    ensures Exported(Arr(list), JsonList(items), records, lists)
  {
  }

  lemma RecordIsExported(record: Record, keys: seq<string>, members: seq<Json>, depth: nat,
      records: set<Record>, lists: set<Items>)
    requires record in records && |keys| == |members| && Ascending(keys)
    requires forall key :: key in keys <==> key in record.fields && record.fields[key] != Undefined
    requires forall i :: 0 <= i < |keys| ==> Exported(record.fields[keys[i]], members[i], records, lists)
    requires forall key :: key in record.fields ==> Bounded(record.fields[key], true, depth, records, lists)
    ensures Bounded(Obj(record), true, depth + 1, records, lists)
    ensures Exported(Obj(record), JsonFields(keys, members), records, lists)
  {
  }
}
