/** What the formula language takes from its JavaScript engine.

    Character classes, case folding, IEEE numbers and their text, date and
    duration arithmetic, and the registered functions are all foreign to the
    repository. They enter as the fields of one `Platform` value, so every
    theorem holds for each way of filling them in; the few laws that a theorem
    needs are collected in predicates and named where they are used.
 */
module Platforms {

  /** An IEEE double, known only through the operations of a `Platform`. */
  datatype Number = Number(code: int)

  /** A formula value. Dates, durations and regular expressions are `Foreign`. */
  datatype Value =
    | Null
    | Bool(truth: bool)
    | Num(number: Number)
    | Str(text: string)
    | List(items: seq<Value>)
    | Obj(fields: seq<Field>)
    | Foreign(kind: string, code: int)
    | FormulaNamespace

  datatype Field = Field(key: string, value: Value)

  /** The codes of thrown failures, other than `cycle` and `budget`. */
  datatype Fault = Parse | Type | Access | UnknownFunction | Unsupported

  /** Result of an operation that neither evaluates nor looks up a formula. */
  datatype Checked = Good(value: Value) | Bad(fault: Fault)

  datatype Option<T> = None | Some(value: T)

  datatype Parameter = Parameter(types: seq<string>, optional: bool, variadic: bool)

  datatype Definition = Definition(parameters: seq<Parameter>,
                                   invoke: (seq<Value>, Option<Value>) -> Checked)

  datatype Platform = Platform(
    // \p{L}, \p{N} or \p{M}, and \s of a regular expression with the u flag
    letter: char -> bool,
    mark: char -> bool,
    space: char -> bool,
    // String.prototype.toLowerCase
    lower: string -> string,
    // Number(text), JSON.stringify(number), Number.isFinite and unary minus
    toNumber: string -> Number,
    showNumber: Number -> string,
    finite: Number -> bool,
    negate: Number -> Number,
    ofNat: nat -> Number,
    // !!value for a number and for a foreign value
    numberTruthy: Number -> bool,
    foreignTruthy: Value -> bool,
    // The resolved index of list[number], and text.charAt(number)
    listIndex: (Number, nat) -> Option<nat>,
    charAt: (string, Number) -> string,
    // Members of values that are neither objects, lists, strings nor the formula namespace
    foreignMember: (Value, string) -> Checked,
    arithmetic: (string, Value, Value) -> Checked,
    comparison: (string, Value, Value) -> Checked,
    find: (string, Option<Value>) -> Option<Definition>
  )

  function TypeName(v: Value): string {
    match v
    case Null => "null"
    case Bool(_) => "boolean"
    case Num(_) => "number"
    case Str(_) => "string"
    case List(_) => "list"
    case Obj(_) => "object"
    case Foreign(kind, _) => kind
    case FormulaNamespace => "namespace"
  }

  predicate Truthy(p: Platform, v: Value) {
    match v
    case Null => false
    case Bool(b) => b
    case Num(n) => p.numberTruthy(n)
    case Str(s) => s != ""
    case List(items) => items != []
    case Obj(fields) => fields != []
    case Foreign(_, _) => p.foreignTruthy(v)
    case FormulaNamespace => true
  }

  function Max(a: nat, b: nat): nat { if a > b then a else b }

  lemma {:induction false} Joined<T>(a: seq<T>, b: seq<T>, c: seq<T>)
    ensures (a + b) + c == a + (b + c)
  {
  }

  /** The index of the first key that satisfies `ok`, or the length. */
  function FirstIndex(keys: seq<string>, ok: string -> bool): (i: nat)
    ensures i <= |keys|
    ensures i < |keys| ==> ok(keys[i])
    ensures forall j :: 0 <= j < i ==> !ok(keys[j])
  {
    if keys == [] then 0
    else if ok(keys[0]) then 0
    else 1 + FirstIndex(keys[1..], ok)
  }

  /** `ownKey`: the exact key if there is one, otherwise the first key that is
      the same ignoring case. Answers with the key's position. */
  function OwnKey(p: Platform, keys: seq<string>, name: string): (r: Option<nat>)
    ensures r.Some? ==> r.value < |keys| && p.lower(keys[r.value]) == p.lower(name)
    ensures r.None? <==> forall k :: 0 <= k < |keys| ==> keys[k] != name && p.lower(keys[k]) != p.lower(name)
    ensures name in keys ==> r.Some? && keys[r.value] == name
    ensures r.Some? && name !in keys ==> forall k :: 0 <= k < r.value ==> p.lower(keys[k]) != p.lower(name)
  {
    var exact := FirstIndex(keys, k => k == name);
    if exact < |keys| then Some(exact)
    else
      var folded := FirstIndex(keys, k => p.lower(k) == p.lower(name));
      if folded < |keys| then Some(folded) else None
  }
}
