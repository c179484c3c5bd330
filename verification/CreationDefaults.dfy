/** The properties that creating a note takes from the filters of its view. */
module CreationDefaults {
  import opened Platforms
  import opened Syntax
  import opened Parsing
  import FilterParsing
  import opened FilterLiterals
  import opened FilterConditions

  // ----- what an expression names

  /** `literal`. */
  function LiteralOf(p: Platform, e: Expr): Option<Lit>
    decreases e, 0
  {
    match e
    case Literal(Null) => Some(NullLit)
    case Literal(Str(s)) => Some(TextLit(s))
    case Literal(Bool(b)) => Some(FlagLit(b))
    case Literal(Num(n)) => if p.finite(n) then Some(NumberLit(n)) else None
    case Unary("-", Literal(Num(n))) => Some(NumberLit(p.negate(n)))
    case ListOf(items) =>
      (match LiteralsOf(p, items)
       case None => None
       case Some(values) => Some(ListLit(values)))
    case _ => None
  }

  function LiteralsOf(p: Platform, es: seq<Expr>): Option<seq<Lit>>
    decreases es, 1
  {
    if es == [] then Some([])
    else
      var first, rest := LiteralOf(p, es[0]), LiteralsOf(p, es[1..]);
      if first.None? || rest.None? then None else Some([first.value] + rest.value)
  }

  /** `property`. */
  function PropertyOf(p: Platform, e: Expr): Option<string> {
    match e
    case Identifier(name) => if name in ["file", "formula", "this"] then None else Some(Id(Normalize(name)))
    case Member(Identifier(space), key, _) =>
      if space !in ["note", "file"] then None
      else
        (match LiteralOf(p, key)
         case Some(TextLit(s)) => Some(Id(Ref(space, s)))
         case _ => None)
    case _ => None
  }

  // ----- hints

  /** `warned` when there is any warning at all. */
  datatype Hints = Hints(fields: map<string, Lit>, folder: Option<string>, title: Option<string>, warned: bool)

  const NO_HINTS := Hints(map[], None, None, false)

  const RESERVED: set<string> := {"_id", "_type"}

  /** What folder paths and file names need of the host, and the numbers next to a
      bound: `n + step` and `n - step` when they are finite and lie beyond it. */
  datatype Host = Host(folder: string -> Option<string>, stem: string -> bool,
                       above: Number -> Option<Number>, below: Number -> Option<Number>)

  function Warn(h: Hints): Hints { h.(warned := true) }

  /** The same text from `JSON.stringify`. */
  predicate SameJson(p: Platform, a: Lit, b: Lit) {
    match a
    case NullLit => b.NullLit?
    case TextLit(s) => b.TextLit? && s == b.text
    case FlagLit(t) => b.FlagLit? && t == b.truth
    case NumberLit(n) => b.NumberLit? && p.showNumber(n) == p.showNumber(b.number)
    case ListLit(items) =>
      b.ListLit? && |items| == |b.items| && forall i :: 0 <= i < |items| ==> SameJson(p, items[i], b.items[i])
  }

  function AssignFolder(x: Host, h: Hints, value: string): Hints {
    match x.folder(value)
    case None => Warn(h)
    case Some(next) =>
      if h.folder.None? then h.(folder := Some(next)) else if h.folder != Some(next) then Warn(h) else h
  }

  function AssignTitle(x: Host, h: Hints, value: string): Hints {
    if !x.stem(value) then Warn(h)
    else if h.title.None? then h.(title := Some(value))
    else if h.title != Some(value) then Warn(h)
    else h
  }

  function AssignField(p: Platform, h: Hints, key: string, v: Lit): Hints {
    if key !in h.fields then h.(fields := h.fields[key := v])
    else if !SameJson(p, h.fields[key], v) then Warn(h)
    else h
  }

  /** `assign`: the first value of a property stands. */
  function Assign(p: Platform, x: Host, h: Hints, id: string, v: Lit): Hints {
    if id == "file.folder" && v.TextLit? then AssignFolder(x, h, v.text)
    else if (id == "file.name" || id == "file.basename") && v.TextLit? then AssignTitle(x, h, v.text)
    else if Starts(id, "note.") && id[5..] !in RESERVED then AssignField(p, h, id[5..], v)
    else Warn(h)
  }

  /** The fields of another branch, after those already there. */
  function MergeFields(p: Platform, h: Hints, fields: map<string, Lit>): Hints {
    h.(fields := (fields - RESERVED) + h.fields,
       warned := h.warned || (exists k :: k in fields && (k in RESERVED || (k in h.fields && !SameJson(p, h.fields[k], fields[k])))))
  }

  /** `merge`. */
  function Merge(p: Platform, x: Host, h: Hints, other: Hints): Hints {
    var h1 := if other.folder.Some? then AssignFolder(x, h, other.folder.value) else h;
    var h2 := if other.title.Some? then AssignTitle(x, h1, other.title.value) else h1;
    var h3 := MergeFields(p, h2, other.fields);
    if other.warned then Warn(h3) else h3
  }

  predicate Useful(h: Hints) { h.fields != map[] || h.folder.Some? || h.title.Some? }

  /** The first branch that gives a useful hint, else the first. */
  function Chosen(branches: seq<Hints>): (i: nat)
    requires branches != []
    ensures i < |branches| && (Useful(branches[i]) || i == 0)
  {
    if Useful(branches[0]) || |branches| == 1 then 0
    else
      var later := Chosen(branches[1..]);
      if Useful(branches[later + 1]) then later + 1 else 0
  }

  /** `alternatives`. */
  function Alternatives(p: Platform, x: Host, h: Hints, branches: seq<Hints>): Hints {
    if branches == [] then Warn(h) else Merge(p, x, h, branches[Chosen(branches)])
  }

  function Flip(operator: string): string {
    if operator == ">" then "<" else if operator == "<" then ">"
    else if operator == ">=" then "<=" else if operator == "<=" then ">="
    else operator
  }

  /** The hints of one bound of a property. */
  function Bound(p: Platform, x: Host, h: Hints, id: string, operator: string, v: Lit): Option<Hints> {
    if operator == "==" then Some(Assign(p, x, h, id, v))
    else if !v.NumberLit? then None
    else
      var next := if operator == ">" then x.above(v.number) else if operator == "<" then x.below(v.number) else Some(v.number);
      if next.None? then Some(Warn(h)) else Some(Assign(p, x, h, id, NumberLit(next.value)))
  }

  /** `comparison`; `None` when the expression is no such comparison. */
  function CompareHints(p: Platform, x: Host, h: Hints, operator: string, left: Expr, right: Expr): Option<Hints> {
    var forward := PropertyOf(p, left).Some?;
    var id := if forward then PropertyOf(p, left) else PropertyOf(p, right);
    var v := if forward then LiteralOf(p, right) else LiteralOf(p, left);
    var op := if forward then operator else Flip(operator);
    if id.None? || v.None? || op !in ["==", ">=", "<=", ">", "<"] then None
    else Bound(p, x, h, id.value, op, v.value)
  }

  /** Calls: `file.inFolder` and its like, and the text tests. */
  function CallHints(p: Platform, x: Host, h: Hints, owner: Expr, key: Expr, args: seq<Expr>): Hints {
    var test := LiteralOf(p, key);
    var value := if |args| == 1 then LiteralOf(p, args[0]) else None;
    if test.None? || !test.value.TextLit? || value.None? || !value.value.TextLit? then Warn(h)
    else
      var (name, text) := (test.value.text, value.value.text);
      if owner == Identifier("file") && name == "inFolder" then Assign(p, x, h, "file.folder", value.value)
      else if owner == Identifier("file") && name == "hasProperty" then
        if text in h.fields then h else Assign(p, x, h, "note." + text, NullLit)
      else if owner == Identifier("file") && name == "hasTag" && ("tags" !in h.fields || h.fields["tags"].ListLit?) then
        var tag := TextLit(if text != "" && text[0] == '#' then text[1..] else text);
        var tags := if "tags" in h.fields then h.fields["tags"].items else [];
        h.(fields := h.fields["tags" := ListLit(if tag in tags then tags else tags + [tag])])
      else
        var id := PropertyOf(p, owner);
        if id.Some? && name in ["contains", "startsWith", "endsWith"] then Assign(p, x, h, id.value, value.value)
        else Warn(h)
  }

  /** `expression`. */
  function InferExpression(p: Platform, x: Host, h: Hints, e: Expr): Hints
    decreases e
  {
    match e
    case Binary("&&", left, right) => InferExpression(p, x, InferExpression(p, x, h, left), right)
    case Binary("||", left, right) =>
      Alternatives(p, x, h, [InferExpression(p, x, NO_HINTS, left), InferExpression(p, x, NO_HINTS, right)])
    case Binary(operator, left, right) =>
      (match CompareHints(p, x, h, operator, left, right)
       case Some(h') => h'
       case None => Warn(h))
    case Identifier(_) =>
      var id := PropertyOf(p, e);
      if id.Some? then Assign(p, x, h, id.value, FlagLit(true)) else Warn(h)
    case Unary("!", operand) =>
      var id := PropertyOf(p, operand);
      if id.Some? && Starts(id.value, "note.") then Assign(p, x, h, id.value, FlagLit(false)) else Warn(h)
    case Call(Member(owner, key, _), args) => CallHints(p, x, h, owner, key, args)
    case _ => Warn(h)
  }

  type Stored = FilterParsing.Stored

  /** `filter`, for a filter that is present. */
  function InferFilter(p: Platform, x: Host, h: Hints, v: Stored): Hints
    decreases v, 0
  {
    if v.Text? then
      match ParseText(p, v.text)
      case None => Warn(h)
      case Some(e) => InferExpression(p, x, h, e)
    else if v.Mapping? && |v.keys| == 1 && |v.values| == 1 && v.values[0].Sequence? then
      if v.keys[0] == "and" then InferAll(p, x, h, v.values[0].items)
      else if v.keys[0] == "or" then Alternatives(p, x, h, InferEach(p, x, v.values[0].items))
      else Warn(h)
    else Warn(h)
  }

  function InferAll(p: Platform, x: Host, h: Hints, vs: seq<Stored>): Hints
    decreases vs, 1
  {
    if vs == [] then h else InferAll(p, x, InferFilter(p, x, h, vs[0]), vs[1..])
  }

  function InferEach(p: Platform, x: Host, vs: seq<Stored>): (hs: seq<Hints>)
    ensures |hs| == |vs|
    decreases vs, 1
  {
    if vs == [] then [] else [InferFilter(p, x, NO_HINTS, vs[0])] + InferEach(p, x, vs[1..])
  }

  // ----- hints are only added to

  /** Every field of `h` is kept as it is, and a warning stays. */
  predicate Extends(h: Hints, h': Hints) {
    && (forall k :: k in h.fields ==> k in h'.fields && h'.fields[k] == h.fields[k])
    && (h.warned ==> h'.warned)
  }

  /** Every field of a branch is there, up to its JSON text. */
  predicate Includes(p: Platform, h: Hints, fields: map<string, Lit>) {
    forall k :: k in fields ==> k in h.fields && SameJson(p, h.fields[k], fields[k])
  }

  lemma {:induction false} SameJsonRefl(p: Platform, a: Lit)
    ensures SameJson(p, a, a)
  {
    if a.ListLit? { forall i | 0 <= i < |a.items| ensures SameJson(p, a.items[i], a.items[i]) { SameJsonRefl(p, a.items[i]); } }
  }

  lemma {:induction false} SameJsonTrans(p: Platform, a: Lit, b: Lit, c: Lit)
    requires SameJson(p, a, b) && SameJson(p, b, c)
    ensures SameJson(p, a, c)
  {
    if a.ListLit? {
      forall i | 0 <= i < |a.items| ensures SameJson(p, a.items[i], c.items[i]) {
        SameJsonTrans(p, a.items[i], b.items[i], c.items[i]);
      }
    }
  }

  lemma {:induction false} AssignExtends(p: Platform, x: Host, h: Hints, id: string, v: Lit)
    ensures var h' := Assign(p, x, h, id, v);
            && Extends(h, h')
            && (!h'.warned && Starts(id, "note.") ==> id[5..] in h'.fields && SameJson(p, h'.fields[id[5..]], v))
  {
    SameJsonRefl(p, v);
    if Starts(id, "note.") { assert id[0] == 'n'; }
  }

  lemma {:induction false} MergeExtends(p: Platform, x: Host, h: Hints, other: Hints)
    ensures var h' := Merge(p, x, h, other);
            Extends(h, h') && (!h'.warned ==> !other.warned && Includes(p, h', other.fields))
  {
    forall k | k in other.fields ensures SameJson(p, other.fields[k], other.fields[k]) { SameJsonRefl(p, other.fields[k]); }
  }

  lemma {:induction false} AlternativesExtend(p: Platform, x: Host, h: Hints, branches: seq<Hints>)
    ensures var h' := Alternatives(p, x, h, branches);
            && Extends(h, h')
            && (!h'.warned ==> branches != [] && var b := branches[Chosen(branches)]; !b.warned && Includes(p, h', b.fields))
  {
    if branches != [] { MergeExtends(p, x, h, branches[Chosen(branches)]); }
  }
}
