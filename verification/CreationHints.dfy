/** The hints object that inference fills in. */
module CreationHints {
  import opened Platforms
  import opened Syntax
  import opened Parsing
  import opened FilterLiterals
  import opened FilterConditions
  import opened CreationDefaults

  class HintsObject {
    var fields: map<string, Lit>
    var folder: Option<string>
    var title: Option<string>
    var warned: bool

    function Now(): Hints
      reads this
    {
      Hints(fields, folder, title, warned)
    }

    constructor ()
      ensures Now() == NO_HINTS
    {
      fields, folder, title, warned := map[], None, None, false;
    }

    method Put(p: Platform, x: Host, id: string, v: Lit)
      modifies this
      ensures Now() == Assign(p, x, old(Now()), id, v)
    {
      if id == "file.folder" && v.TextLit? {
        var next := x.folder(v.text);
        if next.None? { warned := true; }
        else if folder.None? { folder := next; }
        else if folder != next { warned := true; }
      } else if (id == "file.name" || id == "file.basename") && v.TextLit? {
        if !x.stem(v.text) { warned := true; }
        else if title.None? { title := Some(v.text); }
        else if title != Some(v.text) { warned := true; }
      } else if Starts(id, "note.") && id[5..] !in RESERVED {
        var key := id[5..];
        if key !in fields { fields := fields[key := v]; }
        else if !SameJson(p, fields[key], v) { warned := true; }
      } else {
        warned := true;
      }
    }

    method Absorb(p: Platform, x: Host, other: Hints)
      modifies this
      ensures Now() == Merge(p, x, old(Now()), other)
    {
      if other.folder.Some? { SetFolder(x, other.folder.value); }
      if other.title.Some? { SetTitle(x, other.title.value); }
      var clash := exists k :: k in other.fields && (k in RESERVED || (k in fields && !SameJson(p, fields[k], other.fields[k])));
      fields, warned := (other.fields - RESERVED) + fields, warned || clash;
      if other.warned { warned := true; }
    }

    method SetFolder(x: Host, value: string)
      modifies this
      ensures Now() == AssignFolder(x, old(Now()), value)
    {
      var next := x.folder(value);
      if next.None? { warned := true; }
      else if folder.None? { folder := next; }
      else if folder != next { warned := true; }
    }

    method SetTitle(x: Host, value: string)
      modifies this
      ensures Now() == AssignTitle(x, old(Now()), value)
    {
      if !x.stem(value) { warned := true; }
      else if title.None? { title := Some(value); }
      else if title != Some(value) { warned := true; }
    }

    /** `alternatives`: branches are tried until one is useful. */
    method Pick(p: Platform, x: Host, branches: seq<Hints>)
      modifies this
      ensures Now() == Alternatives(p, x, old(Now()), branches)
    {
      if branches == [] {
        warned := true;
        return;
      }
      var i: nat := 0;
      while i < |branches| && !Useful(branches[i])
        invariant i <= |branches| && forall j :: 0 <= j < i ==> !Useful(branches[j])
      {
        i := i + 1;
      }
      ChosenFirst(branches, i);
      Absorb(p, x, if i < |branches| then branches[i] else branches[0]);
    }

    /** `expression`. */
    method Read(p: Platform, x: Host, e: Expr)
      modifies this
      ensures Now() == InferExpression(p, x, old(Now()), e)
      decreases e
    {
      if e.Binary? && e.operator == "&&" {
        Read(p, x, e.left);
        Read(p, x, e.right);
      } else if e.Binary? && e.operator == "||" {
        var left := new HintsObject();
        left.Read(p, x, e.left);
        var right := new HintsObject();
        right.Read(p, x, e.right);
        Pick(p, x, [left.Now(), right.Now()]);
      } else if e.Binary? {
        ReadBound(p, x, e.operator, e.left, e.right);
      } else if e.Identifier? {
        var id := PropertyOf(p, e);
        if id.Some? { Put(p, x, id.value, FlagLit(true)); } else { warned := true; }
      } else if e.Unary? && e.operator == "!" {
        var id := PropertyOf(p, e.operand);
        if id.Some? && Starts(id.value, "note.") { Put(p, x, id.value, FlagLit(false)); } else { warned := true; }
      } else if e.Call? && e.callee.Member? {
        var h := CallHints(p, x, Now(), e.callee.owner, e.callee.key, e.args);
        fields, folder, title, warned := h.fields, h.folder, h.title, h.warned;
      } else {
        warned := true;
      }
    }

    /** `comparison`, with the warning for anything that is not one. */
    method ReadBound(p: Platform, x: Host, operator: string, left: Expr, right: Expr)
      modifies this
      ensures var h := CompareHints(p, x, old(Now()), operator, left, right);
              Now() == if h.Some? then h.value else Warn(old(Now()))
    {
      var id, v, op := PropertyOf(p, left), LiteralOf(p, right), operator;
      if id.None? { id, v, op := PropertyOf(p, right), LiteralOf(p, left), Flip(operator); }
      if id.None? || v.None? || op !in ["==", ">=", "<=", ">", "<"] { warned := true; }
      else if op == "==" { Put(p, x, id.value, v.value); }
      else if !v.value.NumberLit? { warned := true; }
      else {
        var n := v.value.number;
        var next := if op == ">" then x.above(n) else if op == "<" then x.below(n) else Some(n);
        if next.None? { warned := true; } else { Put(p, x, id.value, NumberLit(next.value)); }
      }
    }
  }

  lemma {:induction false} ChosenFirst(branches: seq<Hints>, i: nat)
    requires branches != [] && i <= |branches| && (forall j :: 0 <= j < i ==> !Useful(branches[j]))
    requires i < |branches| ==> Useful(branches[i])
    ensures Chosen(branches) == if i < |branches| then i else 0
    decreases |branches|
  {
    if !Useful(branches[0]) && |branches| > 1 {
      forall j | 0 <= j < i - 1 ensures !Useful(branches[1..][j]) { assert branches[1..][j] == branches[j + 1]; }
      ChosenFirst(branches[1..], i - 1);
    }
  }
}
