// The JSON walk of clear_refs: every field whose name ends in "_ref" becomes null, at any depth.
module References {
  import opened Basics

  datatype Json = Null | Scalar(text: string) | Arr(items: seq<Json>) | Obj(fields: seq<Field>)

  datatype Field = Field(name: string, value: Json)

  predicate IsReference(name: string) {
    |name| >= 4 && name[|name| - 4..] == "_ref"
  }

  lemma EndsInRef(name: string)
    ensures IsReference(name) <==> exists stem :: name == stem + "_ref"
  {
    if IsReference(name) { assert name == name[..|name| - 4] + "_ref"; }
  }

  function Clear(j: Json): Json
    decreases j
  {
    match j
    case Obj(fields) => Obj(seq(|fields|, i requires 0 <= i < |fields| => ClearField(fields[i])))
    case Arr(items) => Arr(seq(|items|, i requires 0 <= i < |items| => Clear(items[i])))
    case _ => j
  }

  function ClearField(f: Field): Field
    decreases f
  {
    if IsReference(f.name) then Field(f.name, Null) else Field(f.name, Clear(f.value))
  }

  // No non-null reference at any depth.
  ghost predicate RefFree(j: Json)
    decreases j
  {
    match j
    case Obj(fields) => forall i :: 0 <= i < |fields| ==> FieldFree(fields[i])
    case Arr(items) => forall i :: 0 <= i < |items| ==> RefFree(items[i])
    case _ => true
  }

  ghost predicate FieldFree(f: Field)
    decreases f
  {
    (IsReference(f.name) ==> f.value == Null) && RefFree(f.value)
  }

  lemma {:induction false} ClearedIsRefFree(j: Json)
    ensures RefFree(Clear(j))
    decreases j
  {
    match j
    case Obj(fields) =>
      forall i | 0 <= i < |fields| ensures FieldFree(ClearField(fields[i])) {
        ClearedIsRefFree(fields[i].value);
      }
    case Arr(items) =>
      forall i | 0 <= i < |items| ensures RefFree(Clear(items[i])) { ClearedIsRefFree(items[i]); }
    case _ =>
  }

  // Clearing changes nothing but references: exactly the reference-free values are fixed.
  lemma {:induction false} ClearFixesRefFree(j: Json)
    ensures Clear(j) == j <==> RefFree(j)
    decreases j
  {
    match j
    case Obj(fields) =>
      forall i | 0 <= i < |fields| ensures ClearField(fields[i]) == fields[i] <==> FieldFree(fields[i]) {
        ClearFixesRefFree(fields[i].value);
      }
      var cleared := Clear(j).fields;
      if cleared == fields {
        forall i | 0 <= i < |fields| ensures ClearField(fields[i]) == fields[i] { assert cleared[i] == fields[i]; }
      }
    case Arr(items) =>
      forall i | 0 <= i < |items| ensures Clear(items[i]) == items[i] <==> RefFree(items[i]) {
        ClearFixesRefFree(items[i]);
      }
      var cleared := Clear(j).items;
      if cleared == items {
        forall i | 0 <= i < |items| ensures Clear(items[i]) == items[i] { assert cleared[i] == items[i]; }
      }
    case _ =>
  }

  // ---- What clearing leaves ----

  // The value reached by taking an item or a field at each step, if there is one.
  function Reached(j: Json, path: seq<nat>): Option<Json>
    decreases path
  {
    if path == [] then Some(j)
    else
      match j
      case Obj(fields) => if path[0] < |fields| then Reached(fields[path[0]].value, path[1..]) else None
      case Arr(items) => if path[0] < |items| then Reached(items[path[0]], path[1..]) else None
      case _ => None
  }

  // The path takes a field that holds a reference.
  predicate Crosses(j: Json, path: seq<nat>)
    decreases path
  {
    path != [] &&
    match j
    case Obj(fields) =>
      path[0] < |fields| && (IsReference(fields[path[0]].name) || Crosses(fields[path[0]].value, path[1..]))
    case Arr(items) => path[0] < |items| && Crosses(items[path[0]], path[1..])
    case _ => false
  }

  // The same kind of value: the same text, as many items, the same field names.
  predicate Alike(a: Json, b: Json) {
    match (a, b)
    case (Null, Null) => true
    case (Scalar(s), Scalar(t)) => s == t
    case (Arr(items), Arr(others)) => |items| == |others|
    case (Obj(fields), Obj(others)) =>
      |fields| == |others| && forall i :: 0 <= i < |fields| ==> fields[i].name == others[i].name
    case _ => false
  }

  // Clearing leaves everything that no reference leads to: any path that crosses none reaches
  // the same kind of value as before, or nothing as before.
  lemma {:induction false} ClearingSparesTheRest(j: Json, path: seq<nat>)
    requires !Crosses(j, path)
    ensures Reached(j, path).None? <==> Reached(Clear(j), path).None?
    ensures Reached(j, path).Some? ==> Alike(Reached(j, path).value, Reached(Clear(j), path).value)
    decreases path
  {
    if path != [] {
      match j
      case Obj(fields) => if path[0] < |fields| { ClearingSparesTheRest(fields[path[0]].value, path[1..]); }
      case Arr(items) => if path[0] < |items| { ClearingSparesTheRest(items[path[0]], path[1..]); }
      case _ =>
    }
  }

  lemma ClearTwice(j: Json)
    ensures Clear(Clear(j)) == Clear(j)
  {
    ClearedIsRefFree(j);
    ClearFixesRefFree(Clear(j));
  }
}
