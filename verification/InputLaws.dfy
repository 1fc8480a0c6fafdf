/** What a step's effective input holds, place by place, and what it gives away about its references. */
module InputLaws {
  import opened Options
  import opened Json
  import opened Types
  import opened Core

  // ----- places ---------------------------------------------------------------------------

  /** One level down a binding tree or a value. */
  datatype Turn = Index(index: nat) | Name(name: string)

  /** What is bound at a place of the tree. */
  function BoundAt(b: Binding, path: seq<Turn>): Option<Binding>
    decreases path
  {
    if path == [] then Some(b)
    else match (path[0], b)
      case (Index(k), Items(items)) => if k < |items| then BoundAt(items[k], path[1..]) else None
      case (Name(n), Fields(fields)) =>
        (match FieldNamed(fields, n) case Some(f) => BoundAt(f.binding, path[1..]) case None => None)
      case _ => None
  }

  function FieldNamed(fields: seq<Field>, name: string): Option<Field> {
    if fields == [] then None else if fields[0].name == name then Some(fields[0]) else FieldNamed(fields[1..], name)
  }

  /** What stands at a place of the value. */
  function ValueAt(v: Value, path: seq<Turn>): Option<Value> {
    if path == [] then Some(v)
    else match (path[0], v)
      case (Index(k), List(items)) => if k < |items| then ValueAt(items[k], path[1..]) else None
      case (Name(n), Object(members)) => if n in members then ValueAt(members[n], path[1..]) else None
      case _ => None
  }

  /** `x` is what the binding calls for: the literal, the supplied value, the step's output; a list as long as the
      bound list; an object with exactly the bound names. */
  ghost predicate CalledFor(b: Binding, x: Value, inputs: map<string, Value>, outputs: map<string, Value>) {
    match b
    case Literal(v) => x == v
    case InputRef(name) => name in inputs && x == inputs[name]
    case OutputRef(stepId) => stepId in outputs && x == outputs[stepId]
    case Items(items) => x.List? && |x.items| == |items|
    case Fields(fields) => x.Object? && forall n :: n in x.members <==> FieldNamed(fields, n).Some?
  }

  /** At every place of the tree the value holds what is bound there. */
  ghost predicate Holds(b: Binding, v: Value, inputs: map<string, Value>, outputs: map<string, Value>) {
    forall path :: HoldsAt(b, v, path, inputs, outputs)
  }

  ghost predicate HoldsAt(b: Binding, v: Value, path: seq<Turn>, inputs: map<string, Value>,
    outputs: map<string, Value>)
  {
    match BoundAt(b, path)
    case None => true
    case Some(x) => ValueAt(v, path).Some? && CalledFor(x, ValueAt(v, path).value, inputs, outputs)
  }

  /** The names of every object of the tree are distinct: the source's objects are dicts. */
  predicate WellNamed(b: Binding)
    decreases b, 0
  {
    match b
    case Items(items) => forall k :: 0 <= k < |items| ==> WellNamed(items[k])
    case Fields(fields) =>
      && (forall j, k :: 0 <= j < k < |fields| ==> fields[j].name != fields[k].name)
      && (forall k :: 0 <= k < |fields| ==> WellNamedField(fields[k]))
    case _ => true
  }

  predicate WellNamedField(field: Field)
    decreases field, 0
  {
    WellNamed(field.binding)
  }

  // ----- lists and objects, member by member ----------------------------------------------

  lemma {:induction false} ItemsOneByOne(items: seq<Binding>, vs: seq<Value>, i: map<string, Value>,
    o: map<string, Value>)
    ensures ResolveItems(items, i, o) == Some(vs) <==>
      |vs| == |items| && forall k :: 0 <= k < |items| ==> Resolve(items[k], i, o) == Some(vs[k])
  {
    hide Resolve;
    if items != [] && vs != [] {
      ItemsOneByOne(items[1..], vs[1..], i, o);
      assert vs == [vs[0]] + vs[1..];
      assert forall k :: 1 <= k < |items| ==> items[k] == items[1..][k - 1];
      assert forall k :: 1 <= k < |vs| ==> vs[k] == vs[1..][k - 1];
    }
  }

  ghost predicate DistinctNames(fields: seq<Field>) {
    forall j, k :: 0 <= j < k < |fields| ==> fields[j].name != fields[k].name
  }

  lemma {:induction false} FieldIsNamed(fields: seq<Field>, k: nat)
    requires DistinctNames(fields) && k < |fields|
    ensures FieldNamed(fields, fields[k].name) == Some(fields[k])
  {
    if k > 0 {
      FieldIsNamed(fields[1..], k - 1);
    }
  }

  lemma {:induction false} NamedIsField(fields: seq<Field>, name: string)
    requires FieldNamed(fields, name).Some?
    ensures FieldNamed(fields, name).value in fields && FieldNamed(fields, name).value.name == name
  {
    if fields[0].name != name {
      NamedIsField(fields[1..], name);
    }
  }

  /** The object has the fields' names, and each member is its field resolved. */
  ghost predicate Members(fields: seq<Field>, m: map<string, Value>, i: map<string, Value>, o: map<string, Value>) {
    && (forall n :: n in m <==> FieldNamed(fields, n).Some?)
    && (forall n :: n in m ==> ResolveField(FieldNamed(fields, n).value, i, o) == Some(m[n]))
  }

  lemma OtherNames(fields: seq<Field>, n: string)
    requires DistinctNames(fields) && fields != []
    ensures FieldNamed(fields, n).Some? <==> n == fields[0].name || FieldNamed(fields[1..], n).Some?
    ensures n == fields[0].name ==> FieldNamed(fields, n) == Some(fields[0]) && FieldNamed(fields[1..], n).None?
    ensures n != fields[0].name ==> FieldNamed(fields, n) == FieldNamed(fields[1..], n)
  {
    if FieldNamed(fields[1..], n).Some? {
      NamedIsField(fields[1..], n);
    }
  }

  lemma MembersOfRest(fields: seq<Field>, m: map<string, Value>, i: map<string, Value>, o: map<string, Value>)
    requires DistinctNames(fields) && fields != []
    ensures var name := fields[0].name;
      Members(fields, m, i, o) <==>
        && name in m && ResolveField(fields[0], i, o) == Some(m[name])
        && Members(fields[1..], m - {name}, i, o)
  {
    hide ResolveField, FieldNamed, DistinctNames;
    forall n { OtherNames(fields, n); }
    forall n | n != fields[0].name ensures n in m - {fields[0].name} <==> n in m {
    }
  }

  lemma {:induction false} FieldsOneByOne(fields: seq<Field>, m: map<string, Value>, i: map<string, Value>,
    o: map<string, Value>)
    requires DistinctNames(fields)
    ensures ResolveFields(fields, i, o) == Some(m) <==> Members(fields, m, i, o)
  {
    hide ResolveField, Members;
    if fields == [] {
      NoMembers(fields, m, i, o);
    } else {
      var name, rest := fields[0].name, fields[1..];
      MembersOfRest(fields, m, i, o);
      FieldsOneByOne(rest, m - {name}, i, o);
      if name in m {
        assert map[name := m[name]] + (m - {name}) == m;
      }
      if ResolveFields(fields, i, o) == Some(m) {
        var m' := ResolveFields(rest, i, o).value;
        FieldsOneByOne(rest, m', i, o);
        RestHasOtherNames(fields, m', i, o);
        assert m' == m - {name};
      }
    }
  }

  lemma NoMembers(fields: seq<Field>, m: map<string, Value>, i: map<string, Value>, o: map<string, Value>)
    requires fields == []
    ensures Members(fields, m, i, o) <==> m == map[]
  {
  }

  lemma RestHasOtherNames(fields: seq<Field>, m: map<string, Value>, i: map<string, Value>, o: map<string, Value>)
    requires DistinctNames(fields) && fields != [] && Members(fields[1..], m, i, o)
    ensures fields[0].name !in m
  {
    hide FieldNamed;
    OtherNames(fields, fields[0].name);
  }

  // ----- resolution holds exactly what is bound -------------------------------------------

  lemma BelowItems(items: seq<Binding>, vs: seq<Value>, k: nat, path: seq<Turn>, i: map<string, Value>,
    o: map<string, Value>)
    requires |vs| == |items| && k < |items|
    ensures HoldsAt(Items(items), List(vs), [Index(k)] + path, i, o) <==> HoldsAt(items[k], vs[k], path, i, o)
  {
    assert ([Index(k)] + path)[1..] == path;
  }

  lemma ListHolds(items: seq<Binding>, vs: seq<Value>, i: map<string, Value>, o: map<string, Value>)
    requires |vs| == |items|
    ensures Holds(Items(items), List(vs), i, o) <==> forall k :: 0 <= k < |items| ==> Holds(items[k], vs[k], i, o)
  {
    hide CalledFor;
    forall k, path: seq<Turn> | 0 <= k < |items|
      ensures HoldsAt(Items(items), List(vs), [Index(k)] + path, i, o) <==> HoldsAt(items[k], vs[k], path, i, o)
    {
      BelowItems(items, vs, k, path, i, o);
    }
    if forall k :: 0 <= k < |items| ==> Holds(items[k], vs[k], i, o) {
      forall path: seq<Turn> ensures HoldsAt(Items(items), List(vs), path, i, o) {
        if path == [] {
          ListItself(items, vs, i, o);
        } else if path[0].Index? && path[0].index < |items| {
          assert [Index(path[0].index)] + path[1..] == path;
          assert HoldsAt(items[path[0].index], vs[path[0].index], path[1..], i, o);
        }
      }
    }
  }

  lemma ListItself(items: seq<Binding>, vs: seq<Value>, i: map<string, Value>, o: map<string, Value>)
    requires |vs| == |items|
    ensures HoldsAt(Items(items), List(vs), [], i, o)
  {
  }

  /** The members of the object hold what the fields of their names bind. */
  ghost predicate MembersHold(fields: seq<Field>, m: map<string, Value>, i: map<string, Value>, o: map<string, Value>) {
    && (forall n :: n in m <==> FieldNamed(fields, n).Some?)
    && (forall n :: n in m ==> Holds(FieldNamed(fields, n).value.binding, m[n], i, o))
  }

  lemma BelowFields(fields: seq<Field>, m: map<string, Value>, n: string, path: seq<Turn>, i: map<string, Value>,
    o: map<string, Value>)
    requires FieldNamed(fields, n).Some? && n in m
    ensures HoldsAt(Fields(fields), Object(m), [Name(n)] + path, i, o)
      <==> HoldsAt(FieldNamed(fields, n).value.binding, m[n], path, i, o)
  {
    assert ([Name(n)] + path)[1..] == path;
  }

  lemma FieldsThemselves(fields: seq<Field>, v: Value, i: map<string, Value>, o: map<string, Value>)
    ensures HoldsAt(Fields(fields), v, [], i, o) <==>
      v.Object? && forall n :: n in v.members <==> FieldNamed(fields, n).Some?
  {
  }

  lemma ObjectHolds(fields: seq<Field>, m: map<string, Value>, i: map<string, Value>, o: map<string, Value>)
    ensures Holds(Fields(fields), Object(m), i, o) <==> MembersHold(fields, m, i, o)
  {
    hide CalledFor, FieldNamed;
    FieldsThemselves(fields, Object(m), i, o);
    forall n, path: seq<Turn> | FieldNamed(fields, n).Some? && n in m
      ensures HoldsAt(Fields(fields), Object(m), [Name(n)] + path, i, o)
        <==> HoldsAt(FieldNamed(fields, n).value.binding, m[n], path, i, o)
    {
      BelowFields(fields, m, n, path, i, o);
    }
    if MembersHold(fields, m, i, o) {
      forall path: seq<Turn> ensures HoldsAt(Fields(fields), Object(m), path, i, o) {
        if path != [] && path[0].Name? && FieldNamed(fields, path[0].name).Some? {
          assert [Name(path[0].name)] + path[1..] == path;
          assert HoldsAt(FieldNamed(fields, path[0].name).value.binding, m[path[0].name], path[1..], i, o);
        }
      }
    }
  }

  lemma LeafHolds(b: Binding, v: Value, i: map<string, Value>, o: map<string, Value>)
    requires !b.Items? && !b.Fields?
    ensures Holds(b, v, i, o) <==> CalledFor(b, v, i, o)
  {
    assert HoldsAt(b, v, [], i, o) <==> CalledFor(b, v, i, o);
  }

  /** A binding resolves to a value exactly when the value holds what is bound at every place. */
  lemma {:induction false} ResolvesExactly(b: Binding, v: Value, i: map<string, Value>, o: map<string, Value>)
    requires WellNamed(b)
    ensures Resolve(b, i, o) == Some(v) <==> Holds(b, v, i, o)
    decreases b, 0
  {
    hide Holds;
    match b
    case Items(items) => ItemsResolveExactly(items, v, i, o);
    case Fields(fields) => FieldsResolveExactly(fields, v, i, o);
    case _ => LeafHolds(b, v, i, o);
  }

  lemma {:induction false} ItemsResolveExactly(items: seq<Binding>, v: Value, i: map<string, Value>,
    o: map<string, Value>)
    requires WellNamed(Items(items))
    ensures Resolve(Items(items), i, o) == Some(v) <==> Holds(Items(items), v, i, o)
    decreases items, 0
  {
    hide Holds, ResolveItems;
    assert HoldsAt(Items(items), v, [], i, o) <==> v.List? && |v.items| == |items|;
    NeedsItself(Items(items), v, i, o);
    if v.List? {
      ItemsOneByOne(items, v.items, i, o);
      if |v.items| == |items| {
        ListHolds(items, v.items, i, o);
        forall k | 0 <= k < |items|
          ensures Resolve(items[k], i, o) == Some(v.items[k]) <==> Holds(items[k], v.items[k], i, o)
        {
          ResolvesExactly(items[k], v.items[k], i, o);
        }
      }
    }
  }

  lemma NeedsItself(b: Binding, v: Value, i: map<string, Value>, o: map<string, Value>)
    ensures Holds(b, v, i, o) ==> HoldsAt(b, v, [], i, o)
  {
  }

  lemma {:induction false} FieldsResolveExactly(fields: seq<Field>, v: Value, i: map<string, Value>,
    o: map<string, Value>)
    requires WellNamed(Fields(fields))
    ensures Resolve(Fields(fields), i, o) == Some(v) <==> Holds(Fields(fields), v, i, o)
    decreases fields, 0
  {
    hide Holds, ResolveFields, FieldNamed;
    FieldsThemselves(fields, v, i, o);
    NeedsItself(Fields(fields), v, i, o);
    if v.Object? {
      FieldsOneByOne(fields, v.members, i, o);
      ObjectHolds(fields, v.members, i, o);
      forall n | FieldNamed(fields, n).Some? && n in v.members
        ensures ResolveField(FieldNamed(fields, n).value, i, o) == Some(v.members[n])
          <==> Holds(FieldNamed(fields, n).value.binding, v.members[n], i, o)
      {
        NamedIsField(fields, n);
        FieldResolvesExactly(FieldNamed(fields, n).value, v.members[n], i, o);
      }
    }
  }

  lemma {:induction false} FieldResolvesExactly(field: Field, v: Value, i: map<string, Value>, o: map<string, Value>)
    requires WellNamedField(field)
    ensures ResolveField(field, i, o) == Some(v) <==> Holds(field.binding, v, i, o)
    decreases field, 0
  {
    hide Holds;
    ResolvesExactly(field.binding, v, i, o);
  }

  /** A step's effective input is the one value that, at every place of its bindings, holds the literal itself, the
      supplied input, the other step's output, a list of the bound length or an object of the bound names. */
  lemma StepInputIsWhatIsBound(step: Step, v: Value, i: map<string, Value>, o: map<string, Value>)
    requires WellNamed(Fields(step.bind))
    ensures StepInput(step, i, o) == Some(v) <==> Holds(Fields(step.bind), v, i, o)
  {
    hide Holds, Resolve;
    ResolvesExactly(Fields(step.bind), v, i, o);
  }

  // ----- equal inputs have equal references -----------------------------------------------

  lemma {:induction false} EqualResolutionsReadAlike(b: Binding, i1: map<string, Value>, o1: map<string, Value>,
    i2: map<string, Value>, o2: map<string, Value>)
    requires WellNamed(b) && Resolve(b, i1, o1).Some? && Resolve(b, i1, o1) == Resolve(b, i2, o2)
    ensures SameRefs(Walk(b), i1, o1, i2, o2)
    decreases b, 0
  {
    match b
    case Items(items) => EqualItemsReadAlike(items, i1, o1, i2, o2);
    case Fields(fields) => EqualFieldsReadAlike(fields, i1, o1, i2, o2);
    case _ =>
  }

  lemma {:induction false} EqualItemsReadAlike(items: seq<Binding>, i1: map<string, Value>, o1: map<string, Value>,
    i2: map<string, Value>, o2: map<string, Value>)
    requires forall k :: 0 <= k < |items| ==> WellNamed(items[k])
    requires ResolveItems(items, i1, o1).Some? && ResolveItems(items, i1, o1) == ResolveItems(items, i2, o2)
    ensures SameRefs(WalkItems(items), i1, o1, i2, o2)
    decreases items, 0
  {
    hide Resolve;
    if items != [] {
      var v1, v2 := ResolveItems(items, i1, o1).value, ResolveItems(items, i2, o2).value;
      assert v1[0] == v2[0] && v1[1..] == v2[1..];
      EqualResolutionsReadAlike(items[0], i1, o1, i2, o2);
      EqualItemsReadAlike(items[1..], i1, o1, i2, o2);
    }
  }

  lemma {:induction false} EqualFieldsReadAlike(fields: seq<Field>, i1: map<string, Value>, o1: map<string, Value>,
    i2: map<string, Value>, o2: map<string, Value>)
    requires DistinctNames(fields) && forall k :: 0 <= k < |fields| ==> WellNamedField(fields[k])
    requires ResolveFields(fields, i1, o1).Some? && ResolveFields(fields, i1, o1) == ResolveFields(fields, i2, o2)
    ensures SameRefs(WalkFields(fields), i1, o1, i2, o2)
    decreases fields, 0
  {
    hide ResolveFields, ResolveField;
    var m := ResolveFields(fields, i1, o1).value;
    FieldsOneByOne(fields, m, i1, o1);
    FieldsOneByOne(fields, m, i2, o2);
    forall k | 0 <= k < |fields| ensures SameRefs(WalkField(fields[k]), i1, o1, i2, o2) {
      FieldIsNamed(fields, k);
      EqualFieldReadsAlike(fields[k], i1, o1, i2, o2);
    }
    FieldsSameRefs(fields, i1, o1, i2, o2);
  }

  lemma {:induction false} FieldsSameRefs(fields: seq<Field>, i1: map<string, Value>, o1: map<string, Value>,
    i2: map<string, Value>, o2: map<string, Value>)
    requires forall k :: 0 <= k < |fields| ==> SameRefs(WalkField(fields[k]), i1, o1, i2, o2)
    ensures SameRefs(WalkFields(fields), i1, o1, i2, o2)
  {
    hide Lookup;
    if fields != [] {
      FieldsSameRefs(fields[1..], i1, o1, i2, o2);
    }
  }

  lemma {:induction false} EqualFieldReadsAlike(field: Field, i1: map<string, Value>, o1: map<string, Value>,
    i2: map<string, Value>, o2: map<string, Value>)
    requires WellNamedField(field)
    requires ResolveField(field, i1, o1).Some? && ResolveField(field, i1, o1) == ResolveField(field, i2, o2)
    ensures SameRefs(WalkField(field), i1, o1, i2, o2)
    decreases field, 0
  {
    EqualResolutionsReadAlike(field.binding, i1, o1, i2, o2);
  }

  /** The effective input gives its references away: known and equal under two environments, it was made from the same
      supplied values and the same outputs. */
  lemma EqualInputsReadAlike(step: Step, i1: map<string, Value>, o1: map<string, Value>, i2: map<string, Value>,
    o2: map<string, Value>)
    requires WellNamed(Fields(step.bind))
    requires StepInput(step, i1, o1).Some? && StepInput(step, i1, o1) == StepInput(step, i2, o2)
    ensures forall name :: In(name) in Refs(step) ==> name in i1 && name in i2 && i1[name] == i2[name]
    ensures forall s :: s in DependencySet(step) ==> s in o1 && s in o2 && o1[s] == o2[s]
  {
    EqualResolutionsReadAlike(Fields(step.bind), i1, o1, i2, o2);
    StepInputNeedsRefs(step, i1, o1);
    forall name | In(name) in Refs(step) ensures name in i1 && name in i2 && i1[name] == i2[name] {
      assert Lookup(In(name), i1, o1).Some? && Lookup(In(name), i1, o1) == Lookup(In(name), i2, o2);
    }
    forall s | s in DependencySet(step) ensures s in o1 && s in o2 && o1[s] == o2[s] {
      assert Lookup(Out(s), i1, o1).Some? && Lookup(Out(s), i1, o1) == Lookup(Out(s), i2, o2);
    }
  }
}
