/** `delta/core.py`: declared dependencies, validation, input resolution, signatures, matching. */
module Core {
  import opened Options
  import opened Json
  import opened JsonText
  import opened Topology
  import opened Types

  // ----- declared references --------------------------------------------------------------

  datatype Ref = In(name: string) | Out(stepId: string)

  /** `_walk_bindings`: every reference of a binding tree, in order of appearance. */
  function Walk(b: Binding): seq<Ref>
    decreases b, 0
  {
    match b
    case Literal(_) => []
    case InputRef(name) => [In(name)]
    case OutputRef(stepId) => [Out(stepId)]
    case Items(items) => WalkItems(items)
    case Fields(fields) => WalkFields(fields)
  }

  function WalkItems(items: seq<Binding>): seq<Ref>
    decreases items, 0
  {
    if items == [] then [] else Walk(items[0]) + WalkItems(items[1..])
  }

  function WalkFields(fields: seq<Field>): seq<Ref>
    decreases fields, 0
  {
    if fields == [] then [] else WalkField(fields[0]) + WalkFields(fields[1..])
  }

  function WalkField(field: Field): seq<Ref>
    decreases field, 0
  {
    Walk(field.binding)
  }

  function Refs(step: Step): seq<Ref> {
    WalkFields(step.bind)
  }

  function DependencySet(step: Step): set<string> {
    set r | r in Refs(step) && r.Out? :: r.stepId
  }

  function WithUse(ids: seq<string>, r: Ref): seq<string> {
    if r.Out? && r.stepId !in ids then ids + [r.stepId] else ids
  }

  /** The step ids referenced, each at its first use. */
  function FirstUses(refs: seq<Ref>): seq<string> {
    if refs == [] then [] else WithUse(FirstUses(refs[..|refs| - 1]), refs[|refs| - 1])
  }

  /** The j-th step is used, and before its first use only earlier ones are. */
  ghost predicate UsedNext(refs: seq<Ref>, uses: seq<string>, j: nat)
    requires j < |uses|
  {
    exists k :: 0 <= k < |refs| && refs[k] == Out(uses[j])
      && forall m :: 0 <= m < k && refs[m].Out? ==> refs[m].stepId in uses[..j]
  }

  ghost predicate InOrderOfUse(refs: seq<Ref>, uses: seq<string>) {
    forall j :: 0 <= j < |uses| ==> UsedNext(refs, uses, j)
  }

  lemma UsedNextStill(refs: seq<Ref>, uses: seq<string>, last: Ref, more: seq<string>, j: nat)
    requires j < |uses| && UsedNext(refs, uses, j)
    ensures UsedNext(refs + [last], uses + more, j)
  {
    var k :| 0 <= k < |refs| && refs[k] == Out(uses[j])
      && forall m :: 0 <= m < k && refs[m].Out? ==> refs[m].stepId in uses[..j];
    assert (uses + more)[..j] == uses[..j] && (refs + [last])[k] == refs[k];
  }

  lemma LastUsedNext(refs: seq<Ref>, uses: seq<string>, s: string)
    requires forall m :: 0 <= m < |refs| && refs[m].Out? ==> refs[m].stepId in uses
    ensures UsedNext(refs + [Out(s)], uses + [s], |uses|)
  {
    assert (uses + [s])[..|uses|] == uses && (refs + [Out(s)])[|refs|] == Out(s);
  }

  /** Each referenced step once, in the order of first uses. */
  lemma {:induction false} FirstUsesAreTheReferences(refs: seq<Ref>)
    ensures forall s :: s in FirstUses(refs) <==> Out(s) in refs
    ensures Distinct(FirstUses(refs)) && InOrderOfUse(refs, FirstUses(refs))
  {
    hide UsedNext;
    if refs != [] {
      var front, last := refs[..|refs| - 1], refs[|refs| - 1];
      FirstUsesAreTheReferences(front);
      assert refs == front + [last];
      var uses := FirstUses(front);
      forall j | 0 <= j < |uses| ensures UsedNext(refs, FirstUses(refs), j) {
        UsedNextStill(front, uses, last, FirstUses(refs)[|uses|..], j);
        assert FirstUses(refs) == uses + FirstUses(refs)[|uses|..];
      }
      if FirstUses(refs) != uses {
        forall m | 0 <= m < |front| && front[m].Out? ensures front[m].stepId in uses {
          assert Out(front[m].stepId) in front;
        }
        LastUsedNext(front, uses, last.stepId);
      }
    }
  }

  method ExtractDependencies(step: Step) returns (dependencies: seq<string>)
    ensures dependencies == FirstUses(Refs(step))
    ensures Distinct(dependencies) && forall s :: s in dependencies <==> s in DependencySet(step)
    ensures InOrderOfUse(Refs(step), dependencies)
  {
    hide WalkFields, InOrderOfUse;
    var refs := Refs(step);
    var seen: set<string> := {};
    dependencies := [];
    for i := 0 to |refs|
      invariant dependencies == FirstUses(refs[..i])
      invariant forall s :: s in seen <==> s in dependencies
    {
      assert refs[..i + 1][..i] == refs[..i];
      if refs[i].Out? && refs[i].stepId !in seen {
        seen := seen + {refs[i].stepId};
        dependencies := dependencies + [refs[i].stepId];
      }
    }
    assert refs[..|refs|] == refs;
    FirstUsesAreTheReferences(refs);
  }

  // ----- workflows ------------------------------------------------------------------------

  function Ids(steps: seq<Step>): (ids: seq<string>)
    ensures |ids| == |steps| && forall i :: 0 <= i < |ids| ==> ids[i] == steps[i].id
  {
    seq(|steps|, i requires 0 <= i < |steps| => steps[i].id)
  }

  /** `{step.id: step for step in steps}[id]`. */
  function Named(steps: seq<Step>, id: string): (step: Step)
    requires id in Ids(steps)
    ensures step in steps && step.id == id
  {
    var last := steps[|steps| - 1];
    assert Ids(steps) == Ids(steps[..|steps| - 1]) + [last.id];
    if last.id == id then last else Named(steps[..|steps| - 1], id)
  }

  function Dependencies(w: Workflow): (deps: Graph)
    ensures forall id :: id in deps <==> id in Ids(w.steps)
  {
    map id | id in Ids(w.steps) :: DependencySet(Named(w.steps, id))
  }

  predicate KnownRefs(w: Workflow) {
    forall i :: 0 <= i < |w.steps| ==> forall r :: r in Refs(w.steps[i]) ==>
      match r
      case In(name) => name in w.inputs
      case Out(stepId) => stepId in Ids(w.steps) && stepId != w.steps[i].id
  }

  /** `validate_workflow` accepts: some step, unique ids, known references, no cycle. */
  predicate ValidWorkflow(w: Workflow) {
    && w.steps != []
    && Distinct(Ids(w.steps))
    && KnownRefs(w)
    && Order(w).Some?
  }

  function Order(w: Workflow): Option<seq<string>> {
    assert SetOf(Ids(w.steps)) <= Dependencies(w).Keys;
    TopologicalSpec(Ids(w.steps), Dependencies(w))
  }

  lemma {:induction false} NamedIsUnique(steps: seq<Step>, i: nat)
    requires Distinct(Ids(steps)) && i < |steps|
    ensures steps[i].id in Ids(steps) && Named(steps, steps[i].id) == steps[i]
  {
    var ids, front := Ids(steps), steps[..|steps| - 1];
    assert ids[i] == steps[i].id;
    if i < |front| {
      assert ids[i] != ids[|steps| - 1];
      forall j, k | 0 <= j < k < |front| ensures Ids(front)[j] != Ids(front)[k] {
        assert ids[j] != ids[k];
      }
      NamedIsUnique(front, i);
    }
  }

  lemma KnownRefsCover(w: Workflow)
    requires Distinct(Ids(w.steps)) && KnownRefs(w)
    ensures Covers(Ids(w.steps), Dependencies(w))
  {
    forall x | x in Dependencies(w) ensures Dependencies(w)[x] <= Dependencies(w).Keys {
      var step := Named(w.steps, x);
      var i :| 0 <= i < |w.steps| && w.steps[i] == step;
      forall d | d in DependencySet(step) ensures d in Dependencies(w).Keys {
        assert Out(d) in Refs(w.steps[i]);
      }
    }
  }

  /** Validation succeeds exactly on non-empty workflows with unique ids, whose steps refer to declared inputs and to
      other steps of the workflow only, without a dependency cycle. */
  lemma ValidWorkflowMeaning(w: Workflow)
    ensures ValidWorkflow(w) <==>
      && w.steps != [] && (forall i, j :: 0 <= i < j < |w.steps| ==> w.steps[i].id != w.steps[j].id)
      && (forall step :: step in w.steps ==> RefersKnown(w, step))
      && !Cyclic(Dependencies(w))
  {
    hide Refs, Cyclic, KnownRefs;
    assert Distinct(Ids(w.steps)) <==> forall i, j :: 0 <= i < j < |w.steps| ==> w.steps[i].id != w.steps[j].id;
    ReferencesAreKnown(w);
    if Distinct(Ids(w.steps)) && KnownRefs(w) {
      KnownRefsCover(w);
      TopologicalOrderIsLayered(Ids(w.steps), Dependencies(w));
    }
  }

  /** The step refers to declared inputs and to other steps of the workflow only. */
  ghost predicate RefersKnown(w: Workflow, step: Step) {
    && (forall name :: In(name) in Refs(step) ==> name in w.inputs)
    && (forall s :: s in DependencySet(step) ==> s != step.id && s in Ids(w.steps))
  }

  lemma StepRefersKnown(w: Workflow, step: Step)
    ensures RefersKnown(w, step) <==> forall r :: r in Refs(step) ==>
      match r
      case In(name) => name in w.inputs
      case Out(stepId) => stepId in Ids(w.steps) && stepId != step.id
  {
    hide Refs;
    assert forall s :: Out(s) in Refs(step) ==> s in DependencySet(step);
    assert forall s :: s in DependencySet(step) ==> Out(s) in Refs(step);
  }

  lemma ReferencesAreKnown(w: Workflow)
    ensures KnownRefs(w) <==> forall step :: step in w.steps ==> RefersKnown(w, step)
  {
    hide RefersKnown, Refs;
    forall i | 0 <= i < |w.steps| ensures w.steps[i] in w.steps {
      StepRefersKnown(w, w.steps[i]);
    }
    forall step | step in w.steps ensures RefersKnown(w, step) <==> forall r :: r in Refs(step) ==>
      match r
      case In(name) => name in w.inputs
      case Out(stepId) => stepId in Ids(w.steps) && stepId != step.id
    {
      StepRefersKnown(w, step);
    }
  }

  /** The steps of a valid workflow in the order they are processed. */
  function Ordered(w: Workflow): (steps: seq<Step>)
    requires ValidWorkflow(w)
  {
    var order := Order(w).value;
    OrderIsPermutation(w);
    seq(|order|, i requires 0 <= i < |order| => Named(w.steps, order[i]))
  }

  lemma OrderIsPermutation(w: Workflow)
    requires ValidWorkflow(w)
    ensures var order := Order(w).value;
      && Distinct(order)
      && (forall i :: 0 <= i < |order| ==> order[i] in Ids(w.steps))
      && (forall x :: x in Ids(w.steps) ==> x in order)
      && DependenciesFirst(Dependencies(w), order)
  {
    KnownRefsCover(w);
    TopologicalOrderIsLayered(Ids(w.steps), Dependencies(w));
    LayeredPutsDependenciesFirst(Ids(w.steps), Dependencies(w), Order(w).value);
    forall i | 0 <= i < |Order(w).value| ensures Order(w).value[i] in Ids(w.steps) {
      assert Order(w).value[i] in Order(w).value;
    }
  }

  /** What every run over a workflow relies on: each step once, dependencies first. */
  predicate Sequenced(steps: seq<Step>) {
    && (forall i, j :: 0 <= i < j < |steps| ==> steps[i].id != steps[j].id)
    && (forall j, d :: 0 <= j < |steps| && d in DependencySet(steps[j]) ==> d in Ids(steps[..j]))
  }

  lemma OrderedIsSequenced(w: Workflow)
    requires ValidWorkflow(w)
    ensures Sequenced(Ordered(w))
  {
    var order, steps := Order(w).value, Ordered(w);
    OrderIsPermutation(w);
    forall j, d | 0 <= j < |steps| && d in DependencySet(steps[j]) ensures d in Ids(steps[..j]) {
      assert d in Dependencies(w)[order[j]];
      var i :| 0 <= i < j && order[i] == d;
      assert Ids(steps[..j])[i] == d;
    }
  }

  lemma OrderedHasAllSteps(w: Workflow)
    requires ValidWorkflow(w)
    ensures forall s :: s in w.steps <==> s in Ordered(w)
  {
    var order, steps := Order(w).value, Ordered(w);
    OrderIsPermutation(w);
    forall s | s in w.steps ensures s in steps {
      var i :| 0 <= i < |w.steps| && w.steps[i] == s;
      NamedIsUnique(w.steps, i);
      var k :| 0 <= k < |order| && order[k] == s.id;
      assert steps[k] == s;
    }
  }

  // ----- inputs ---------------------------------------------------------------------------

  predicate KindAccepts(kind: Kind, v: Value) {
    match kind
    case AnyJson => true
    case StringInput => v.Text?
    case DateInput => v.Text?
    case BooleanInput => v.Bool?
    case IntegerInput => v.Int?
    case NumberInput => v.Int?
  }

  predicate InputAccepted(spec: InputSpec, supplied: Option<Raw>) {
    match supplied
    case None => !spec.required
    case Some(raw) => Normalize(raw).Some? && KindAccepts(spec.kind, Normalize(raw).value)
  }

  function Supplied(inputs: map<string, Raw>, name: string): Option<Raw> {
    if name in inputs then Some(inputs[name]) else None
  }

  /** `validate_inputs` accepts: nothing unknown, nothing required missing, every kind right. */
  predicate ValidInputs(w: Workflow, inputs: map<string, Raw>) {
    && inputs.Keys <= w.inputs.Keys
    && forall name :: name in w.inputs ==> InputAccepted(w.inputs[name], Supplied(inputs, name))
  }

  function Normalized(w: Workflow, inputs: map<string, Raw>): (values: map<string, Value>)
    requires ValidInputs(w, inputs)
    ensures values.Keys == inputs.Keys
    ensures forall name :: name in inputs ==>
      Normalize(inputs[name]) == Some(values[name]) && KindAccepts(w.inputs[name].kind, values[name])
  {
    assert forall name :: name in inputs ==> InputAccepted(w.inputs[name], Supplied(inputs, name));
    map name | name in inputs :: Normalize(inputs[name]).value
  }

  // ----- resolution -----------------------------------------------------------------------

  /** `resolve_step_input`; `None` is the raised `DependencyPending`. */
  function Resolve(b: Binding, inputs: map<string, Value>, outputs: map<string, Value>): Option<Value>
    decreases b, 0
  {
    match b
    case Literal(v) => Some(v)
    case InputRef(name) => if name in inputs then Some(inputs[name]) else None
    case OutputRef(stepId) => if stepId in outputs then Some(outputs[stepId]) else None
    case Items(items) => (match ResolveItems(items, inputs, outputs) case Some(vs) => Some(List(vs)) case None => None)
    case Fields(fields) =>
      (match ResolveFields(fields, inputs, outputs) case Some(m) => Some(Object(m)) case None => None)
  }

  function ResolveItems(items: seq<Binding>, inputs: map<string, Value>, outputs: map<string, Value>)
    : Option<seq<Value>>
    decreases items, 0
  {
    if items == [] then Some([]) else
    match (Resolve(items[0], inputs, outputs), ResolveItems(items[1..], inputs, outputs))
    case (Some(v), Some(vs)) => Some([v] + vs)
    case _ => None
  }

  function ResolveFields(fields: seq<Field>, inputs: map<string, Value>, outputs: map<string, Value>)
    : Option<map<string, Value>>
    decreases fields, 0
  {
    if fields == [] then Some(map[]) else
    match (ResolveField(fields[0], inputs, outputs), ResolveFields(fields[1..], inputs, outputs))
    case (Some(v), Some(m)) => Some(map[fields[0].name := v] + m)
    case _ => None
  }

  function ResolveField(field: Field, inputs: map<string, Value>, outputs: map<string, Value>): Option<Value>
    decreases field, 0
  {
    Resolve(field.binding, inputs, outputs)
  }

  function StepInput(step: Step, inputs: map<string, Value>, outputs: map<string, Value>): Option<Value> {
    Resolve(Fields(step.bind), inputs, outputs)
  }

  function Lookup(r: Ref, inputs: map<string, Value>, outputs: map<string, Value>): Option<Value> {
    match r
    case In(name) => if name in inputs then Some(inputs[name]) else None
    case Out(stepId) => if stepId in outputs then Some(outputs[stepId]) else None
  }

  predicate Available(refs: seq<Ref>, inputs: map<string, Value>, outputs: map<string, Value>) {
    forall r :: r in refs ==> Lookup(r, inputs, outputs).Some?
  }

  /** Two environments give every reference the same value, or neither gives it one. */
  ghost predicate SameRefs(refs: seq<Ref>, i1: map<string, Value>, o1: map<string, Value>,
    i2: map<string, Value>, o2: map<string, Value>)
  {
    forall r :: r in refs ==> Lookup(r, i1, o1) == Lookup(r, i2, o2)
  }

  lemma {:induction false} ResolveNeedsRefs(b: Binding, i: map<string, Value>, o: map<string, Value>)
    ensures Resolve(b, i, o).Some? <==> Available(Walk(b), i, o)
    decreases b, 0
  {
    match b
    case Items(items) => ResolveItemsNeedRefs(items, i, o);
    case Fields(fields) => ResolveFieldsNeedRefs(fields, i, o);
    case InputRef(name) => assert In(name) in Walk(b);
    case OutputRef(stepId) => assert Out(stepId) in Walk(b);
    case _ =>
  }

  lemma {:induction false} ResolveItemsNeedRefs(items: seq<Binding>, i: map<string, Value>, o: map<string, Value>)
    ensures ResolveItems(items, i, o).Some? <==> Available(WalkItems(items), i, o)
    decreases items, 0
  {
    if items != [] {
      ResolveNeedsRefs(items[0], i, o);
      ResolveItemsNeedRefs(items[1..], i, o);
      SplitAvailable(Walk(items[0]), WalkItems(items[1..]), i, o);
    }
  }

  lemma {:induction false} ResolveFieldsNeedRefs(fields: seq<Field>, i: map<string, Value>, o: map<string, Value>)
    ensures ResolveFields(fields, i, o).Some? <==> Available(WalkFields(fields), i, o)
    decreases fields, 0
  {
    if fields != [] {
      ResolveFieldNeedsRefs(fields[0], i, o);
      ResolveFieldsNeedRefs(fields[1..], i, o);
      SplitAvailable(WalkField(fields[0]), WalkFields(fields[1..]), i, o);
    }
  }

  lemma {:induction false} ResolveFieldNeedsRefs(field: Field, i: map<string, Value>, o: map<string, Value>)
    ensures ResolveField(field, i, o).Some? <==> Available(WalkField(field), i, o)
    decreases field, 0
  {
    ResolveNeedsRefs(field.binding, i, o);
  }

  lemma SplitAvailable(a: seq<Ref>, b: seq<Ref>, i: map<string, Value>, o: map<string, Value>)
    ensures Available(a + b, i, o) <==> Available(a, i, o) && Available(b, i, o)
  {
    assert forall r :: r in a ==> r in a + b;
    assert forall r :: r in b ==> r in a + b;
  }

  lemma {:induction false} ResolveReadsRefs(b: Binding, i1: map<string, Value>, o1: map<string, Value>,
    i2: map<string, Value>, o2: map<string, Value>)
    requires SameRefs(Walk(b), i1, o1, i2, o2)
    ensures Resolve(b, i1, o1) == Resolve(b, i2, o2)
    decreases b, 0
  {
    match b
    case Items(items) => ResolveItemsReadRefs(items, i1, o1, i2, o2);
    case Fields(fields) => ResolveFieldsReadRefs(fields, i1, o1, i2, o2);
    case InputRef(name) => assert In(name) in Walk(b);
    case OutputRef(stepId) => assert Out(stepId) in Walk(b);
    case _ =>
  }

  lemma {:induction false} ResolveItemsReadRefs(items: seq<Binding>, i1: map<string, Value>, o1: map<string, Value>,
    i2: map<string, Value>, o2: map<string, Value>)
    requires SameRefs(WalkItems(items), i1, o1, i2, o2)
    ensures ResolveItems(items, i1, o1) == ResolveItems(items, i2, o2)
    decreases items, 0
  {
    if items != [] {
      SplitSame(Walk(items[0]), WalkItems(items[1..]), i1, o1, i2, o2);
      ResolveReadsRefs(items[0], i1, o1, i2, o2);
      ResolveItemsReadRefs(items[1..], i1, o1, i2, o2);
    }
  }

  lemma {:induction false} ResolveFieldsReadRefs(fields: seq<Field>, i1: map<string, Value>, o1: map<string, Value>,
    i2: map<string, Value>, o2: map<string, Value>)
    requires SameRefs(WalkFields(fields), i1, o1, i2, o2)
    ensures ResolveFields(fields, i1, o1) == ResolveFields(fields, i2, o2)
    decreases fields, 0
  {
    if fields != [] {
      SplitSame(WalkField(fields[0]), WalkFields(fields[1..]), i1, o1, i2, o2);
      ResolveFieldReadsRefs(fields[0], i1, o1, i2, o2);
      ResolveFieldsReadRefs(fields[1..], i1, o1, i2, o2);
    }
  }

  lemma {:induction false} ResolveFieldReadsRefs(field: Field, i1: map<string, Value>, o1: map<string, Value>,
    i2: map<string, Value>, o2: map<string, Value>)
    requires SameRefs(WalkField(field), i1, o1, i2, o2)
    ensures ResolveField(field, i1, o1) == ResolveField(field, i2, o2)
    decreases field, 0
  {
    ResolveReadsRefs(field.binding, i1, o1, i2, o2);
  }

  lemma SplitSame(a: seq<Ref>, b: seq<Ref>, i1: map<string, Value>, o1: map<string, Value>,
    i2: map<string, Value>, o2: map<string, Value>)
    requires SameRefs(a + b, i1, o1, i2, o2)
    ensures SameRefs(a, i1, o1, i2, o2) && SameRefs(b, i1, o1, i2, o2)
  {
    assert forall r :: r in a ==> r in a + b;
    assert forall r :: r in b ==> r in a + b;
  }

  /** A step's input is known exactly when every declared reference has a value. */
  lemma StepInputNeedsRefs(step: Step, i: map<string, Value>, o: map<string, Value>)
    ensures StepInput(step, i, o).Some? <==> Available(Refs(step), i, o)
  {
    ResolveNeedsRefs(Fields(step.bind), i, o);
  }

  /** A step's input depends on nothing but its declared references. */
  lemma StepInputReadsRefs(step: Step, i1: map<string, Value>, o1: map<string, Value>,
    i2: map<string, Value>, o2: map<string, Value>)
    requires SameRefs(Refs(step), i1, o1, i2, o2)
    ensures StepInput(step, i1, o1) == StepInput(step, i2, o2)
  {
    ResolveReadsRefs(Fields(step.bind), i1, o1, i2, o2);
  }

  ghost predicate Extends(small: map<string, Value>, large: map<string, Value>) {
    forall k :: k in small ==> k in large && large[k] == small[k]
  }

  /** More outputs never change an input that is already known. */
  lemma StepInputMonotone(step: Step, i: map<string, Value>, small: map<string, Value>, large: map<string, Value>)
    requires Extends(small, large) && StepInput(step, i, small).Some?
    ensures StepInput(step, i, large) == StepInput(step, i, small)
  {
    StepInputNeedsRefs(step, i, small);
    StepInputReadsRefs(step, i, small, i, large);
  }

  // ----- signatures -----------------------------------------------------------------------

  function InputPayload(scope: Scope, workflowId: string, version: string, stepId: string,
    implementationId: string, input: Value): Value
  {
    Object(map[
      "tenant_id" := Text(scope.tenant),
      "project_id" := Text(scope.project),
      "workflow_id" := Text(workflowId),
      "workflow_version" := Text(version),
      "step_id" := Text(stepId),
      "implementation_id" := Text(implementationId),
      "effective_input" := input])
  }

  function SignatureOf(scope: Scope, workflowId: string, version: string, stepId: string,
    implementationId: string, input: Value): Signature
  {
    Signature("input", Print(InputPayload(scope, workflowId, version, stepId, implementationId, input)))
  }

  function InputSignature(scope: Scope, w: Workflow, step: Step, input: Value): Signature {
    SignatureOf(scope, w.id, w.version, step.id, step.implementationId, input)
  }

  function OutputSignature(output: Value): Signature {
    Signature("output", Print(output))
  }

  /** Equal input signatures name the same scope, workflow, version, step, implementation and input. */
  lemma SignatureIdentifiesInput(s1: Scope, w1: string, v1: string, t1: string, m1: string, e1: Value,
    s2: Scope, w2: string, v2: string, t2: string, m2: string, e2: Value)
    requires SignatureOf(s1, w1, v1, t1, m1, e1) == SignatureOf(s2, w2, v2, t2, m2, e2)
    ensures s1 == s2 && w1 == w2 && v1 == v2 && t1 == t2 && m1 == m2 && e1 == e2
  {
    var p1, p2 := InputPayload(s1, w1, v1, t1, m1, e1), InputPayload(s2, w2, v2, t2, m2, e2);
    PrintInjective(p1, p2);
    PayloadFields(s1, w1, v1, t1, m1, e1);
    PayloadFields(s2, w2, v2, t2, m2, e2);
  }

  lemma PayloadFields(scope: Scope, w: string, v: string, t: string, m: string, e: Value)
    ensures var f := InputPayload(scope, w, v, t, m, e).members;
      && {"tenant_id", "project_id", "workflow_id", "workflow_version", "step_id"} <= f.Keys
      && {"implementation_id", "effective_input"} <= f.Keys
      && f["tenant_id"] == Text(scope.tenant) && f["project_id"] == Text(scope.project)
      && f["workflow_id"] == Text(w) && f["workflow_version"] == Text(v) && f["step_id"] == Text(t)
      && f["implementation_id"] == Text(m) && f["effective_input"] == e
  {
  }

  lemma OutputSignatureIdentifiesOutput(a: Value, b: Value)
    requires OutputSignature(a) == OutputSignature(b)
    ensures a == b
  {
    PrintInjective(a, b);
  }

  // ----- reuse ----------------------------------------------------------------------------

  predicate IsFresh(r: WorkResult, now: int) {
    match r.freshUntil
    case None => true
    case Some(t) => now < t
  }

  predicate ArtifactUsable(r: WorkResult) {
    match r.artifact
    case None => true
    case Some(a) => a.available
  }

  /** `WorkResult.matches`. */
  predicate Matches(r: WorkResult, scope: Scope, w: Workflow, step: Step, expected: Signature, now: int) {
    && r.scope == scope
    && r.workflowId == w.id
    && r.stepId == step.id
    && r.implementationId == step.implementationId
    && r.inputSignature == expected
    && IsFresh(r, now)
    && ArtifactUsable(r)
  }
}
