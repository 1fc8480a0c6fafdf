/** What the values of a request become and which requests are accepted, in terms of what the caller handed in. */
module RequestLaws {
  import opened Options
  import opened Json
  import opened Types
  import opened Core
  import opened Planning

  // ----- values ---------------------------------------------------------------------------

  /** The keys of every dict are distinct, as in Python. */
  predicate DistinctKeys(raw: Raw)
    decreases raw, 0
  {
    match raw
    case RawList(items) => forall k :: 0 <= k < |items| ==> DistinctKeys(items[k])
    case RawDict(entries) =>
      && (forall j, k :: 0 <= j < k < |entries| && entries[j].key.TextKey? ==> entries[j].key != entries[k].key)
      && (forall k :: 0 <= k < |entries| ==> DistinctKeysBelow(entries[k]))
    case _ => true
  }

  predicate DistinctKeysBelow(entry: Entry)
    decreases entry, 0
  {
    DistinctKeys(entry.value)
  }

  /** `v` is the JSON for `raw`: the same constant, number or text; a date's ISO text; a list of what the items stand
      for; an object of what the entries stand for, all of whose keys are texts. */
  ghost predicate StandsFor(raw: Raw, v: Value)
    decreases raw, 0
  {
    match raw
    case RawNull => v == Null
    case RawBool(b) => v == Bool(b)
    case RawInt(n) => v == Int(n)
    case RawText(s) => v == Text(s)
    case RawDate(iso) => v == Text(iso)
    case RawOpaque => false
    case RawList(items) =>
      v.List? && |v.items| == |items| && forall k :: 0 <= k < |items| ==> StandsFor(items[k], v.items[k])
    case RawDict(entries) => v.Object? && AllStandFor(entries, v.members)
  }

  ghost predicate AllStandFor(entries: seq<Entry>, members: map<string, Value>)
    decreases entries, 1
  {
    && (forall k :: 0 <= k < |entries| ==> entries[k].key.TextKey?)
    && (forall n :: n in members <==> EntryNamed(entries, n).Some?)
    && (forall n :: n in members ==> EntryStandsFor(EntryNamed(entries, n).value, members[n]))
  }

  function EntryNamed(entries: seq<Entry>, name: string): (entry: Option<Entry>)
    ensures entry.Some? ==> entry.value in entries && entry.value.key == TextKey(name)
  {
    if entries == [] then None
    else if entries[0].key == TextKey(name) then Some(entries[0])
    else EntryNamed(entries[1..], name)
  }

  ghost predicate EntryStandsFor(entry: Entry, v: Value)
    decreases entry, 0
  {
    StandsFor(entry.value, v)
  }

  ghost predicate DistinctEntries(entries: seq<Entry>) {
    forall j, k :: 0 <= j < k < |entries| && entries[j].key.TextKey? ==> entries[j].key != entries[k].key
  }

  lemma OtherKeys(entries: seq<Entry>, name: string)
    requires entries != [] && DistinctEntries(entries)
    ensures entries[0].key == TextKey(name) ==>
      EntryNamed(entries, name) == Some(entries[0]) && EntryNamed(entries[1..], name).None?
    ensures entries[0].key != TextKey(name) ==> EntryNamed(entries, name) == EntryNamed(entries[1..], name)
  {
    var found := EntryNamed(entries[1..], name);
    if found.Some? {
      var k :| 0 <= k < |entries[1..]| && entries[1..][k] == found.value;
      assert entries[k + 1] == found.value;
    }
  }

  /** The first entry's member, and the rest. */
  lemma FirstAndRest(entries: seq<Entry>, members: map<string, Value>)
    requires entries != [] && DistinctEntries(entries) && entries[0].key.TextKey?
    ensures var name := entries[0].key.name;
      AllStandFor(entries, members) <==>
        && name in members && EntryStandsFor(entries[0], members[name])
        && AllStandFor(entries[1..], members - {name})
  {
    hide EntryStandsFor, EntryNamed, DistinctEntries;
    forall n { OtherKeys(entries, n); }
    assert forall k :: 1 <= k < |entries| ==> entries[k] == entries[1..][k - 1];
    forall k | 0 <= k < |entries[1..]| ensures entries[1..][k] == entries[k + 1] { }
  }

  lemma {:induction false} EntriesNormalizeExactly(entries: seq<Entry>, members: map<string, Value>)
    requires DistinctEntries(entries) && forall k :: 0 <= k < |entries| ==> DistinctKeysBelow(entries[k])
    ensures NormalizeEntries(entries) == Some(members) <==> AllStandFor(entries, members)
    decreases entries, 0
  {
    hide AllStandFor, NormalizeEntry, DistinctKeysBelow;
    if entries == [] {
      NoEntries(entries, members);
    } else if entries[0].key.TextKey? {
      var name, rest := entries[0].key.name, entries[1..];
      FirstAndRest(entries, members);
      EntriesNormalizeExactly(rest, members - {name});
      if name in members {
        EntryNormalizesExactly(entries[0], members[name]);
        assert map[name := members[name]] + (members - {name}) == members;
      }
      if NormalizeEntries(entries) == Some(members) {
        var m := NormalizeEntries(rest).value;
        EntriesNormalizeExactly(rest, m);
        RestHasOtherKeys(entries, m);
        assert m == members - {name};
      }
    } else {
      KeysAreTexts(entries, members);
    }
  }

  lemma NoEntries(entries: seq<Entry>, members: map<string, Value>)
    requires entries == []
    ensures AllStandFor(entries, members) <==> members == map[]
  {
  }

  lemma KeysAreTexts(entries: seq<Entry>, members: map<string, Value>)
    ensures entries != [] && AllStandFor(entries, members) ==> entries[0].key.TextKey?
  {
  }

  lemma RestHasOtherKeys(entries: seq<Entry>, members: map<string, Value>)
    requires entries != [] && DistinctEntries(entries) && entries[0].key.TextKey? && AllStandFor(entries[1..], members)
    ensures entries[0].key.name !in members
  {
    hide EntryNamed;
    OtherKeys(entries, entries[0].key.name);
  }

  lemma {:induction false} EntryNormalizesExactly(entry: Entry, v: Value)
    requires DistinctKeysBelow(entry)
    ensures NormalizeEntry(entry) == Some(v) <==> EntryStandsFor(entry, v)
    decreases entry, 0
  {
    NormalizesExactly(entry.value, v);
  }

  lemma {:induction false} ItemsNormalizeExactly(items: seq<Raw>, vs: seq<Value>)
    requires forall k :: 0 <= k < |items| ==> DistinctKeys(items[k])
    ensures NormalizeItems(items) == Some(vs) <==>
      |vs| == |items| && forall k :: 0 <= k < |items| ==> StandsFor(items[k], vs[k])
    decreases items, 0
  {
    hide Normalize, StandsFor, DistinctKeys;
    if items != [] && vs != [] {
      NormalizesExactly(items[0], vs[0]);
      ItemsNormalizeExactly(items[1..], vs[1..]);
      assert vs == [vs[0]] + vs[1..];
      assert forall k :: 1 <= k < |items| ==> items[k] == items[1..][k - 1];
      assert forall k :: 1 <= k < |vs| ==> vs[k] == vs[1..][k - 1];
    }
  }

  /** Normalization gives a Python value the one JSON value that stands for it, and refuses it when there is none. */
  lemma {:induction false} NormalizesExactly(raw: Raw, v: Value)
    requires DistinctKeys(raw)
    ensures Normalize(raw) == Some(v) <==> StandsFor(raw, v)
    decreases raw, 0
  {
    match raw
    case RawList(items) =>
      if v.List? { ItemsNormalizeExactly(items, v.items); }
    case RawDict(entries) =>
      if v.Object? { EntriesNormalizeExactly(entries, v.members); }
    case _ =>
  }

  // ----- requests -------------------------------------------------------------------------

  /** What was handed in is of the declared kind, dates counting as texts. */
  ghost predicate IsOfKind(kind: Kind, raw: Raw) {
    match kind
    case AnyJson => exists v :: StandsFor(raw, v)
    case StringInput => raw.RawText? || raw.RawDate?
    case DateInput => raw.RawText? || raw.RawDate?
    case BooleanInput => raw.RawBool?
    case IntegerInput => raw.RawInt?
    case NumberInput => raw.RawInt?
  }

  ghost predicate InputsFit(w: Workflow, inputs: map<string, Raw>) {
    && (forall name :: name in inputs ==> name in w.inputs && IsOfKind(w.inputs[name].kind, inputs[name]))
    && (forall name :: name in w.inputs && w.inputs[name].required ==> name in inputs)
  }

  lemma KindFits(kind: Kind, raw: Raw)
    requires DistinctKeys(raw)
    ensures Normalize(raw).Some? && KindAccepts(kind, Normalize(raw).value) <==> IsOfKind(kind, raw)
  {
    hide StandsFor;
    if Normalize(raw).Some? {
      NormalizesExactly(raw, Normalize(raw).value);
      assert StandsFor(raw, Normalize(raw).value);
    }
    if v :| StandsFor(raw, v) {
      NormalizesExactly(raw, v);
    }
  }

  /** Inputs are accepted exactly when every one is declared and of its kind and no required one is missing. */
  lemma InputsAcceptedExactly(w: Workflow, inputs: map<string, Raw>)
    requires forall name :: name in inputs ==> DistinctKeys(inputs[name])
    ensures ValidInputs(w, inputs) <==> InputsFit(w, inputs)
  {
    hide IsOfKind, KindAccepts, Normalize, DistinctKeys;
    forall name | name in inputs && name in w.inputs
      ensures InputAccepted(w.inputs[name], Supplied(inputs, name)) <==> IsOfKind(w.inputs[name].kind, inputs[name])
    {
      KindFits(w.inputs[name].kind, inputs[name]);
    }
  }

  /** The query that an accepted request asks: its project, workflow and time, its inputs as JSON, and its steps, each
      once, dependencies first. */
  lemma QueryIsTheRequest(request: Request, now: int)
    requires Accepted(request) && forall name :: name in request.inputs ==> DistinctKeys(request.inputs[name])
    ensures var q := QueryOf(request, now);
      && (q.scope, q.w, q.now) == (request.scope, request.workflow, now)
      && q.inputs.Keys == request.inputs.Keys
      && (forall name :: name in request.inputs ==> StandsFor(request.inputs[name], q.inputs[name]))
      && Sequenced(q.steps) && (forall s :: s in q.steps <==> s in request.workflow.steps)
  {
    hide StandsFor, Normalize, DistinctKeys, ValidWorkflow, Ordered, Sequenced, ValidInputs;
    var q := QueryOf(request, now);
    forall name | name in request.inputs ensures StandsFor(request.inputs[name], q.inputs[name]) {
      NormalizesExactly(request.inputs[name], q.inputs[name]);
    }
    OrderedIsSequenced(request.workflow);
    OrderedHasAllSteps(request.workflow);
  }
}
