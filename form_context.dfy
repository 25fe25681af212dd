/** The report form store of the mobile app
    (front-native/app/context/FormContext.tsx): one state cell holding the
    form data, updated by shallow merges of partial patches. */
module FormContext {
  import opened Common

  /** The JavaScript values the form keeps in its `data` record. */
  datatype JsValue =
    | JNull
    | JBool(boolValue: bool)
    | JNumber(numberValue: real)
    | JString(stringValue: string)
    | JObject(entries: seq<Entry>)

  datatype Entry = Entry(key: string, value: JsValue)

  /** A plain object, its keys in insertion order (the order of
      `Object.entries`). */
  type Record = seq<Entry>

  /** JavaScript truthiness. */
  predicate Truthy(v: JsValue) {
    match v
    case JNull => false
    case JBool(b) => b
    case JNumber(n) => n != 0.0
    case JString(s) => s != ""
    case JObject(_) => true
  }

  function Keys(rec: Record): (r: seq<string>)
    ensures |r| == |rec|
    ensures forall i :: 0 <= i < |rec| ==> r[i] == rec[i].key
  {
    if rec == [] then [] else [rec[0].key] + Keys(rec[1..])
  }

  /** `rec[key]`, `None` standing for `undefined`; the first entry with the
      key answers. */
  function Lookup(rec: Record, key: string): (r: Option<JsValue>)
    ensures r.None? <==> forall i :: 0 <= i < |rec| ==> rec[i].key != key
    ensures r.Some? && rec[0].key == key ==> r.value == rec[0].value
  {
    if rec == [] then None
    else if rec[0].key == key then Some(rec[0].value)
    else Lookup(rec[1..], key)
  }

  /** `{ ...rec, [key]: value }`: an existing key keeps its place and takes
      the new value, a new key goes last; every other entry stays. */
  function Assign(rec: Record, key: string, value: JsValue): (r: Record)
    ensures Lookup(r, key) == Some(value)
    ensures forall k :: k != key ==> Lookup(r, k) == Lookup(rec, k)
  {
    if rec == [] then [Entry(key, value)]
    else if rec[0].key == key then
      var r := [Entry(key, value)] + rec[1..];
      assert r[1..] == rec[1..];
      r
    else
      var rest := Assign(rec[1..], key, value);
      var r := [rec[0]] + rest;
      assert r[0] == rec[0] && r[1..] == rest;
      r
  }

  /** Assigning an existing key keeps the key order; a new key goes last. */
  lemma {:induction false} AssignKeys(rec: Record, key: string, value: JsValue)
    ensures Lookup(rec, key).Some? ==> Keys(Assign(rec, key, value)) == Keys(rec)
    ensures Lookup(rec, key).None? ==> Keys(Assign(rec, key, value)) == Keys(rec) + [key]
  {
    if rec != [] && rec[0].key != key {
      AssignKeys(rec[1..], key, value);
      var rest := Assign(rec[1..], key, value);
      var r := Assign(rec, key, value);
      assert r == [rec[0]] + rest;
      assert r[1..] == rest;
      assert Keys(r) == [rec[0].key] + Keys(rest);
      assert Keys(rec) == [rec[0].key] + Keys(rec[1..]);
    }
  }

  /** `FormData`. */
  datatype FormData = FormData(
    componentsIdentifiers: seq<string>,
    componentIndex: int,
    data: Option<Record>,
    category: string)

  /** The state a provider starts from: the given initial state, else no
      components, index 0, no category and no data. */
  function InitialFormData(initialState: Option<FormData>): (r: FormData)
    ensures initialState.Some? ==> r == initialState.value
    ensures initialState.None? ==>
      r.componentsIdentifiers == [] && r.componentIndex == 0 && r.category == "" && r.data.None?
  {
    initialState.GetOr(FormData([], 0, None, ""))
  }

  /** `Partial<FormData>`: the fields a patch carries. */
  datatype FormPatch = FormPatch(
    componentsIdentifiers: Option<seq<string>>,
    componentIndex: Option<int>,
    data: Option<Record>,
    category: Option<string>)

  const EmptyPatch: FormPatch := FormPatch(None, None, None, None)

  /** The patch `{ data: rec }` the report steps send. */
  function DataPatch(rec: Record): (r: FormPatch)
    ensures r.data == Some(rec)
    ensures r.componentsIdentifiers.None? && r.componentIndex.None? && r.category.None?
  {
    EmptyPatch.(data := Some(rec))
  }

  /** `{ ...previous, ...patch }`: each field the patch carries replaces the
      previous one whole (a patched `data` record is not merged into the old
      one); the other fields are kept. */
  function Merge(previous: FormData, patch: FormPatch): (r: FormData)
    ensures patch.componentsIdentifiers.Some? ==> r.componentsIdentifiers == patch.componentsIdentifiers.value
    ensures patch.componentsIdentifiers.None? ==> r.componentsIdentifiers == previous.componentsIdentifiers
    ensures patch.componentIndex.Some? ==> r.componentIndex == patch.componentIndex.value
    ensures patch.componentIndex.None? ==> r.componentIndex == previous.componentIndex
    ensures patch.data.Some? ==> r.data == patch.data
    ensures patch.data.None? ==> r.data == previous.data
    ensures patch.category.Some? ==> r.category == patch.category.value
    ensures patch.category.None? ==> r.category == previous.category
  {
    FormData(
      patch.componentsIdentifiers.GetOr(previous.componentsIdentifiers),
      patch.componentIndex.GetOr(previous.componentIndex),
      if patch.data.Some? then patch.data else previous.data,
      patch.category.GetOr(previous.category))
  }

  /** The empty patch changes nothing. */
  lemma MergeEmptyPatch(previous: FormData)
    ensures Merge(previous, EmptyPatch) == previous
  {
  }

  /** Applying the same patch twice is applying it once. */
  lemma MergeIdempotent(previous: FormData, patch: FormPatch)
    ensures Merge(Merge(previous, patch), patch) == Merge(previous, patch)
  {
  }

  /** Merge is shallow: a patched `data` record drops every key of the old
      one that it does not itself carry. */
  lemma MergeReplacesData(previous: FormData, rec: Record, key: string)
    requires previous.data.Some? && key !in Keys(rec)
    ensures Merge(previous, DataPatch(rec)).data.value == rec
    ensures Lookup(Merge(previous, DataPatch(rec)).data.value, key).None?
  {
  }

  /** The later of two patches wins field by field. */
  function Then(first: FormPatch, second: FormPatch): FormPatch {
    FormPatch(
      second.componentsIdentifiers.OrElse(first.componentsIdentifiers),
      second.componentIndex.OrElse(first.componentIndex),
      second.data.OrElse(first.data),
      second.category.OrElse(first.category))
  }

  /** Two successive merges are one merge of the combined patch. */
  lemma MergeTwice(previous: FormData, first: FormPatch, second: FormPatch)
    ensures Merge(Merge(previous, first), second) == Merge(previous, Then(first, second))
  {
  }

  /** `FormUpdater`: a patch, or a function of the current state giving one. */
  datatype FormUpdater =
    | ObjectPatch(patch: FormPatch)
    | FunctionPatch(compute: FormData -> FormPatch)

  function PatchOf(updater: FormUpdater, current: FormData): (r: FormPatch)
    ensures updater.ObjectPatch? ==> r == updater.patch
    ensures updater.FunctionPatch? ==> r == updater.compute(current)
  {
    match updater
    case ObjectPatch(p) => p
    case FunctionPatch(f) => f(current)
  }

  /** `FormProvider`'s state cell. */
  class FormStore {
    var state: FormData

    constructor(initialState: Option<FormData>)
      ensures state == InitialFormData(initialState)
    {
      state := InitialFormData(initialState);
    }

    /** `updateData(updater)`. */
    method UpdateData(updater: FormUpdater)
      modifies this
      ensures state == Merge(old(state), PatchOf(updater, old(state)))
    {
      state := Merge(state, PatchOf(updater, state));
    }
  }
}
