/** The semantic BPMN elements the renderer reads through the BPMN registry,
    and the three lookups it performs on them: `checkSemantic`,
    `isThrowObject` and `getObjectRef`. */
module Semantics {
  import opened Wrappers

  /** The JavaScript values that the renderer tests on semantic elements.
      Strict comparison with `true` and truthiness differ on them. */
  datatype JsValue =
    | Undefined
    | Null
    | Bool(b: bool)
    | Num(n: int)
    | Str(s: string)
    | Obj

  /** JavaScript truthiness, as used by `!x` and `!!x` (NaN is not modelled). */
  predicate Truthy(v: JsValue) {
    match v
    case Undefined => false
    case Null => false
    case Bool(b) => b
    case Num(n) => n != 0
    case Str(s) => s != ""
    case Obj => true
  }

  /** `v === true` */
  predicate StrictTrue(v: JsValue) {
    v == Bool(true)
  }

  /** An event definition attached to an event; only its `$type` is read. */
  datatype EventDefinition = EventDefinition(typeName: string)

  /** A semantic element as far as the renderer reads it.
      `eventDefinitions` is `None` when the property is absent;
      `dataObjectRef` is `None` when the element references no data object,
      otherwise the referenced object's properties by name. */
  datatype Semantic = Semantic(
    typeName: string,
    eventDefinitions: Option<seq<EventDefinition>>,
    parallelMultiple: JsValue,
    isCollection: JsValue,
    dataObjectRef: Option<map<string, JsValue>>)

  /** The BPMN registry: semantic elements by element id. */
  type Registry = map<string, Semantic>

  function GetSemantic(registry: Registry, id: string): Option<Semantic> {
    if id in registry then Some(registry[id]) else None
  }

  /** Whether some event definition of the (possibly missing) semantic
      element has exactly the given `$type`. */
  predicate HasDefinition(semantic: Option<Semantic>, semanticType: string) {
    && semantic.Some?
    && semantic.value.eventDefinitions.Some?
    && exists i :: 0 <= i < |semantic.value.eventDefinitions.value| &&
                   semantic.value.eventDefinitions.value[i].typeName == semanticType
  }

  /** `checkSemantic(id, semanticType)`: false without a semantic element or
      without event definitions; otherwise a pass over every definition that
      raises a flag on an exact match. */
  method CheckSemantic(registry: Registry, id: string, semanticType: string) returns (found: bool)
    ensures found == HasDefinition(GetSemantic(registry, id), semanticType)
    ensures found <==> id in registry && registry[id].eventDefinitions.Some? &&
                       exists d :: d in registry[id].eventDefinitions.value && d.typeName == semanticType
  {
    var semantic := GetSemantic(registry, id);
    if semantic.None? || semantic.value.eventDefinitions.None? {
      return false;
    }
    var definitions := semantic.value.eventDefinitions.value;
    found := false;
    var i := 0;
    while i < |definitions|
      invariant 0 <= i <= |definitions|
      invariant found <==> exists j :: 0 <= j < i && definitions[j].typeName == semanticType
    {
      if definitions[i].typeName == semanticType {
        found := true;
      }
      i := i + 1;
    }
  }

  /** `isThrowObject`: the element's own `$type` decides throw styling. */
  predicate IsThrowObject(semantic: Semantic) {
    semantic.typeName == "bpmn:IntermediateThrowEvent" || semantic.typeName == "bpmn:EndEvent"
  }

  /** `getObjectRef(id, refName)`: `false` without a semantic element or a
      data object reference, otherwise the referenced object's property
      (undefined when it has none of that name). */
  function GetObjectRef(semantic: Option<Semantic>, refName: string): JsValue {
    if semantic.None? || semantic.value.dataObjectRef.None? then Bool(false)
    else if refName in semantic.value.dataObjectRef.value then semantic.value.dataObjectRef.value[refName]
    else Undefined
  }

  /** The collection test of the data object handler: both sides compared
      with `=== true`. Only reached with a semantic element present. */
  predicate IsCollection(semantic: Semantic) {
    StrictTrue(GetObjectRef(Some(semantic), "isCollection")) || StrictTrue(semantic.isCollection)
  }

  /** The collection test is true exactly when the referenced data object or
      the element itself carries `isCollection` equal to boolean true. */
  lemma IsCollectionIff(semantic: Semantic)
    ensures IsCollection(semantic) <==>
      || (semantic.dataObjectRef.Some? && "isCollection" in semantic.dataObjectRef.value &&
          semantic.dataObjectRef.value["isCollection"] == Bool(true))
      || semantic.isCollection == Bool(true)
  {
  }

  /** `getObjectRef` yields `false` when there is nothing to read. */
  lemma GetObjectRefMissing(semantic: Option<Semantic>, refName: string)
    requires semantic.None? || semantic.value.dataObjectRef.None?
    ensures GetObjectRef(semantic, refName) == Bool(false)
  {
  }

  /** The test is strict: whatever values other than `true` the element and
      its data object carry, truthy or not, the collection test fails. */
  lemma TruthyIsNotCollection(semantic: Semantic)
    requires semantic.isCollection != Bool(true)
    requires GetObjectRef(Some(semantic), "isCollection") != Bool(true)
    ensures !IsCollection(semantic)
  {
  }

  /** Truthy values that are not `true` exist on both sides: 1, `"true"`
      and an object leave an element that is not a collection. */
  lemma TruthyValuesAreNotTrue(semantic: Semantic, v: JsValue)
    requires v == Num(1) || v == Str("true") || v == Obj
    requires semantic.isCollection == v
    requires semantic.dataObjectRef == Some(map["isCollection" := v])
    ensures Truthy(v) && !IsCollection(semantic)
  {
  }
}
