/** The `handlers` table of the renderer: one entry per BPMN type name,
    either a drawing routine of its own or an alias built by `as(type)` that
    forwards to another entry. */
module HandlerTable {
  import opened Wrappers
  import opened EventContent

  /** The distinct drawing routines of the table. */
  datatype Kind =
    | EventK | StartEventK | EndEventK | IntermediateEventK | IntermediateInterruptedEventK | BoundaryEventK
    | GlyphK(glyph: Glyph)
    | ActivityK | TransactionK | CallActivityK | LaneK | GatewayK
    | SequenceFlowK | AssociationK | DataInputAssociationK | DataOutputAssociationK | MessageFlowK
    | DataObjectReferenceK | DataInputK | DataOutputK | DataStoreReferenceK

  /** A table entry: a routine of its own, or `as(target)`. */
  datatype Entry = Own(kind: Kind) | As(target: string)

  /** `handlers[tag]`: the entry whose key is exactly `tag`, if any. The
      fifty keys of the object literal are listed by key length and, within
      one length, in the order of the literal; a key of another length can
      never be equal to `tag`, so this is the same exact-key lookup. */
  function Handlers(tag: string): Option<Entry> {
    match |tag|
    case 9 => (match tag
      case "bpmn:Task" => Some(As("bpmn:Activity"))
      case "bpmn:Lane" => Some(Own(LaneK))
      case _ => None)
    case 10 => (match tag
      case "bpmn:Event" => Some(Own(EventK))
      case _ => None)
    case 12 => (match tag
      case "bpmn:Gateway" => Some(Own(GatewayK))
      case _ => None)
    case 13 => (match tag
      case "bpmn:EndEvent" => Some(Own(EndEventK))
      case "bpmn:Activity" => Some(Own(ActivityK))
      case "bpmn:UserTask" => Some(As("bpmn:Activity"))
      case "bpmn:SendTask" => Some(As("bpmn:Activity"))
      case _ => None)
    case 14 => (match tag
      case "bpmn:DataInput" => Some(Own(DataInputK))
      case _ => None)
    case 15 => (match tag
      case "bpmn:StartEvent" => Some(Own(StartEventK))
      case "bpmn:ManualTask" => Some(As("bpmn:Activity"))
      case "bpmn:ScriptTask" => Some(As("bpmn:Activity"))
      case "bpmn:SubProcess" => Some(As("bpmn:Activity"))
      case "bpmn:DataOutput" => Some(Own(DataOutputK))
      case _ => None)
    case 16 => (match tag
      case "bpmn:ServiceTask" => Some(As("bpmn:Activity"))
      case "bpmn:ReceiveTask" => Some(As("bpmn:Activity"))
      case "bpmn:Transaction" => Some(Own(TransactionK))
      case "bpmn:Participant" => Some(As("bpmn:Lane"))
      case "bpmn:Association" => Some(Own(AssociationK))
      case "bpmn:MessageFlow" => Some(Own(MessageFlowK))
      case _ => None)
    case 17 => (match tag
      case "bpmn:CallActivity" => Some(Own(CallActivityK))
      case "bpmn:SequenceFlow" => Some(Own(SequenceFlowK))
      case _ => None)
    case 18 => (match tag
      case "bpmn:BoundaryEvent" => Some(Own(BoundaryEventK))
      case _ => None)
    case 19 => (match tag
      case "bpmn:ComplexGateway" => Some(As("bpmn:Gateway"))
      case _ => None)
    case 20 => (match tag
      case "bpmn:AdHocSubProcess" => Some(As("bpmn:Activity"))
      case "bpmn:ParallelGateway" => Some(As("bpmn:Gateway"))
      case _ => None)
    case 21 => (match tag
      case "bpmn:BusinessRuleTask" => Some(As("bpmn:Activity"))
      case "bpmn:InclusiveGateway" => Some(As("bpmn:Gateway"))
      case "bpmn:ExclusiveGateway" => Some(As("bpmn:Gateway"))
      case _ => None)
    case 22 => (match tag
      case "bpmn:IntermediateEvent" => Some(Own(IntermediateEventK))
      case "bpmn:EventBasedGateway" => Some(As("bpmn:Gateway"))
      case _ => None)
    case 23 => (match tag
      case "bpmn:DataStoreReference" => Some(Own(DataStoreReferenceK))
      case _ => None)
    case 24 => (match tag
      case "bpmn:LinkEventDefinition" => Some(Own(GlyphK(Link)))
      case "bpmn:DataObjectReference" => Some(Own(DataObjectReferenceK))
      case _ => None)
    case 25 => (match tag
      case "bpmn:TimerEventDefinition" => Some(Own(GlyphK(Timer)))
      case "bpmn:ErrorEventDefinition" => Some(Own(GlyphK(Error)))
      case "bpmn:DataInputAssociation" => Some(Own(DataInputAssociationK))
      case _ => None)
    case 26 => (match tag
      case "bpmn:CancelEventDefinition" => Some(Own(GlyphK(Cancel)))
      case "bpmn:SignalEventDefinition" => Some(Own(GlyphK(Signal)))
      case "bpmn:DataOutputAssociation" => Some(Own(DataOutputAssociationK))
      case _ => None)
    case 27 => (match tag
      case "bpmn:MessageEventDefinition" => Some(Own(GlyphK(Message)))
      case "bpmn:IntermediateCatchEvent" => Some(As("bpmn:IntermediateEvent"))
      case "bpmn:IntermediateThrowEvent" => Some(As("bpmn:IntermediateEvent"))
      case _ => None)
    case 28 => (match tag
      case "bpmn:MultipleEventDefinition" => Some(Own(GlyphK(Multiple)))
      case _ => None)
    case 29 => (match tag
      case "bpmn:TerminateEventDefinition" => Some(Own(GlyphK(Terminate)))
      case _ => None)
    case 30 => (match tag
      case "bpmn:EscalationEventDefinition" => Some(Own(GlyphK(Escalation)))
      case "bpmn:CompensateEventDefinition" => Some(Own(GlyphK(Compensate)))
      case _ => None)
    case 31 => (match tag
      case "bpmn:ConditionalEventDefinition" => Some(Own(GlyphK(Conditional)))
      case _ => None)
    case 33 => (match tag
      case "bpmn:IntermediateInterruptedEvent" => Some(Own(IntermediateInterruptedEventK))
      case _ => None)
    case 36 => (match tag
      case "bpmn:ParallelMultipleEventDefinition" => Some(Own(GlyphK(ParallelMultiple)))
      case _ => None)
    case _ => None
  }

  /** The routine that `handlers[tag]` runs, an alias followed to its
      target; `None` when the table has no entry with exactly that key. */
  function Resolve(tag: string): Option<Kind> {
    match Handlers(tag)
    case None => None
    case Some(Own(k)) => Some(k)
    case Some(As(target)) =>
      match Handlers(target)
      case Some(Own(k)) => Some(k)
      case _ => None
  }

  /** The four keys that `as(type)` entries forward to. */
  predicate IsAliasTarget(x: string) {
    x == "bpmn:IntermediateEvent" || x == "bpmn:Activity" || x == "bpmn:Lane" || x == "bpmn:Gateway"
  }

  /** The task and sub-process keys built with `as('bpmn:Activity')`. */
  function ActivityAliases(): set<string> {
    {"bpmn:Task", "bpmn:ServiceTask", "bpmn:UserTask", "bpmn:ManualTask", "bpmn:SendTask",
     "bpmn:ReceiveTask", "bpmn:ScriptTask", "bpmn:BusinessRuleTask", "bpmn:SubProcess",
     "bpmn:AdHocSubProcess"}
  }

  /** The gateway keys built with `as('bpmn:Gateway')`. */
  function GatewayAliases(): set<string> {
    {"bpmn:InclusiveGateway", "bpmn:ExclusiveGateway", "bpmn:ComplexGateway",
     "bpmn:ParallelGateway", "bpmn:EventBasedGateway"}
  }

  /** The catch and throw keys built with `as('bpmn:IntermediateEvent')`. */
  function IntermediateAliases(): set<string> {
    {"bpmn:IntermediateCatchEvent", "bpmn:IntermediateThrowEvent"}
  }

  /** The keys built with `as(x)`, by target. */
  function AliasesOf(x: string): set<string> {
    if x == "bpmn:IntermediateEvent" then IntermediateAliases()
    else if x == "bpmn:Activity" then ActivityAliases()
    else if x == "bpmn:Lane" then {"bpmn:Participant"}
    else if x == "bpmn:Gateway" then GatewayAliases()
    else {}
  }

  // The table is split at key length 20 so that each of the following
  // proofs case-splits over only part of it.

  lemma AliasTargetShortKey(tag: string)
    requires |tag| <= 20 && Handlers(tag).Some? && Handlers(tag).value.As?
    ensures IsAliasTarget(Handlers(tag).value.target)
  {
  }

  lemma AliasTargetLongKey(tag: string)
    requires |tag| > 20 && Handlers(tag).Some? && Handlers(tag).value.As?
    ensures IsAliasTarget(Handlers(tag).value.target)
  {
  }

  /** Every `as(type)` entry forwards to one of the four alias targets. */
  lemma AliasTargetOf(tag: string)
    requires Handlers(tag).Some? && Handlers(tag).value.As?
    ensures IsAliasTarget(Handlers(tag).value.target)
  {
    if |tag| <= 20 { AliasTargetShortKey(tag); } else { AliasTargetLongKey(tag); }
  }

  /** The alias targets are entries with routines of their own. */
  lemma AliasTargetsOwn(x: string)
    requires IsAliasTarget(x)
    ensures Handlers(x).Some? && Handlers(x).value.Own?
  {
  }

  /** `as(type)` runs exactly what the target key runs. */
  lemma AliasForwards(tag: string)
    requires Handlers(tag).Some? && Handlers(tag).value.As?
    ensures Resolve(tag) == Resolve(Handlers(tag).value.target)
    ensures Resolve(tag).Some?
  {
    AliasTargetOf(tag);
    AliasTargetsOwn(Handlers(tag).value.target);
  }

  /** A lookup yields no routine exactly when the table has no entry for
      the key: no alias dangles. */
  lemma NoRoutineIffNoEntry(tag: string)
    ensures Resolve(tag) == None <==> Handlers(tag) == None
  {
    if Handlers(tag).Some? && Handlers(tag).value.As? {
      AliasForwards(tag);
    }
  }

  lemma AliasGroupShortKey(tag: string)
    requires |tag| <= 20 && Handlers(tag).Some? && Handlers(tag).value.As?
    ensures tag in AliasesOf(Handlers(tag).value.target)
  {
  }

  lemma AliasGroupLongKey(tag: string)
    requires |tag| > 20 && Handlers(tag).Some? && Handlers(tag).value.As?
    ensures tag in AliasesOf(Handlers(tag).value.target)
  {
  }

  /** The alias groups: a key is built with `as(x)` exactly when it is one
      of the keys listed for `x`. */
  lemma AliasGroups(tag: string, x: string)
    ensures Handlers(tag) == Some(As(x)) <==> tag in AliasesOf(x)
  {
    if Handlers(tag).Some? && Handlers(tag).value.As? {
      if |tag| <= 20 { AliasGroupShortKey(tag); } else { AliasGroupLongKey(tag); }
    }
  }

  /** The ten task and sub-process keys draw as an activity. */
  lemma ActivityAliasRoutine(tag: string)
    requires tag in ActivityAliases()
    ensures Resolve(tag) == Some(ActivityK) && Resolve(tag) == Resolve("bpmn:Activity")
  {
  }

  /** A participant draws as a lane. */
  lemma ParticipantAliasRoutine()
    ensures Resolve("bpmn:Participant") == Some(LaneK) && Resolve("bpmn:Participant") == Resolve("bpmn:Lane")
  {
  }

  /** The five gateway keys draw as a gateway. */
  lemma GatewayAliasRoutine(tag: string)
    requires tag in GatewayAliases()
    ensures Resolve(tag) == Some(GatewayK) && Resolve(tag) == Resolve("bpmn:Gateway")
  {
  }

  /** Catch and throw events draw as an intermediate event. */
  lemma IntermediateAliasRoutine(tag: string)
    requires tag in IntermediateAliases()
    ensures Resolve(tag) == Some(IntermediateEventK) && Resolve(tag) == Resolve("bpmn:IntermediateEvent")
  {
  }

  /** The event keys with routines of their own. */
  lemma EventKeys()
    ensures Resolve("bpmn:Event") == Some(EventK) && Resolve("bpmn:StartEvent") == Some(StartEventK)
    ensures Resolve("bpmn:EndEvent") == Some(EndEventK) && Resolve("bpmn:IntermediateEvent") == Some(IntermediateEventK)
    ensures Resolve("bpmn:IntermediateInterruptedEvent") == Some(IntermediateInterruptedEventK)
    ensures Resolve("bpmn:BoundaryEvent") == Some(BoundaryEventK)
  {
  }

  /** The activity, lane and gateway keys with routines of their own. */
  lemma ActivityKeys()
    ensures Resolve("bpmn:Activity") == Some(ActivityK) && Resolve("bpmn:Transaction") == Some(TransactionK)
    ensures Resolve("bpmn:CallActivity") == Some(CallActivityK) && Resolve("bpmn:Lane") == Some(LaneK)
    ensures Resolve("bpmn:Gateway") == Some(GatewayK)
  {
  }

  /** The connection keys. */
  lemma ConnectionKeys()
    ensures Resolve("bpmn:SequenceFlow") == Some(SequenceFlowK) && Resolve("bpmn:Association") == Some(AssociationK)
    ensures Resolve("bpmn:DataInputAssociation") == Some(DataInputAssociationK)
    ensures Resolve("bpmn:DataOutputAssociation") == Some(DataOutputAssociationK)
    ensures Resolve("bpmn:MessageFlow") == Some(MessageFlowK)
  {
  }

  /** The data keys. */
  lemma DataKeys()
    ensures Resolve("bpmn:DataObjectReference") == Some(DataObjectReferenceK) && Resolve("bpmn:DataInput") == Some(DataInputK)
    ensures Resolve("bpmn:DataOutput") == Some(DataOutputK) && Resolve("bpmn:DataStoreReference") == Some(DataStoreReferenceK)
  {
  }

  /** The key under which `renderEventContent` fetches a glyph routine is
      that event definition's `$type`. */
  lemma GlyphKeys(g: Glyph)
    ensures Resolve(DefinitionType(g)) == Some(GlyphK(g))
  {
  }
}
