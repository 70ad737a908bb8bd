/** The handlers' drawings and the two entry points `drawShape` and
    `drawConnection`: look the element's `type` up in the handlers table,
    run the routine found, or hand the element to the default renderer. */
module Renderer {
  import opened Wrappers
  import opened Semantics
  import opened Primitives
  import opened Markers
  import opened EventContent
  import opened HandlerTable

  const TaskBorderRadius := 8
  const InnerOuterDist := 3
  const EventRadius := 18

  /** The diagram element a handler is called with: its id (the key of its
      semantic element in the BPMN registry), its `type`, its box and, for
      connections, its waypoints. */
  datatype Element = Element(id: string, typeName: string, width: int, height: int, waypoints: seq<Point>)

  /** What `drawShape` and `drawConnection` produce: the drawing of the
      handler they found, or a call into the default renderer's
      `drawShape` or `drawConnection`, whose drawing is not modelled. */
  datatype Outcome = Drawn(drawing: Drawing) | DefaultShape | DefaultConnection

  /** The routines that read the element's semantic element, which must then
      be in the registry: the event routines through `renderEventContent`
      and the data object routines through the collection test. */
  predicate ReadsSemantic(k: Kind) {
    k.StartEventK? || k.EndEventK? || k.IntermediateEventK? || k.IntermediateInterruptedEventK? ||
    k.BoundaryEventK? || k.DataObjectReferenceK? || k.DataInputK? || k.DataOutputK?
  }

  /** The handler found for the element's type reads its semantic element. */
  predicate NeedsSemantic(e: Element) {
    Resolve(e.typeName).Some? && ReadsSemantic(Resolve(e.typeName).value)
  }

  /** The content of `renderEventContent` drawn after a handler's own
      elements; the handler still returns its own element. */
  function WithContent(base: Drawing, content: Option<Drawing>): (r: Drawing)
    requires base.Valid()
    ensures r.Valid() && r.handle == base.handle
    ensures content.None? ==> r.prims == base.prims
    ensures content.Some? ==> r.prims == base.prims + content.value.prims
  {
    match content
    case None => base
    case Some(c) => Drawing(base.prims + c.prims, base.handle)
  }

  // ---------------------------------------------------------------------
  // Event handlers.

  /** `bpmn:Event`: a circle of diameter `2 * EVENT_RADIUS`. */
  function EventCircle(): Primitive {
    DrawCircle(EventRadius * 2, EventRadius * 2, 0)
  }

  function EventDrawing(): Drawing {
    Drawing([EventCircle()], Some(0))
  }

  /** `bpmn:StartEvent`: the event circle and the event content. Each
      event routine is given what `renderEventContent` draws for the
      element. */
  function StartEventDrawing(content: Option<Drawing>): Drawing {
    WithContent(EventDrawing(), content)
  }

  /** `bpmn:EndEvent`: the event circle with stroke width 4, and the content. */
  function EndEventDrawing(content: Option<Drawing>): Drawing {
    var c := EventCircle();
    WithContent(Drawing([Circle(c.cx, c.cy, c.r, 4.0, c.stroke, c.fill, c.dash)], Some(0)), content)
  }

  /** `bpmn:IntermediateEvent`: the event circle and a circle inset by
      `INNER_OUTER_DIST` in the element's box, both of stroke width 1, and
      the content. */
  function IntermediateEventDrawing(e: Element, content: Option<Drawing>): Drawing {
    var outer := EventCircle();
    var inner := DrawCircle(e.width, e.height, InnerOuterDist);
    WithContent(Drawing([Circle(outer.cx, outer.cy, outer.r, 1.0, outer.stroke, outer.fill, outer.dash),
                         Circle(inner.cx, inner.cy, inner.r, 1.0, inner.stroke, inner.fill, inner.dash)], Some(0)),
                content)
  }

  /** `bpmn:IntermediateInterruptedEvent`: like the intermediate event, but
      the inner circle lies in the fixed 36 by 36 box and both circles are
      dashed with pattern `12`. */
  function InterruptedEventDrawing(content: Option<Drawing>): Drawing {
    var outer := EventCircle();
    var inner := DrawCircle(EventRadius * 2, EventRadius * 2, InnerOuterDist);
    WithContent(Drawing([Circle(outer.cx, outer.cy, outer.r, 1.0, outer.stroke, outer.fill, Some("12")),
                         Circle(inner.cx, inner.cy, inner.r, 1.0, inner.stroke, inner.fill, Some("12"))], Some(0)),
                content)
  }

  /** `bpmn:BoundaryEvent`: the interrupted event, which already draws the
      content, then the content a second time; it returns what the second
      `renderEventContent` returns, nothing when no glyph applies. */
  function BoundaryEventDrawing(content: Option<Drawing>): Drawing {
    var first := InterruptedEventDrawing(content);
    match content
    case None => Drawing(first.prims, None)
    case Some(c) => Drawing(first.prims + c.prims, if c.handle.Some? then Some(|first.prims| + c.handle.value) else None)
  }

  // ---------------------------------------------------------------------
  // Activity, lane and gateway handlers.

  /** `bpmn:Activity`: the box with corner radius `TASK_BORDER_RADIUS`. */
  function ActivityRect(e: Element): Primitive {
    DrawRect(e.width, e.height, TaskBorderRadius, 0)
  }

  /** `bpmn:Transaction`: the activity's rectangle and one inset by
      `INNER_OUTER_DIST` with a radius two smaller, both of stroke width 1.5. */
  function TransactionDrawing(e: Element): Drawing {
    var outer := ActivityRect(e);
    var inner := DrawRect(e.width, e.height, TaskBorderRadius - 2, InnerOuterDist);
    Drawing([Rect(outer.x, outer.y, outer.width, outer.height, outer.radius, 1.5, outer.stroke, outer.fill),
             Rect(inner.x, inner.y, inner.width, inner.height, inner.radius, 1.5, inner.stroke, inner.fill)], Some(0))
  }

  /** `bpmn:CallActivity`: the activity's rectangle with stroke width 4. */
  function CallActivityDrawing(e: Element): Drawing {
    var r := ActivityRect(e);
    Drawing([Rect(r.x, r.y, r.width, r.height, r.radius, 4.0, r.stroke, r.fill)], Some(0))
  }

  // ---------------------------------------------------------------------
  // Connection handlers.

  /** A connection line through the waypoints, with the dash pattern and the
      markers a connection handler sets on it. */
  function ConnectionLine(e: Element, dash: Option<string>, start: Option<MarkerDef>, end: Option<MarkerDef>): Drawing {
    var line := DrawLine(e.waypoints);
    Drawing([Polyline(line.coords, line.strokeWidth, line.stroke, dash, start, end)], Some(0))
  }

  // ---------------------------------------------------------------------
  // Data handlers.

  /** The three collection bars, moved to the foot of the page. */
  function CollectionIcon(): Primitive {
    var p := DrawPath(CollectionBars, Undefined);
    Path(p.d, p.strokeWidth, p.stroke, p.fill, p.fillOpacity, Translate(17.8, 42.0))
  }

  /** `bpmn:DataObjectReference`: the page, and the collection bars when the
      collection test holds. */
  function DataObjectDrawing(s: Semantic): Drawing {
    if IsCollection(s) then Drawing([DrawPath(DataObjectPage, Undefined), CollectionIcon()], Some(0))
    else Drawing([DrawPath(DataObjectPage, Undefined)], Some(0))
  }

  /** The arrow of the data input and output handlers: stroke width 1,
      moved by (7, 7). */
  function DataArrowPath(fill: Color): Primitive {
    var p := DrawPath(DataArrow, Undefined);
    Path(p.d, 1.0, p.stroke, fill, p.fillOpacity, Matrix(1.0, 0.0, 0.0, 1.0, 7.0, 7.0))
  }

  /** `bpmn:DataInput` and `bpmn:DataOutput`: the data object, then the
      arrow, unfilled for an input and filled black for an output. */
  function DataPortDrawing(s: Semantic, fill: Color): Drawing {
    var page := DataObjectDrawing(s);
    Drawing(page.prims + [DataArrowPath(fill)], Some(0))
  }

  /** `bpmn:DataStoreReference`: the cylinder, stroke width 1, stroked
      `rgb(34, 34, 34)`, fill black at fill opacity 0. */
  function DataStoreDrawing(): Drawing {
    var p := DrawPath(DataStoreCylinder, Undefined);
    Drawing([Path(p.d, 1.0, Rgb(34, 34, 34), Black, 0.0, p.transform)], Some(0))
  }

  // ---------------------------------------------------------------------
  // The routines and the two entry points.

  /** What routine `k` draws for element `e`. */
  function KindDrawing(k: Kind, e: Element, registry: Registry, reg: MarkerRegistry): Drawing
    reads reg
    requires ReadsSemantic(k) ==> e.id in registry
  {
    match k
    case EventK => EventDrawing()
    case StartEventK => StartEventDrawing(RenderEventContent(registry[e.id]))
    case EndEventK => EndEventDrawing(RenderEventContent(registry[e.id]))
    case IntermediateEventK => IntermediateEventDrawing(e, RenderEventContent(registry[e.id]))
    case IntermediateInterruptedEventK => InterruptedEventDrawing(RenderEventContent(registry[e.id]))
    case BoundaryEventK => BoundaryEventDrawing(RenderEventContent(registry[e.id]))
    // called straight from the table, a glyph routine gets no throw flag
    case GlyphK(g) => GlyphDrawing(g, false)
    case ActivityK => Drawing([ActivityRect(e)], Some(0))
    case TransactionK => TransactionDrawing(e)
    case CallActivityK => CallActivityDrawing(e)
    case LaneK => Drawing([DrawRect(e.width, e.height, 0, 0)], Some(0))
    case GatewayK => Drawing([DrawDiamond(e.width, e.height)], Some(0))
    case SequenceFlowK => ConnectionLine(e, None, None, reg.Marker(SequenceFlowEnd))
    case AssociationK => ConnectionLine(e, Some("3,3"), None, None)
    case DataInputAssociationK => ConnectionLine(e, Some("2,4"), None, reg.Marker(DataAssociationEnd))
    case DataOutputAssociationK => ConnectionLine(e, Some("2,4"), None, reg.Marker(DataAssociationEnd))
    case MessageFlowK => ConnectionLine(e, Some("1,3"), reg.Marker(MessageFlowStart), reg.Marker(MessageFlowEnd))
    case DataObjectReferenceK => DataObjectDrawing(registry[e.id])
    case DataInputK => DataPortDrawing(registry[e.id], NoColor)
    case DataOutputK => DataPortDrawing(registry[e.id], Black)
    case DataStoreReferenceK => DataStoreDrawing()
  }

  /** `drawShape(parent, data)`: the handler for `data.type`, or the default
      renderer's `drawShape` exactly when the table has no entry for it. */
  function DrawShape(e: Element, registry: Registry, reg: MarkerRegistry): (r: Outcome)
    reads reg
    requires NeedsSemantic(e) ==> e.id in registry
    ensures r.Drawn? <==> Handlers(e.typeName).Some?
    ensures r == DefaultShape <==> Handlers(e.typeName) == None
  {
    NoRoutineIffNoEntry(e.typeName);
    match Resolve(e.typeName)
    case None => DefaultShape
    case Some(k) => Drawn(KindDrawing(k, e, registry, reg))
  }

  /** `drawConnection(parent, data)`: the same lookup, falling back to the
      default renderer's `drawConnection`. */
  function DrawConnection(e: Element, registry: Registry, reg: MarkerRegistry): (r: Outcome)
    reads reg
    requires NeedsSemantic(e) ==> e.id in registry
    ensures r.Drawn? <==> Handlers(e.typeName).Some?
    ensures r == DefaultConnection <==> Handlers(e.typeName) == None
  {
    NoRoutineIffNoEntry(e.typeName);
    match Resolve(e.typeName)
    case None => DefaultConnection
    case Some(k) => Drawn(KindDrawing(k, e, registry, reg))
  }

  // ---------------------------------------------------------------------
  // Dispatch.

  /** On every key of the table both entry points run the same handler;
      they differ only in the fallback. */
  lemma ShapeAndConnectionAgree(e: Element, registry: Registry, reg: MarkerRegistry)
    requires NeedsSemantic(e) ==> e.id in registry
    ensures Handlers(e.typeName).Some? ==> DrawShape(e, registry, reg) == DrawConnection(e, registry, reg)
    ensures Handlers(e.typeName) == None ==>
      DrawShape(e, registry, reg) == DefaultShape && DrawConnection(e, registry, reg) == DefaultConnection
  {
  }

  /** An element whose type is built with `as(x)` is drawn exactly as an
      element of type `x`. */
  lemma AliasDrawsAsTarget(e: Element, registry: Registry, reg: MarkerRegistry, x: string)
    requires Handlers(e.typeName) == Some(As(x))
    requires NeedsSemantic(e) ==> e.id in registry
    ensures NeedsSemantic(e.(typeName := x)) == NeedsSemantic(e)
    ensures DrawShape(e, registry, reg) == DrawShape(e.(typeName := x), registry, reg)
  {
    AliasForwards(e.typeName);
  }

  /** The text annotation, which the diagram shows, has no entry in the
      table, so both entry points hand it to the default renderer. */
  lemma TextAnnotationDelegates(e: Element, registry: Registry, reg: MarkerRegistry)
    requires e.typeName == "bpmn:TextAnnotation"
    ensures Handlers(e.typeName) == None
    ensures DrawShape(e, registry, reg) == DefaultShape
    ensures DrawConnection(e, registry, reg) == DefaultConnection
  {
  }

  /** Called through the table under its definition's `$type`, a glyph
      routine draws the catch styling. */
  lemma GlyphShapeIsCatchStyled(e: Element, registry: Registry, reg: MarkerRegistry, g: Glyph)
    requires e.typeName == DefinitionType(g)
    ensures DrawShape(e, registry, reg) == Drawn(GlyphDrawing(g, false))
  {
    GlyphKeys(g);
  }

  // ---------------------------------------------------------------------
  // Activities, lanes and gateways.

  /** The activity key and its ten aliases draw one white rectangle over
      the whole box with corner radius 8 and a black border of width 2. */
  lemma ActivityKeysDrawRoundedBox(e: Element, registry: Registry, reg: MarkerRegistry)
    requires e.typeName == "bpmn:Activity" || e.typeName in ActivityAliases()
    ensures DrawShape(e, registry, reg) == Drawn(Drawing([Rect(0, 0, e.width, e.height, 8, 2.0, Black, White)], Some(0)))
  {
    if e.typeName in ActivityAliases() {
      ActivityAliasRoutine(e.typeName);
    }
  }

  /** Lanes and participants draw the box with square corners. */
  lemma LaneKeysDrawSquareBox(e: Element, registry: Registry, reg: MarkerRegistry)
    requires e.typeName == "bpmn:Lane" || e.typeName == "bpmn:Participant"
    ensures DrawShape(e, registry, reg) == Drawn(Drawing([Rect(0, 0, e.width, e.height, 0, 2.0, Black, White)], Some(0)))
  {
    ParticipantAliasRoutine();
  }

  /** The gateway key and its five aliases draw the diamond through the
      midpoints of the box's sides. */
  lemma GatewayKeysDrawDiamond(e: Element, registry: Registry, reg: MarkerRegistry)
    requires e.typeName == "bpmn:Gateway" || e.typeName in GatewayAliases()
    ensures DrawShape(e, registry, reg) == Drawn(Drawing([DrawDiamond(e.width, e.height)], Some(0)))
    ensures var p := DrawDiamond(e.width, e.height).points;
      p[0] * 2.0 == e.width as real && p[1] == 0.0 && p[2] == e.width as real && p[3] * 2.0 == e.height as real &&
      p[4] * 2.0 == e.width as real && p[5] == e.height as real && p[6] == 0.0 && p[7] * 2.0 == e.height as real
  {
    if e.typeName in GatewayAliases() {
      GatewayAliasRoutine(e.typeName);
    }
    DiamondMidpoints(e.width, e.height);
  }

  /** A transaction draws the activity's rectangle and a second one lying
      3 inside it on every side, with radius 6; both have border width 1.5
      and the outer one is returned. */
  lemma TransactionInset(e: Element, registry: Registry, reg: MarkerRegistry)
    requires e.typeName == "bpmn:Transaction"
    ensures DrawShape(e, registry, reg).Drawn?
    ensures var d := DrawShape(e, registry, reg).drawing;
      && |d.prims| == 2 && d.handle == Some(0)
      && d.prims[0] == Rect(0, 0, e.width, e.height, 8, 1.5, Black, White)
      && d.prims[1].Rect? && d.prims[1].radius == 6 && d.prims[1].strokeWidth == 1.5
      && d.prims[1].x == InnerOuterDist && d.prims[1].y == InnerOuterDist
      && e.width - (d.prims[1].x + d.prims[1].width) == InnerOuterDist
      && e.height - (d.prims[1].y + d.prims[1].height) == InnerOuterDist
  {
  }

  /** A call activity draws the activity's rectangle with border width 4. */
  lemma CallActivityBorder(e: Element, registry: Registry, reg: MarkerRegistry)
    requires e.typeName == "bpmn:CallActivity"
    ensures DrawShape(e, registry, reg) == Drawn(Drawing([Rect(0, 0, e.width, e.height, 8, 4.0, Black, White)], Some(0)))
  {
  }

  // ---------------------------------------------------------------------
  // Events.

  /** The elements of a content drawing, none when there is no content. */
  function PrimsOf(content: Option<Drawing>): seq<Primitive> {
    match content
    case None => []
    case Some(c) => c.prims
  }

  /** The plain event draws the circle of radius 18 centred in the 36 by
      36 box; start and end events draw it with border width 1 and 4
      respectively, then the content, and return the circle. */
  lemma EventCircles(content: Option<Drawing>)
    ensures EventDrawing() == Drawing([Circle(18.0, 18.0, 18, 1.0, Black, White, None)], Some(0))
    ensures StartEventDrawing(content) ==
      Drawing([Circle(18.0, 18.0, 18, 1.0, Black, White, None)] + PrimsOf(content), Some(0))
    ensures EndEventDrawing(content) ==
      Drawing([Circle(18.0, 18.0, 18, 4.0, Black, White, None)] + PrimsOf(content), Some(0))
  {
  }

  /** An intermediate event draws the event circle and a circle 3 smaller
      centred in the element's box, both of border width 1, then the
      content, and returns the outer circle. */
  lemma IntermediateEventCircles(e: Element, content: Option<Drawing>)
    ensures var d := IntermediateEventDrawing(e, content);
      && d.handle == Some(0)
      && d.prims[..2] == [Circle(18.0, 18.0, 18, 1.0, Black, White, None),
                          Circle(e.width as real / 2.0, e.height as real / 2.0, d.prims[1].r, 1.0, Black, White, None)]
      && -2 < 4 * d.prims[1].r - (e.width + e.height - 4 * InnerOuterDist) <= 2
      && d.prims[2..] == PrimsOf(content)
  {
  }

  /** An interrupted intermediate event draws two dashed circles of radius
      18 and 15 centred in the 36 by 36 box, then the content, and returns
      the outer circle. */
  lemma InterruptedEventRings(content: Option<Drawing>)
    ensures InterruptedEventDrawing(content) ==
      Drawing([Circle(18.0, 18.0, 18, 1.0, Black, White, Some("12")), Circle(18.0, 18.0, 15, 1.0, Black, White, Some("12"))]
               + PrimsOf(content), Some(0))
  {
  }

  /** A boundary event draws two dashed circles, radius 18 and 15, then the
      content twice over, and returns what the second content returns:
      nothing when no glyph applies. */
  lemma BoundaryGlyphTwice(content: Option<Drawing>)
    requires content.Some? ==> content.value.Valid()
    ensures var d := BoundaryEventDrawing(content);
      var rings := [Circle(18.0, 18.0, 18, 1.0, Black, White, Some("12")), Circle(18.0, 18.0, 15, 1.0, Black, White, Some("12"))];
      && d.prims == rings + PrimsOf(content) + PrimsOf(content)
      && (content == None ==> d.handle == None)
      && (content.Some? ==> d.handle == (if content.value.handle.Some? then Some(2 + |content.value.prims| + content.value.handle.value) else None))
      && d.Valid()
  {
  }

  // ---------------------------------------------------------------------
  // Connections.

  /** The notation of each connection: dash pattern and the ids of its start
      and end markers. */
  datatype LineStyle = LineStyle(dash: Option<string>, startMarker: Option<string>, endMarker: Option<string>)

  function ConnectionStyle(k: Kind): Option<LineStyle> {
    match k
    case SequenceFlowK => Some(LineStyle(None, None, Some(SequenceFlowEnd)))
    case MessageFlowK => Some(LineStyle(Some("1,3"), Some(MessageFlowStart), Some(MessageFlowEnd)))
    case DataInputAssociationK => Some(LineStyle(Some("2,4"), None, Some(DataAssociationEnd)))
    case DataOutputAssociationK => Some(LineStyle(Some("2,4"), None, Some(DataAssociationEnd)))
    case AssociationK => Some(LineStyle(Some("3,3"), None, None))
    case _ => None
  }

  /** The marker a connection shows for a marker id: what `marker(id)`
      returns at drawing time. */
  function MarkerFor(reg: MarkerRegistry, id: Option<string>): Option<MarkerDef>
    reads reg
  {
    if id.None? then None else reg.Marker(id.value)
  }

  /** A routine draws a line exactly when it is a connection routine, and
      that line runs through the waypoints, black of width 2, with the
      dash pattern and the markers of its notation. */
  lemma ConnectionsFollowStyle(k: Kind, e: Element, registry: Registry, reg: MarkerRegistry)
    requires ReadsSemantic(k) ==> e.id in registry
    ensures KindDrawing(k, e, registry, reg).prims != []
    ensures KindDrawing(k, e, registry, reg).prims[0].Polyline? <==> ConnectionStyle(k).Some?
    ensures ConnectionStyle(k).Some? ==>
      var style := ConnectionStyle(k).value;
      KindDrawing(k, e, registry, reg) ==
        Drawing([Polyline(FlattenPoints(e.waypoints), 2.0, Black, style.dash, MarkerFor(reg, style.startMarker),
                          MarkerFor(reg, style.endMarker))], Some(0))
  {
    if k.BoundaryEventK? {
      assert InterruptedEventDrawing(RenderEventContent(registry[e.id])).prims[0].Circle?;
    }
  }

  /** After `initMarkers` the connections show the registered markers;
      before it, none. */
  lemma ConnectionMarkers(k: Kind, e: Element, registry: Registry, reg: MarkerRegistry)
    requires ConnectionStyle(k).Some?
    ensures var line := KindDrawing(k, e, registry, reg).prims[0];
      var style := ConnectionStyle(k).value;
      && (reg.Initialized() ==>
            && line.markerStart == (if style.startMarker.Some? then Some(InitialMarkers()[style.startMarker.value]) else None)
            && line.markerEnd == (if style.endMarker.Some? then Some(InitialMarkers()[style.endMarker.value]) else None))
      && (reg.markers == map[] ==> line.markerStart == None && line.markerEnd == None)
  {
    ConnectionsFollowStyle(k, e, registry, reg);
    InitialMarkerIds();
  }

  /** With the markers registered, a sequence flow ends in the filled arrow,
      a message flow starts with the dot and ends in the white arrow with
      dash pattern `1,3`, data associations end in the open arrow with dash
      pattern `2,4`, and a plain association is dashed `3,3` without
      markers. */
  lemma ConnectionNotation(e: Element, registry: Registry, reg: MarkerRegistry)
    requires reg.Initialized()
    ensures KindDrawing(SequenceFlowK, e, registry, reg) ==
      Drawing([Polyline(FlattenPoints(e.waypoints), 2.0, Black, None, None, Some(MarkerDef(ClosedArrow, NoColor, Black, 10, 5)))], Some(0))
    ensures KindDrawing(MessageFlowK, e, registry, reg) ==
      Drawing([Polyline(FlattenPoints(e.waypoints), 2.0, Black, Some("1,3"), Some(MarkerDef(Dot, Black, White, 4, 4)),
                        Some(MarkerDef(ClosedArrow, Black, White, 11, 5)))], Some(0))
    ensures KindDrawing(DataInputAssociationK, e, registry, reg) == KindDrawing(DataOutputAssociationK, e, registry, reg) ==
      Drawing([Polyline(FlattenPoints(e.waypoints), 2.0, Black, Some("2,4"), None, Some(MarkerDef(OpenArrow, Black, White, 10, 5)))], Some(0))
    ensures KindDrawing(AssociationK, e, registry, reg) ==
      Drawing([Polyline(FlattenPoints(e.waypoints), 2.0, Black, Some("3,3"), None, None)], Some(0))
  {
    assert reg.Marker(SequenceFlowEnd) == Some(InitialMarkers()[SequenceFlowEnd]);
    assert reg.Marker(MessageFlowStart) == Some(InitialMarkers()[MessageFlowStart]);
    assert reg.Marker(MessageFlowEnd) == Some(InitialMarkers()[MessageFlowEnd]);
    assert reg.Marker(DataAssociationEnd) == Some(InitialMarkers()[DataAssociationEnd]);
  }

  // ---------------------------------------------------------------------
  // Data.

  /** A data object reference draws the page, and the collection bars at
      (17.8, 42.0) exactly when the referenced data object or the element
      itself has `isCollection` equal to boolean true. */
  lemma CollectionIconIff(e: Element, registry: Registry, reg: MarkerRegistry)
    requires e.typeName == "bpmn:DataObjectReference"
    requires e.id in registry
    ensures DrawShape(e, registry, reg).Drawn?
    ensures var d := DrawShape(e, registry, reg).drawing;
      var s := registry[e.id];
      && d.handle == Some(0) && d.prims[0] == Path(DataObjectPage, 2.0, Black, NoColor, 1.0, Identity)
      && (|d.prims| == 2 <==>
            || (s.dataObjectRef.Some? && "isCollection" in s.dataObjectRef.value &&
                s.dataObjectRef.value["isCollection"] == Bool(true))
            || s.isCollection == Bool(true))
      && (|d.prims| == 1 || d.prims[1] == Path(CollectionBars, 2.0, Black, NoColor, 1.0, Translate(17.8, 42.0)))
  {
    IsCollectionIff(registry[e.id]);
  }

  /** Data inputs and outputs draw the data object and then the arrow moved
      by (7, 7); the two differ only in the arrow's fill. */
  lemma DataPortArrows(e: Element, registry: Registry, reg: MarkerRegistry)
    requires e.id in registry
    ensures var input := KindDrawing(DataInputK, e, registry, reg);
      var output := KindDrawing(DataOutputK, e, registry, reg);
      var page := KindDrawing(DataObjectReferenceK, e, registry, reg);
      && input.prims == page.prims + [Path(DataArrow, 1.0, Black, NoColor, 1.0, Matrix(1.0, 0.0, 0.0, 1.0, 7.0, 7.0))]
      && output.prims == page.prims + [Path(DataArrow, 1.0, Black, Black, 1.0, Matrix(1.0, 0.0, 0.0, 1.0, 7.0, 7.0))]
      && input.handle == output.handle == page.handle == Some(0)
  {
  }

  /** A data store draws the cylinder alone, border width 1 in
      `rgb(34, 34, 34)`, and returns it; its fill is black but fully
      transparent, so the cylinder shows unfilled. */
  lemma DataStoreCylinderStyle(e: Element, registry: Registry, reg: MarkerRegistry)
    ensures KindDrawing(DataStoreReferenceK, e, registry, reg) ==
      Drawing([Path(DataStoreCylinder, 1.0, Rgb(34, 34, 34), Black, 0.0, Identity)], Some(0))
    ensures forall p :: p in KindDrawing(DataStoreReferenceK, e, registry, reg).prims ==> p.Path? && p.fillOpacity == 0.0
  {
  }
}
