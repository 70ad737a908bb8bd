# BPMN renderer dispatch, modelled in Dafny

This project models the paint-time dispatch of the bpmn-js renderer
(`lib/draw/BpmnRenderer.js`). It does not model the vector graphics
themselves. It covers:

- the `handlers` table, which maps a BPMN element `type` to a drawing
  routine, with the `as(type)` aliases that forward one key to another;
- `drawShape` and `drawConnection`, which run the table's routine or hand
  the element to the default renderer when the table has no entry for its
  type;
- `renderEventContent`, which picks at most one event-definition glyph by a
  fixed chain of tests and draws it with throw or catch styling;
- the semantic lookups `checkSemantic`, `isThrowObject` and `getObjectRef`;
- the connection marker registry (`addMarker`, `marker`, `initMarkers`),
  which stays empty until the canvas initialises;
- the drawing helpers `drawCircle`, `drawRect`, `drawDiamond`, `drawLine`
  and `drawPath`, as far as geometry and styling go.

A drawing is an abstract record: the ordered list of elements a routine
creates, each with the attributes it ends up with, plus the element the
routine returns. Path strings are names (`Template("EVENT_MESSAGE")`,
`DataObjectPage`, ...).

Modules, one per file:

- `Wrappers` (`wrappers.dfy`): `Option`.
- `Semantics` (`semantics.dfy`): semantic elements as far as the renderer
  reads them, JavaScript values (so that `=== true` and truthiness can
  differ), the BPMN registry as a map from element id, and the three
  lookups. `CheckSemantic` keeps the source's flag-raising loop.
- `Primitives` (`primitives.dfy`): the drawn elements and the five drawing
  helpers. `Math.round((w + h) / 4 - offset)` is computed exactly over
  integer widths and heights.
- `Markers` (`markers.dfy`): the `MarkerRegistry` class, whose `markers`
  map field `AddMarker` and `InitMarkers` update in place.
- `EventContent` (`event_content.dfy`): the glyph chain, written out as in
  the source and proved equal to a precedence list with one guard per
  glyph, and the twelve event-definition routines.
- `HandlerTable` (`handlers.dfy`): the fifty keys of the table, their
  entries (`Own(routine)` or `As(target)`), alias resolution, and the alias
  groups.
- `Renderer` (`renderer.dfy`): what each routine draws, `DrawShape` and
  `DrawConnection`, and the properties of the drawings.

Lines 205-210 choose the multiple and parallel-multiple glyphs only when
a Cancel and a Terminate definition are both present, and the model
follows the code (`EventContent.MultipleOrParallel`).

Rows whose third column starts with "definition:" name the functions that
are the model itself. They carry no contract of their own; the rows name
the lemmas that state their properties.

## Model

| member | source | states |
|---|---|---|
| Semantics.HasDefinition | lib/draw/BpmnRenderer.js:627-645 | definition: some event definition of the present element has exactly the given `$type`; `Semantics.CheckSemantic` is proved equal to it |
| Semantics.IsThrowObject | lib/draw/BpmnRenderer.js:647-652 | definition: the element's own `$type` is the intermediate throw event or the end event; used by `EventContent.ContentFillFollowsType` |
| Semantics.GetObjectRef | lib/draw/BpmnRenderer.js:658-666 | definition: `false` without an element or a data object reference, else the referenced property; see `Semantics.GetObjectRefMissing` |
| Semantics.IsCollection | lib/draw/BpmnRenderer.js:528-529 | definition: the two strict `=== true` tests; see `Semantics.IsCollectionIff` and `Semantics.TruthyIsNotCollection` |
| Semantics.CheckSemantic | lib/draw/BpmnRenderer.js:627-645 | true exactly when the element is in the registry, has event definitions, and one of them has exactly the given `$type`; false without an element or without definitions |
| Semantics.IsCollectionIff | lib/draw/BpmnRenderer.js:524-539 | the collection test holds exactly when the referenced data object's `isCollection`, or the element's own, is the boolean `true` |
| Semantics.TruthyIsNotCollection | lib/draw/BpmnRenderer.js:528-529 | whenever neither the element's `isCollection` nor the referenced object's is the boolean `true`, whatever else they hold, the collection test fails |
| Semantics.TruthyValuesAreNotTrue | lib/draw/BpmnRenderer.js:528-529 | 1, `"true"` and an object are truthy, yet on both sides at once they give no collection |
| Semantics.GetObjectRefMissing | lib/draw/BpmnRenderer.js:658-666 | `getObjectRef` yields `false` when the element or its data object reference is missing |
| Primitives.DrawCircle | lib/draw/BpmnRenderer.js:118-130 | the circle is centred in the box, its radius is the nearest integer to (w + h) / 4 − offset, border black of width 1, fill white |
| Primitives.DrawRect | lib/draw/BpmnRenderer.js:132-144 | the rectangle lies `offset` inside the box on all four sides with the given radius, border black of width 2, fill white |
| Primitives.DrawDiamond | lib/draw/BpmnRenderer.js:146-158 | a polygon of four points with a black border of width 2 and white fill |
| Primitives.DiamondMidpoints | lib/draw/BpmnRenderer.js:146-158 | the diamond's corners are the midpoints of the box's sides |
| Primitives.FlattenPoints | lib/draw/BpmnRenderer.js:160-161 | the flat list has two coordinates per waypoint, and positions 2i and 2i+1 hold the x and y of waypoint i |
| Primitives.FlattenPointsRoundTrip | lib/draw/BpmnRenderer.js:160-161 | reading the flat list back in pairs gives the waypoints, so flattening loses nothing |
| Primitives.DrawLine | lib/draw/BpmnRenderer.js:160-167 | the polyline's coordinates read back in pairs are exactly the given waypoints; black of width 2, no dash, no markers |
| Primitives.DrawPathTruthiness | lib/draw/BpmnRenderer.js:169-180 | `drawPath` depends on its `fill` argument only through JavaScript truthiness: two arguments draw the same path exactly when they agree on it |
| Primitives.DrawPath | lib/draw/BpmnRenderer.js:169-180 | the path has the given data and a black stroke of width 2; it is filled black exactly when `fill` is truthy and has no fill otherwise, which is what every call site gets by omitting it |
| Primitives.EventCircleRadius | lib/draw/BpmnRenderer.js:228-231 | in the 36 by 36 event box the radius is 18 less the offset |
| Markers.MarkerRegistry.constructor | lib/draw/BpmnRenderer.js:24 | the registry starts empty |
| Markers.InitialMarkers | lib/draw/BpmnRenderer.js:34-116 | definition: the five marker elements by id, with the shapes, colours and reference points of lines 36-115; see `Markers.InitialMarkerIds` |
| Markers.MarkerRegistry.Marker | lib/draw/BpmnRenderer.js:30-32 | definition: the registered element, undefined for an unregistered id; what it returns before and after `initMarkers` is stated by `Markers.CanvasLifecycle` and `Renderer.ConnectionMarkers` |
| Markers.MarkerRegistry.AddMarker | lib/draw/BpmnRenderer.js:26-28 | registers or overwrites one id; every other id keeps its marker |
| Markers.MarkerRegistry.InitMarkers | lib/draw/BpmnRenderer.js:34-116 | the registry becomes the old one with the five initial markers laid over it; ids outside the five keep their markers |
| Markers.FiveRegistrations | lib/draw/BpmnRenderer.js:34-116 | the five `addMarker` calls in their order amount to adding the initial markers |
| Markers.InitialMarkerIds | lib/draw/BpmnRenderer.js:34-116 | `initMarkers` registers exactly five distinct ids |
| Markers.InitialMarkersAddIds | lib/draw/BpmnRenderer.js:34-116 | after `initMarkers` the registered ids are the old ones plus the five |
| Markers.InitMarkersIdempotent | lib/draw/BpmnRenderer.js:34-116 | a map fact: overlaying the initial markers twice equals overlaying them once, so a second `initMarkers` changes nothing |
| Markers.CanvasLifecycle | lib/draw/BpmnRenderer.js:670-674 | between construction and `canvas.init` the registry is empty; after `canvas.init` it is exactly the five initial markers |
| EventContent.Chain | lib/draw/BpmnRenderer.js:197-223 | definition: the `if`/`else if` chain as written; proved equal to the precedence search by `EventContent.ChainFollowsPrecedence` |
| EventContent.SelectGlyph | lib/draw/BpmnRenderer.js:192-225 | definition: the chain over the element's `checkSemantic` answers and the truthiness of `parallelMultiple`; characterised by `EventContent.SelectGlyphIff` and `EventContent.NoGlyphIff` |
| EventContent.RenderEventContent | lib/draw/BpmnRenderer.js:192-225 | definition: the chosen glyph drawn with the `isThrowObject` flag, or nothing; see `EventContent.ContentFillFollowsType` |
| EventContent.Rank | lib/draw/BpmnRenderer.js:197-223 | each glyph sits at its own position in the precedence list |
| EventContent.FirstFromIff | lib/draw/BpmnRenderer.js:197-223 | the reference search finds `g` exactly when `g`'s guard holds and no guard ranked between the start and `g` does |
| EventContent.FirstFromNone | lib/draw/BpmnRenderer.js:197-223 | the reference search finds nothing exactly when no guard from the start on holds |
| EventContent.ChainFollowsPrecedence | lib/draw/BpmnRenderer.js:197-223 | the written-out test chain equals the search over the precedence list |
| EventContent.SelectGlyphIff | lib/draw/BpmnRenderer.js:192-225 | a glyph is drawn exactly when its guard holds and the guard of every glyph ranked before it fails |
| EventContent.NoGlyphIff | lib/draw/BpmnRenderer.js:192-225 | no glyph is drawn exactly when no guard holds |
| EventContent.MultipleOrParallel | lib/draw/BpmnRenderer.js:205-210 | multiple or parallel-multiple is drawn exactly when Cancel and Terminate definitions are both present and the message, timer, conditional and signal tests fail; truthiness of `parallelMultiple` picks which |
| EventContent.CancelTerminateReachability | lib/draw/BpmnRenderer.js:205-222 | the cancel glyph is drawn only without a Terminate definition and the terminate glyph only without a Cancel definition, each when every earlier test fails |
| EventContent.MultipleDefinitionsAloneGiveNoGlyph | lib/draw/BpmnRenderer.js:197-223 | an event whose definitions are all of the multiple types gets no glyph, since the chain never tests for those types |
| EventContent.GlyphDrawing | lib/draw/BpmnRenderer.js:239-408 | every glyph routine draws at least one element and returns the first |
| EventContent.ThrowCatchStyling | lib/draw/BpmnRenderer.js:239-378 | message, signal, multiple, escalation, error, cancel and compensate glyphs fill black when throwing and are unfilled when catching; only the throwing message glyph gets a white stroke |
| EventContent.ThrowFlagIgnoredIff | lib/draw/BpmnRenderer.js:254-408 | a glyph's drawing ignores the throw flag exactly for timer, conditional, link, parallel multiple and terminate |
| EventContent.ContentFillFollowsType | lib/draw/BpmnRenderer.js:647-652 | for a glyph that follows the throw flag, the content is filled black exactly when the element's `$type` is an intermediate throw event or an end event |
| HandlerTable.Handlers | lib/draw/BpmnRenderer.js:227-598 | definition: the fifty keys of the `handlers` literal, each with its own routine or an `as(target)`; see `HandlerTable.AliasGroups` and the `...Keys` lemmas |
| HandlerTable.Resolve | lib/draw/BpmnRenderer.js:182-190 | definition: the routine of a key, following one `as` forward; see `HandlerTable.AliasForwards` and `HandlerTable.NoRoutineIffNoEntry` |
| HandlerTable.NoRoutineIffNoEntry | lib/draw/BpmnRenderer.js:182-186 | a lookup finds no routine exactly when the table has no entry for the key; no alias dangles |
| HandlerTable.AliasTargetOf | lib/draw/BpmnRenderer.js:434-477 | every `as(type)` entry forwards to the intermediate event, activity, lane or gateway key |
| HandlerTable.AliasTargetsOwn | lib/draw/BpmnRenderer.js:410-483 | those four keys have routines of their own |
| HandlerTable.AliasForwards | lib/draw/BpmnRenderer.js:182-186 | an alias key runs exactly the routine of its target key |
| HandlerTable.AliasGroups | lib/draw/BpmnRenderer.js:434-477 | a key is built with `as(x)` exactly when it is one of the keys listed for `x`: two intermediate aliases, ten activity aliases, the participant, five gateway aliases |
| HandlerTable.ActivityAliasRoutine | lib/draw/BpmnRenderer.js:442-451 | the task and sub-process keys run the activity routine |
| HandlerTable.ParticipantAliasRoutine | lib/draw/BpmnRenderer.js:467-472 | the participant key runs the lane routine |
| HandlerTable.GatewayAliasRoutine | lib/draw/BpmnRenderer.js:473-482 | the five gateway keys run the gateway routine |
| HandlerTable.IntermediateAliasRoutine | lib/draw/BpmnRenderer.js:434-435 | catch and throw events run the intermediate event routine |
| HandlerTable.EventKeys | lib/draw/BpmnRenderer.js:228-433 | each event key with a routine of its own reaches that routine |
| HandlerTable.ActivityKeys | lib/draw/BpmnRenderer.js:437-483 | the activity, transaction, call activity, lane and gateway keys reach their routines |
| HandlerTable.ConnectionKeys | lib/draw/BpmnRenderer.js:484-523 | the five connection keys reach their routines |
| HandlerTable.DataKeys | lib/draw/BpmnRenderer.js:524-593 | the four data keys reach their routines |
| HandlerTable.GlyphKeys | lib/draw/BpmnRenderer.js:188-190 | the key under which `renderEventContent` fetches a glyph routine is that definition's `$type`, and it reaches that glyph's routine |
| Renderer.EventDrawing | lib/draw/BpmnRenderer.js:228-231 | definition: the event circle; see `Renderer.EventCircles` |
| Renderer.StartEventDrawing | lib/draw/BpmnRenderer.js:232-238 | definition: the event circle, then the content; see `Renderer.EventCircles` |
| Renderer.EndEventDrawing | lib/draw/BpmnRenderer.js:389-399 | definition: the event circle with border 4, then the content; see `Renderer.EventCircles` |
| Renderer.IntermediateEventDrawing | lib/draw/BpmnRenderer.js:410-420 | definition: two circles and the content; see `Renderer.IntermediateEventCircles` |
| Renderer.InterruptedEventDrawing | lib/draw/BpmnRenderer.js:421-432 | definition: two dashed circles and the content; see `Renderer.InterruptedEventRings` |
| Renderer.BoundaryEventDrawing | lib/draw/BpmnRenderer.js:594-597 | definition: the interrupted event, then the content again; see `Renderer.BoundaryGlyphTwice` |
| Renderer.TransactionDrawing | lib/draw/BpmnRenderer.js:452-460 | definition: two rectangles; see `Renderer.TransactionInset` |
| Renderer.CallActivityDrawing | lib/draw/BpmnRenderer.js:461-465 | definition: the thick activity rectangle; see `Renderer.CallActivityBorder` |
| Renderer.ConnectionLine | lib/draw/BpmnRenderer.js:484-523 | definition: `drawLine` with a connection's dash pattern and markers; see `Renderer.ConnectionsFollowStyle` |
| Renderer.DataObjectDrawing | lib/draw/BpmnRenderer.js:524-539 | definition: the page and maybe the bars; see `Renderer.CollectionIconIff` |
| Renderer.DataPortDrawing | lib/draw/BpmnRenderer.js:540-567 | definition: the data object and the arrow; see `Renderer.DataPortArrows` |
| Renderer.DataStoreDrawing | lib/draw/BpmnRenderer.js:568-593 | definition: the cylinder; see `Renderer.DataStoreCylinderStyle` |
| Renderer.KindDrawing | lib/draw/BpmnRenderer.js:227-598 | definition: what each routine of the table draws for an element; see `Renderer.ConnectionsFollowStyle` and the drawing lemmas below |
| Renderer.DrawShape | lib/draw/BpmnRenderer.js:600-609 | draws exactly when the table has an entry for the element's type, and delegates to the default `drawShape` exactly when it has none |
| Renderer.DrawConnection | lib/draw/BpmnRenderer.js:611-620 | the same lookup, delegating to the default `drawConnection` exactly when the table has no entry |
| Renderer.ShapeAndConnectionAgree | lib/draw/BpmnRenderer.js:600-620 | on every key of the table both entry points draw the same; off the table they delegate to their own defaults |
| Renderer.AliasDrawsAsTarget | lib/draw/BpmnRenderer.js:182-186 | an element whose type is built with `as(x)` is drawn exactly as one of type `x` |
| Renderer.TextAnnotationDelegates | lib/draw/BpmnRenderer.js:600-620 | the text annotation type has no entry in the table, so both entry points give it to the default renderer; the general statement for every key off the table is `Renderer.ShapeAndConnectionAgree` |
| Renderer.GlyphShapeIsCatchStyled | lib/draw/BpmnRenderer.js:239-408 | an element whose type is an event definition's `$type` is drawn as that glyph in catch styling, since the table passes no throw flag |
| Renderer.ActivityKeysDrawRoundedBox | lib/draw/BpmnRenderer.js:437-451 | the activity and its ten aliases draw one white rectangle over the box with radius 8 and a black border of width 2 |
| Renderer.LaneKeysDrawSquareBox | lib/draw/BpmnRenderer.js:467-472 | lanes and participants draw the box with square corners |
| Renderer.GatewayKeysDrawDiamond | lib/draw/BpmnRenderer.js:473-482 | the gateway and its five aliases draw the diamond through the midpoints of the box's sides |
| Renderer.TransactionInset | lib/draw/BpmnRenderer.js:452-460 | a transaction draws the activity rectangle and one 3 inside it on every side with radius 6, both of border width 1.5, and returns the outer one |
| Renderer.CallActivityBorder | lib/draw/BpmnRenderer.js:461-465 | a call activity draws the activity rectangle with border width 4 |
| Renderer.EventCircles | lib/draw/BpmnRenderer.js:228-398 | the plain event draws the radius-18 circle centred in the 36 by 36 box; start and end events draw it with border 1 and 4, then the content, and return it |
| Renderer.IntermediateEventCircles | lib/draw/BpmnRenderer.js:410-420 | an intermediate event draws the event circle and a circle 3 smaller centred in the element's box, both of border 1, then the content |
| Renderer.InterruptedEventRings | lib/draw/BpmnRenderer.js:421-432 | an interrupted event draws two circles of radius 18 and 15 dashed `12`, then the content, and returns the outer one |
| Renderer.BoundaryGlyphTwice | lib/draw/BpmnRenderer.js:594-597 | a boundary event draws the interrupted rings, then the content twice, and returns the second content's element, or nothing when no glyph applies |
| Renderer.ConnectionsFollowStyle | lib/draw/BpmnRenderer.js:484-523 | a routine draws a line exactly when it is a connection routine; the line runs through the flattened waypoints with the dash pattern and the markers of its notation |
| Renderer.ConnectionMarkers | lib/draw/BpmnRenderer.js:484-523 | after `initMarkers` a connection shows the registered markers of its notation; with an empty registry it shows none |
| Renderer.ConnectionNotation | lib/draw/BpmnRenderer.js:484-523 | sequence flows end in the filled arrow; message flows start with the dot, end in the white arrow and are dashed `1,3`; data associations are dashed `2,4` and end in the open arrow; associations are dashed `3,3` without markers |
| Renderer.CollectionIconIff | lib/draw/BpmnRenderer.js:524-539 | a data object draws the page and, exactly when `isCollection` is strictly `true` on the referenced object or the element, the bars moved to (17.8, 42.0) |
| Renderer.DataPortArrows | lib/draw/BpmnRenderer.js:540-567 | data inputs and outputs draw the data object and then the arrow moved by (7, 7), unfilled for an input and filled black for an output |
| Renderer.DataStoreCylinderStyle | lib/draw/BpmnRenderer.js:568-593 | a data store draws the cylinder alone, border width 1 in `rgb(34, 34, 34)`; its fill is black at fill opacity 0, so the cylinder shows unfilled |

## Left out

- The vector-graphics calls (`paper.circle`, `path`, `polyline`, `marker`, `attr`, `transform`) are replaced by records of the final attributes. Path data strings are names. Some attributes are not recorded. The data store's `stroke-miterlimit`, `stroke-linejoin`, `stroke-linecap`, `stroke-opacity: 1` and `stroke-dasharray: none` (lines 583-588) match the defaults of the drawing surface. Also not recorded: the markers' viewport attributes (`markerUnits`, `markerWidth`, `markerHeight`, `orient`, `overflow`), their stroke width and dash pattern, and the `djs-connection-marker` class. The data store's `fill-opacity: 0` (line 589) is recorded, as `fillOpacity`.
- `styles.style([ 'no-fill' ], ...)` in `drawLine` and `drawPath` belongs to the diagram framework and is not modelled. The drawn elements carry only the attributes the renderer passes.
- The default renderer's `drawShape` and `drawConnection` are outside this file. The model records only that the element was handed to them (`DefaultShape`, `DefaultConnection`).
- The event bus subscription, dependency injection, the prototype chain and the path map are not modelled. `CanvasLifecycle` stands for the `canvas.init` handler.
- Renderer.KindDrawing: a routine that reads the semantic element (an event routine through `isThrowObject`, a data object routine through `.isCollection`) dereferences it without a check. The model requires it to be in the registry; it does not model the exception thrown when it is missing.
- Renderer.EndEventDrawing: the extra `true` argument that the end event passes to `renderEventContent` is ignored by that function, so the model does not pass it.
- HandlerTable.Handlers: keys inherited from `Object.prototype` (such as `toString`) are not modelled. Only the fifty keys of the literal find an entry.
- Primitives.DrawCircle: widths and heights are integers, so `Math.round` is exact. Fractional box sizes and NaN are not modelled.
- Primitives.DrawDiamond: the coordinates are exact reals, not floating-point numbers.
- Primitives.FlattenPoints: `flattenPoints` comes from the diagram framework's default renderer, and that code is not part of this model. It is modelled as the coordinates of the waypoints in order, x before y. Waypoint coordinates are integers (`Point(x: int, y: int)`); fractional waypoints are not modelled.
- The test files ModelCloneHelperSpec, BpmnKeyBindingsSpec and MockEvents exercise other components and are not part of this model.
