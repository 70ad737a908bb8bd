/** Event content: `renderEventContent` picks at most one event-definition
    glyph by a fixed chain of tests, and the twelve event-definition
    handlers draw that glyph in throw or catch styling. */
module EventContent {
  import opened Wrappers
  import opened Semantics
  import opened Primitives

  datatype Glyph =
    | Message | Timer | Conditional | Signal | Multiple | ParallelMultiple
    | Escalation | Link | Error | Cancel | Compensate | Terminate

  /** The event-definition `$type` of each glyph, which is also the key of
      its handler. */
  function DefinitionType(g: Glyph): string {
    match g
    case Message => "bpmn:MessageEventDefinition"
    case Timer => "bpmn:TimerEventDefinition"
    case Conditional => "bpmn:ConditionalEventDefinition"
    case Signal => "bpmn:SignalEventDefinition"
    case Multiple => "bpmn:MultipleEventDefinition"
    case ParallelMultiple => "bpmn:ParallelMultipleEventDefinition"
    case Escalation => "bpmn:EscalationEventDefinition"
    case Link => "bpmn:LinkEventDefinition"
    case Error => "bpmn:ErrorEventDefinition"
    case Cancel => "bpmn:CancelEventDefinition"
    case Compensate => "bpmn:CompensateEventDefinition"
    case Terminate => "bpmn:TerminateEventDefinition"
  }

  /** `checkSemantic(data.id, DefinitionType(g))` for a present element. */
  predicate Has(s: Semantic, g: Glyph) {
    HasDefinition(Some(s), DefinitionType(g))
  }

  /** The test chain of `renderEventContent`, over the answers `has(g)` of
      `checkSemantic` for each definition type and the truthiness of
      `parallelMultiple`. The multiple and parallel-multiple branches test
      for a Cancel and a Terminate definition together. */
  function Chain(has: Glyph -> bool, parallel: bool): Option<Glyph> {
    if has(Message) then Some(Message)
    else if has(Timer) then Some(Timer)
    else if has(Conditional) then Some(Conditional)
    else if has(Signal) then Some(Signal)
    else if has(Cancel) && has(Terminate) && !parallel then Some(Multiple)
    else if has(Cancel) && has(Terminate) && parallel then Some(ParallelMultiple)
    else if has(Escalation) then Some(Escalation)
    else if has(Link) then Some(Link)
    else if has(Error) then Some(Error)
    else if has(Cancel) then Some(Cancel)
    else if has(Compensate) then Some(Compensate)
    else if has(Terminate) then Some(Terminate)
    else None
  }

  /** The `checkSemantic` answers for a present semantic element. */
  function Checks(s: Semantic): Glyph -> bool {
    g => Has(s, g)
  }

  /** `renderEventContent`'s choice of glyph for a present semantic element. */
  function SelectGlyph(s: Semantic): Option<Glyph> {
    Chain(Checks(s), Truthy(s.parallelMultiple))
  }

  // ---------------------------------------------------------------------
  // A reference formulation: a precedence list and a guard per glyph.

  /** The order in which the chain tries the glyphs. */
  const Precedence: seq<Glyph> :=
    [Message, Timer, Conditional, Signal, Multiple, ParallelMultiple,
     Escalation, Link, Error, Cancel, Compensate, Terminate]

  /** The position of a glyph in `Precedence`. */
  function Rank(g: Glyph): (r: nat)
    ensures r < |Precedence| && Precedence[r] == g
  {
    match g
    case Message => 0
    case Timer => 1
    case Conditional => 2
    case Signal => 3
    case Multiple => 4
    case ParallelMultiple => 5
    case Escalation => 6
    case Link => 7
    case Error => 8
    case Cancel => 9
    case Compensate => 10
    case Terminate => 11
  }

  /** The condition under which the chain draws a glyph. */
  predicate Guard(g: Glyph, has: Glyph -> bool, parallel: bool) {
    match g
    case Multiple => has(Cancel) && has(Terminate) && !parallel
    case ParallelMultiple => has(Cancel) && has(Terminate) && parallel
    case _ => has(g)
  }

  /** The guard of `g` for a present semantic element. */
  predicate Applies(g: Glyph, s: Semantic) {
    Guard(g, Checks(s), Truthy(s.parallelMultiple))
  }

  /** The first glyph of `Precedence`, from position `i` on, whose guard holds. */
  function FirstFrom(i: nat, has: Glyph -> bool, parallel: bool): Option<Glyph>
    requires i <= |Precedence|
    decreases |Precedence| - i
  {
    if i == |Precedence| then None
    else if Guard(Precedence[i], has, parallel) then Some(Precedence[i])
    else FirstFrom(i + 1, has, parallel)
  }

  /** `FirstFrom(i)` finds `g` exactly when `g` is ranked at `i` or later,
      its guard holds, and no guard ranked from `i` up to it does. */
  lemma {:induction false} FirstFromIff(i: nat, has: Glyph -> bool, parallel: bool, g: Glyph)
    requires i <= |Precedence|
    ensures FirstFrom(i, has, parallel) == Some(g) <==>
      i <= Rank(g) && Guard(g, has, parallel) &&
      forall h :: i <= Rank(h) < Rank(g) ==> !Guard(h, has, parallel)
    decreases |Precedence| - i
  {
    if i < |Precedence| {
      FirstFromIff(i + 1, has, parallel, g);
      var first := Precedence[i];
      assert Rank(first) == i;
      if Guard(first, has, parallel) && first != g {
        assert Rank(g) != i;
      }
      forall h | Rank(h) == i ensures h == first {
        assert Precedence[Rank(h)] == h;
      }
    }
  }

  /** `FirstFrom(i)` finds nothing exactly when no guard ranked from `i` on holds. */
  lemma {:induction false} FirstFromNone(i: nat, has: Glyph -> bool, parallel: bool)
    requires i <= |Precedence|
    ensures FirstFrom(i, has, parallel) == None <==>
      forall h :: i <= Rank(h) ==> !Guard(h, has, parallel)
    decreases |Precedence| - i
  {
    if i < |Precedence| {
      FirstFromNone(i + 1, has, parallel);
      assert Rank(Precedence[i]) == i;
      forall h | Rank(h) == i ensures h == Precedence[i] {
        assert Precedence[Rank(h)] == h;
      }
    }
  }

  /** The written-out chain tries the glyphs in exactly `Precedence` order. */
  lemma ChainFollowsPrecedence(has: Glyph -> bool, parallel: bool)
    ensures Chain(has, parallel) == FirstFrom(0, has, parallel)
  {
    assert FirstFrom(11, has, parallel) == (if has(Terminate) then Some(Terminate) else None);
    assert FirstFrom(6, has, parallel) == (
      if has(Escalation) then Some(Escalation) else if has(Link) then Some(Link)
      else if has(Error) then Some(Error) else if has(Cancel) then Some(Cancel)
      else if has(Compensate) then Some(Compensate) else FirstFrom(11, has, parallel));
  }

  /** Glyph precedence: `g` is chosen exactly when its guard holds and the
      guard of every glyph ranked before it fails. */
  lemma SelectGlyphIff(s: Semantic, g: Glyph)
    ensures SelectGlyph(s) == Some(g) <==>
      Applies(g, s) && forall h :: Rank(h) < Rank(g) ==> !Applies(h, s)
  {
    ChainFollowsPrecedence(Checks(s), Truthy(s.parallelMultiple));
    FirstFromIff(0, Checks(s), Truthy(s.parallelMultiple), g);
  }

  /** Nothing is drawn exactly when no guard holds. */
  lemma NoGlyphIff(s: Semantic)
    ensures SelectGlyph(s) == None <==> forall g :: !Applies(g, s)
  {
    ChainFollowsPrecedence(Checks(s), Truthy(s.parallelMultiple));
    FirstFromNone(0, Checks(s), Truthy(s.parallelMultiple));
    assert forall g :: Applies(g, s) == Guard(g, Checks(s), Truthy(s.parallelMultiple));
  }

  /** Multiple versus parallel multiple: one of the two is chosen exactly
      when Cancel and Terminate definitions are both present and none of
      message, timer, conditional or signal is; `parallelMultiple` then
      decides which. */
  lemma MultipleOrParallel(s: Semantic)
    ensures (SelectGlyph(s) == Some(Multiple) || SelectGlyph(s) == Some(ParallelMultiple)) <==>
      Has(s, Cancel) && Has(s, Terminate) &&
      !Has(s, Message) && !Has(s, Timer) && !Has(s, Conditional) && !Has(s, Signal)
    ensures SelectGlyph(s) == Some(Multiple) ==> !Truthy(s.parallelMultiple)
    ensures SelectGlyph(s) == Some(ParallelMultiple) ==> Truthy(s.parallelMultiple)
  {
  }

  /** The standalone cancel branch is reachable only without a Terminate
      definition, the terminate branch only without a Cancel definition. */
  lemma CancelTerminateReachability(s: Semantic)
    ensures SelectGlyph(s) == Some(Cancel) <==>
      Has(s, Cancel) && !Has(s, Terminate) &&
      !Has(s, Message) && !Has(s, Timer) && !Has(s, Conditional) && !Has(s, Signal) &&
      !Has(s, Escalation) && !Has(s, Link) && !Has(s, Error)
    ensures SelectGlyph(s) == Some(Terminate) <==>
      Has(s, Terminate) && !Has(s, Cancel) &&
      !Has(s, Message) && !Has(s, Timer) && !Has(s, Conditional) && !Has(s, Signal) &&
      !Has(s, Escalation) && !Has(s, Link) && !Has(s, Error) && !Has(s, Compensate)
  {
  }

  /** No definition of an element whose definitions all have one of two
      types of other lengths matches `t`. */
  lemma {:induction false} NotOfType(s: Semantic, t: string, t1: string, t2: string)
    requires s.eventDefinitions.Some?
    requires forall d :: d in s.eventDefinitions.value ==> d.typeName == t1 || d.typeName == t2
    requires |t| != |t1| && |t| != |t2|
    ensures !HasDefinition(Some(s), t)
  {
    var defs := s.eventDefinitions.value;
    forall i | 0 <= i < |defs| ensures defs[i].typeName != t {
      assert defs[i] in defs;
    }
  }

  /** The chain never tests for the multiple definition types themselves:
      an event whose only definitions are of those types gets no glyph. */
  lemma MultipleDefinitionsAloneGiveNoGlyph(s: Semantic)
    requires s.eventDefinitions.Some?
    requires forall d :: d in s.eventDefinitions.value ==>
      d.typeName == DefinitionType(Multiple) || d.typeName == DefinitionType(ParallelMultiple)
    ensures SelectGlyph(s) == None
  {
    var t1, t2 := DefinitionType(Multiple), DefinitionType(ParallelMultiple);
    NotOfType(s, DefinitionType(Message), t1, t2);
    NotOfType(s, DefinitionType(Timer), t1, t2);
    NotOfType(s, DefinitionType(Conditional), t1, t2);
    NotOfType(s, DefinitionType(Signal), t1, t2);
    NotOfType(s, DefinitionType(Escalation), t1, t2);
    NotOfType(s, DefinitionType(Link), t1, t2);
    NotOfType(s, DefinitionType(Error), t1, t2);
    NotOfType(s, DefinitionType(Cancel), t1, t2);
    NotOfType(s, DefinitionType(Compensate), t1, t2);
    NotOfType(s, DefinitionType(Terminate), t1, t2);
  }

  // ---------------------------------------------------------------------
  // The event-definition handlers.

  /** A one-path glyph with stroke width 1. */
  function GlyphPath(key: string, fill: Color, stroke: Color): Primitive {
    Path(Template(key), 1.0, stroke, fill, 1.0, Identity)
  }

  /** Black when throwing, none when catching. */
  function ThrowFill(throwEvent: bool): Color {
    if throwEvent then Black else NoColor
  }

  /** What the handler for `g` draws, given the throw flag it is passed. */
  function GlyphDrawing(g: Glyph, throwEvent: bool): (r: Drawing)
    ensures r.Valid() && r.handle == Some(0) && |r.prims| > 0
  {
    match g
    case Message =>
      Drawing([GlyphPath("EVENT_MESSAGE", ThrowFill(throwEvent), if throwEvent then White else Black)], Some(0))
    case Timer =>
      Drawing([GlyphPath("EVENT_TIMER_1", Black, Black),
               GlyphPath("EVENT_TIMER_2", Black, Black),
               GlyphPath("EVENT_TIMER_WH", Black, Black)], Some(0))
    case Conditional => Drawing([GlyphPath("EVENT_CONDITIONAL", NoColor, Black)], Some(0))
    case Signal => Drawing([GlyphPath("EVENT_SIGNAL", ThrowFill(throwEvent), Black)], Some(0))
    case Multiple => Drawing([GlyphPath("EVENT_MULTIPLE", ThrowFill(throwEvent), Black)], Some(0))
    case ParallelMultiple => Drawing([GlyphPath("EVENT_PARALLEL_MULTIPLE", NoColor, Black)], Some(0))
    case Escalation => Drawing([GlyphPath("EVENT_ESCALATION", ThrowFill(throwEvent), Black)], Some(0))
    case Link => Drawing([GlyphPath("EVENT_LINK", NoColor, Black)], Some(0))
    case Error => Drawing([GlyphPath("EVENT_ERROR", ThrowFill(throwEvent), Black)], Some(0))
    case Cancel => Drawing([GlyphPath("EVENT_CANCEL", ThrowFill(throwEvent), Black)], Some(0))
    case Compensate => Drawing([GlyphPath("EVENT_COMPENSATION", ThrowFill(throwEvent), Black)], Some(0))
    case Terminate =>
      var c := DrawCircle(36, 36, 7);
      Drawing([Circle(c.cx, c.cy, c.r, 4.0, c.stroke, Black, c.dash)], Some(0))
  }

  /** `renderEventContent(data, p)`: the chosen glyph in the styling that
      `isThrowObject` gives, or nothing. */
  function RenderEventContent(s: Semantic): Option<Drawing> {
    match SelectGlyph(s)
    case None => None
    case Some(g) => Some(GlyphDrawing(g, IsThrowObject(s)))
  }

  /** The glyphs whose fill follows the throw flag. */
  predicate FillFollowsThrow(g: Glyph) {
    g in {Message, Escalation, Error, Cancel, Compensate, Signal, Multiple}
  }

  /** The glyphs that ignore the throw flag. */
  predicate IgnoresThrow(g: Glyph) {
    g in {Timer, Conditional, Link, ParallelMultiple, Terminate}
  }

  /** Throw/catch styling: the fill-following glyphs fill black when
      throwing and not at all otherwise; the message glyph also swaps its
      stroke to white when throwing; the others keep a black stroke. */
  lemma ThrowCatchStyling(g: Glyph, throwEvent: bool)
    requires FillFollowsThrow(g)
    ensures forall p :: p in GlyphDrawing(g, throwEvent).prims ==>
      p.Path? && p.fill == (if throwEvent then Black else NoColor) &&
      p.stroke == (if g == Message && throwEvent then White else Black)
  {
  }

  /** A glyph's drawing does not depend on the throw flag exactly when it is
      one of timer, conditional, link, parallel multiple and terminate. */
  lemma ThrowFlagIgnoredIff(g: Glyph)
    ensures GlyphDrawing(g, true) == GlyphDrawing(g, false) <==> IgnoresThrow(g)
    ensures IgnoresThrow(g) <==> !FillFollowsThrow(g)
  {
    if FillFollowsThrow(g) {
      assert GlyphDrawing(g, true).prims[0].fill != GlyphDrawing(g, false).prims[0].fill;
    }
  }

  /** For an event whose glyph follows the throw flag, every drawn element
      of the content is filled black exactly when the element's `$type` is
      an intermediate throw event or an end event. */
  lemma ContentFillFollowsType(s: Semantic, g: Glyph)
    requires SelectGlyph(s) == Some(g) && FillFollowsThrow(g)
    ensures RenderEventContent(s).Some?
    ensures forall p :: p in RenderEventContent(s).value.prims ==>
      (p.fill == Black <==> s.typeName == "bpmn:IntermediateThrowEvent" || s.typeName == "bpmn:EndEvent")
  {
    ThrowCatchStyling(g, IsThrowObject(s));
  }
}
