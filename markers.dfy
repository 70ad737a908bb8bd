/** The renderer's registry of connection markers: empty when the renderer
    is built, filled by `initMarkers` when the canvas initialises, read by
    the connection handlers through `marker(id)`. */
module Markers {
  import opened Wrappers
  import opened Primitives

  const SequenceFlowEnd := "sequenceflow-end"
  const MessageFlowStart := "messageflow-start"
  const MessageFlowEnd := "messageflow-end"
  const DirectedAssociationEnd := "directed-association-end"
  const DataAssociationEnd := "data-association-end"

  /** The ids `initMarkers` registers. */
  function MarkerIds(): set<string> {
    {SequenceFlowEnd, MessageFlowStart, MessageFlowEnd, DirectedAssociationEnd, DataAssociationEnd}
  }

  /** The marker elements `initMarkers` registers, by id. */
  function InitialMarkers(): map<string, MarkerDef> {
    map[
      SequenceFlowEnd := MarkerDef(ClosedArrow, NoColor, Black, 10, 5),
      MessageFlowStart := MarkerDef(Dot, Black, White, 4, 4),
      MessageFlowEnd := MarkerDef(ClosedArrow, Black, White, 11, 5),
      DirectedAssociationEnd := MarkerDef(ClosedArrow, Black, NoColor, 10, 5),
      DataAssociationEnd := MarkerDef(OpenArrow, Black, White, 10, 5)
    ]
  }

  /** `initMarkers` registers exactly five distinct ids. */
  lemma InitialMarkerIds()
    ensures InitialMarkers().Keys == MarkerIds()
    ensures |InitialMarkers()| == 5
  {
    var m := InitialMarkers();
    assert m.Keys == MarkerIds();
    assert |MarkerIds()| == 5 by {
      var s1 := {SequenceFlowEnd};
      var s2 := s1 + {MessageFlowStart};
      var s3 := s2 + {MessageFlowEnd};
      var s4 := s3 + {DirectedAssociationEnd};
      assert |s4| == 4;
      assert MarkerIds() == s4 + {DataAssociationEnd};
    }
  }

  /** Overlaying the initial markers is idempotent (a fact of map union),
      so a second `initMarkers` leaves the registry as the first left it. */
  lemma InitMarkersIdempotent(m: map<string, MarkerDef>)
    ensures m + InitialMarkers() + InitialMarkers() == m + InitialMarkers()
  {
  }

  /** Registering the initial markers adds exactly the five ids. */
  lemma InitialMarkersAddIds(m: map<string, MarkerDef>)
    ensures (m + InitialMarkers()).Keys == m.Keys + MarkerIds()
  {
    InitialMarkerIds();
  }

  /** The five registrations of `initMarkers`, in their order, amount to
      adding the initial markers. */
  lemma FiveRegistrations(m: map<string, MarkerDef>)
    ensures m[SequenceFlowEnd := MarkerDef(ClosedArrow, NoColor, Black, 10, 5)]
             [MessageFlowStart := MarkerDef(Dot, Black, White, 4, 4)]
             [MessageFlowEnd := MarkerDef(ClosedArrow, Black, White, 11, 5)]
             [DirectedAssociationEnd := MarkerDef(ClosedArrow, Black, NoColor, 10, 5)]
             [DataAssociationEnd := MarkerDef(OpenArrow, Black, White, 10, 5)]
            == m + InitialMarkers()
  {
  }

  class MarkerRegistry {
    var markers: map<string, MarkerDef>

    /** The `markers` dictionary starts empty. */
    constructor ()
      ensures markers == map[]
    {
      markers := map[];
    }

    /** `marker(id)`: the registered element, undefined when none is. */
    function Marker(id: string): (r: Option<MarkerDef>)
      reads this
      ensures r.Some? <==> id in markers
      ensures r.Some? ==> r.value == markers[id]
    {
      if id in markers then Some(markers[id]) else None
    }

    /** Every marker `initMarkers` registers is present with its element. */
    predicate Initialized()
      reads this
    {
      forall id :: id in InitialMarkers() ==> Marker(id) == Some(InitialMarkers()[id])
    }

    /** `addMarker(id, element)`: registers or overwrites one id. */
    method AddMarker(id: string, element: MarkerDef)
      modifies this
      ensures markers == old(markers)[id := element]
      ensures Marker(id) == Some(element)
      ensures forall other :: other != id ==> Marker(other) == old(Marker(other))
    {
      markers := markers[id := element];
    }

    /** `initMarkers(paper)`: five registrations in a row. */
    method InitMarkers()
      modifies this
      ensures markers == old(markers) + InitialMarkers()
      ensures Initialized()
      ensures forall id :: id !in MarkerIds() ==> Marker(id) == old(Marker(id))
    {
      ghost var before := markers;
      AddMarker(SequenceFlowEnd, MarkerDef(ClosedArrow, NoColor, Black, 10, 5));
      AddMarker(MessageFlowStart, MarkerDef(Dot, Black, White, 4, 4));
      AddMarker(MessageFlowEnd, MarkerDef(ClosedArrow, Black, White, 11, 5));
      AddMarker(DirectedAssociationEnd, MarkerDef(ClosedArrow, Black, NoColor, 10, 5));
      AddMarker(DataAssociationEnd, MarkerDef(OpenArrow, Black, White, 10, 5));
      FiveRegistrations(before);
    }
  }

  /** A renderer is built, then the canvas initialises. `beforeInit` is
      what the registry holds between the two: nothing, so every `marker`
      lookup is undefined. After it the registry holds exactly the five
      initial markers. */
  method CanvasLifecycle() returns (reg: MarkerRegistry, beforeInit: map<string, MarkerDef>)
    ensures fresh(reg)
    ensures beforeInit == map[]
    ensures reg.markers == beforeInit + InitialMarkers() == InitialMarkers()
    ensures reg.markers.Keys == MarkerIds() && |reg.markers| == 5
  {
    reg := new MarkerRegistry();
    beforeInit := reg.markers;
    reg.InitMarkers();
    InitialMarkersAddIds(map[]);
    InitialMarkerIds();
  }
}
