/** The arrow modifier: resolves the arrow element inside the popper, centres it on the
    reference along the placement's main axis, clamps it inside the popper, and records the
    element and the offset on the shared positioning state. */
module ArrowModifier {

  import opened Wrappers
  import opened Placements
  import opened Geometry

  /** A DOM element handle. */
  datatype Element = Element(id: nat)

  /** The `element` option: a CSS selector looked up inside the popper, or a handle. */
  datatype ElementOption = Selector(selector: string) | Handle(element: Element)

  /** The modifier's options; `element` may be omitted. */
  datatype Options = Options(element: Option<ElementOption>)

  const DefaultArrowSelector: string := "[data-popper-arrow]"

  /** What the modifier asks of the browser, supplied as inputs: a scoped selector lookup,
      the containment test, the arrow's client rectangle with margins added, and the scroll
      totals common to the reference's and the popper's scroll parents. */
  datatype Dom = Dom(
    querySelector: (Element, string) -> Option<Element>,
    contains: (Element, Element) -> bool,
    clientRectWithMargins: Element -> Rect,
    commonTotalScroll: ScrollTotals)

  /** `state.elements`. */
  datatype Elements = Elements(reference: Element, popper: Element, arrow: Option<Element>)

  /** `state.measures`. */
  datatype Measures = Measures(reference: Rect, popper: Rect)

  /** One entry of `state.modifiersData`: a record of numbers (popperOffsets, arrow) or the
      data of another modifier, which this one never reads. */
  datatype ModifierData = NumericRecord(fields: map<string, real>) | OtherData(tag: nat)

  /** The part of the positioning state the modifier reads or writes, as a value. */
  datatype PositioningState = PositioningState(
    placement: Placement,
    elements: Elements,
    measures: Measures,
    modifiersData: map<string, ModifierData>)

  /** The modifier's registration with the host pipeline. */
  datatype ModifierDescriptor = ModifierDescriptor(
    name: string, enabled: bool, phase: string, requiredModifiers: seq<string>)

  const ArrowKey: string := "arrow"
  const PopperOffsetsKey: string := "popperOffsets"
  const Descriptor: ModifierDescriptor :=
    ModifierDescriptor(ArrowKey, true, "main", [PopperOffsetsKey])

  /** The declared dependency has run: the popper offsets are on the state, keyed by axis. */
  predicate OffsetsReady(data: map<string, ModifierData>)
  {
    PopperOffsetsKey in data && data[PopperOffsetsKey].NumericRecord? &&
    AxisName(X) in data[PopperOffsetsKey].fields && AxisName(Y) in data[PopperOffsetsKey].fields
  }

  /** The `element` option with its default filled in. */
  function EffectiveElement(options: Options): (e: ElementOption)
    ensures options.element.None? ==> e == Selector("[data-popper-arrow]")
    ensures options.element.Some? ==> e == options.element.value
  {
    match options.element
    case None => Selector(DefaultArrowSelector)
    case Some(e) => e
  }

  /** The arrow element before the containment test: a handle as given, a selector looked
      up in the popper's subtree (nothing when it matches nothing). */
  function LookUpArrowElement(popper: Element, options: Options, dom: Dom): (found: Option<Element>)
    ensures options.element.None? ==> found == dom.querySelector(popper, "[data-popper-arrow]")
    ensures options.element.Some? && options.element.value.Selector? ==>
      found == dom.querySelector(popper, options.element.value.selector)
    ensures options.element.Some? && options.element.value.Handle? ==>
      found == Some(options.element.value.element)
  {
    match EffectiveElement(options)
    case Selector(q) => dom.querySelector(popper, q)
    case Handle(e) => Some(e)
  }

  /** The inputs of the centring arithmetic along the axis the placement selects. */
  function AxisGeometryOf(s: PositioningState, arrowRect: Rect, scroll: ScrollTotals): (g: AxisGeometry)
    requires OffsetsReady(s.modifiersData)
  {
    var side := GetBasePlacement(s.placement);
    var axis := MainAxis(side);
    var len := Len(side);
    AxisGeometry(
      Coord(s.measures.reference, axis),
      Size(s.measures.reference, len),
      s.modifiersData[PopperOffsetsKey].fields[AxisName(axis)],
      Size(s.measures.popper, len),
      Size(arrowRect, len),
      ScrollAlong(scroll, axis))
  }

  /** The output record `{ [axis]: center }`. */
  function ArrowRecord(axis: Axis, center: real): map<string, real>
  {
    map[AxisName(axis) := center]
  }

  /** What one run of the modifier does to the state. Only `elements.arrow` and
      `modifiersData.arrow` can change. */
  function ArrowStep(s: PositioningState, options: Options, dom: Dom): (t: PositioningState)
    requires OffsetsReady(s.modifiersData)
    ensures t.placement == s.placement && t.measures == s.measures
    ensures t.elements.reference == s.elements.reference && t.elements.popper == s.elements.popper
    ensures t.modifiersData - {ArrowKey} == s.modifiersData - {ArrowKey}
    ensures OffsetsReady(t.modifiersData)
  {
    match LookUpArrowElement(s.elements.popper, options, dom)
    case None => s
    case Some(e) =>
      if !dom.contains(s.elements.popper, e) then s
      else
        var g := AxisGeometryOf(s, dom.clientRectWithMargins(e), dom.commonTotalScroll);
        var axis := MainAxis(GetBasePlacement(s.placement));
        s.(elements := s.elements.(arrow := Some(e)),
           modifiersData := s.modifiersData[ArrowKey := NumericRecord(ArrowRecord(axis, Center(g)))])
  }

  /** With the option omitted, the default selector is the one looked up. */
  lemma DefaultSelectorIsUsed(popper: Element, dom: Dom)
    ensures LookUpArrowElement(popper, Options(None), dom)
         == dom.querySelector(popper, "[data-popper-arrow]")
  {
  }

  /** A selector that matches nothing inside the popper leaves the state as it was. */
  lemma SelectorMissIsNoOp(s: PositioningState, options: Options, dom: Dom)
    requires OffsetsReady(s.modifiersData)
    requires EffectiveElement(options).Selector?
    requires dom.querySelector(s.elements.popper, EffectiveElement(options).selector).None?
    ensures ArrowStep(s, options, dom) == s
  {
  }

  /** An element outside the popper leaves the state as it was; in particular neither
      arrow slot is written. */
  lemma NotContainedIsNoOp(s: PositioningState, options: Options, dom: Dom, e: Element)
    requires OffsetsReady(s.modifiersData)
    requires LookUpArrowElement(s.elements.popper, options, dom) == Some(e)
    requires !dom.contains(s.elements.popper, e)
    ensures ArrowStep(s, options, dom) == s
    ensures ArrowStep(s, options, dom).elements.arrow == s.elements.arrow
    ensures ArrowStep(s, options, dom).modifiersData == s.modifiersData
  {
  }

  /** On success the element is recorded and `modifiersData.arrow` becomes a one-key record
      whose key is the placement's axis and whose value is the clamped centre. */
  lemma SuccessWritesArrowSlots(s: PositioningState, options: Options, dom: Dom, e: Element)
    requires OffsetsReady(s.modifiersData)
    requires LookUpArrowElement(s.elements.popper, options, dom) == Some(e)
    requires dom.contains(s.elements.popper, e)
    ensures var t := ArrowStep(s, options, dom);
      var side := GetBasePlacement(s.placement);
      var g := AxisGeometryOf(s, dom.clientRectWithMargins(e), dom.commonTotalScroll);
      t.elements == s.elements.(arrow := Some(e)) &&
      ArrowKey in t.modifiersData && t.modifiersData[ArrowKey].NumericRecord? &&
      |t.modifiersData[ArrowKey].fields| == 1 &&
      t.modifiersData[ArrowKey].fields.Keys == {AxisName(MainAxis(side))} &&
      t.modifiersData[ArrowKey].fields[AxisName(MainAxis(side))] == Center(g) &&
      (AxisName(MainAxis(side)) == "x" <==> side == Top || side == Bottom)
  {
  }

  /** On success the stored offset keeps the arrow inside the popper along the axis whenever
      the arrow fits, and equals the unclamped centre when that already fits. */
  lemma StoredCenterInsidePopper(s: PositioningState, options: Options, dom: Dom, e: Element)
    requires OffsetsReady(s.modifiersData)
    requires LookUpArrowElement(s.elements.popper, options, dom) == Some(e)
    requires dom.contains(s.elements.popper, e)
    ensures var t := ArrowStep(s, options, dom);
      var side := GetBasePlacement(s.placement);
      var g := AxisGeometryOf(s, dom.clientRectWithMargins(e), dom.commonTotalScroll);
      var c := t.modifiersData[ArrowKey].fields[AxisName(MainAxis(side))];
      g.popperLen == Size(s.measures.popper, Len(side)) &&
      g.arrowLen == Size(dom.clientRectWithMargins(e), Len(side)) &&
      (g.arrowLen <= g.popperLen ==> 0.0 <= c <= g.popperLen - g.arrowLen) &&
      (0.0 <= RawCenter(g) <= g.popperLen - g.arrowLen ==> c == RawCenter(g))
  {
  }

  /** Running the modifier a second time on its own output changes nothing: it keeps no
      hidden accumulator and never reads the slots it writes. */
  lemma ArrowStepIsIdempotent(s: PositioningState, options: Options, dom: Dom)
    requires OffsetsReady(s.modifiersData)
    ensures ArrowStep(ArrowStep(s, options, dom), options, dom) == ArrowStep(s, options, dom)
  {
  }

  /** The shared, mutable positioning state the pipeline threads through its modifiers. */
  class State {
    var placement: Placement
    var elements: Elements
    var measures: Measures
    var modifiersData: map<string, ModifierData>

    /** The fields as a value. */
    function Value(): PositioningState
      reads this
    {
      PositioningState(placement, elements, measures, modifiersData)
    }
  }

  /** `arrow(state, options)`: updates the state in place and returns it. */
  method Arrow(state: State, options: Options, dom: Dom) returns (r: State)
    requires OffsetsReady(state.modifiersData)
    modifies state
    ensures r == state
    ensures state.Value() == ArrowStep(old(state.Value()), options, dom)
  {
    r := state;
    var arrowElement: Element;
    match EffectiveElement(options) {
      case Selector(q) =>
        var found := dom.querySelector(state.elements.popper, q);
        if found.None? {
          return;
        }
        arrowElement := found.value;
      case Handle(e) =>
        arrowElement := e;
    }

    if !dom.contains(state.elements.popper, arrowElement) {
      return;
    }

    state.elements := state.elements.(arrow := Some(arrowElement));

    var popperOffsets := state.modifiersData[PopperOffsetsKey].fields;
    var basePlacement := GetBasePlacement(state.placement);
    var axis := MainAxis(basePlacement);
    var len := Len(basePlacement);
    var arrowElementRect := dom.clientRectWithMargins(arrowElement);
    var g := AxisGeometry(
      Coord(state.measures.reference, axis),
      Size(state.measures.reference, len),
      popperOffsets[AxisName(axis)],
      Size(state.measures.popper, len),
      Size(arrowElementRect, len),
      ScrollAlong(dom.commonTotalScroll, axis));

    var center := RawCenter(g);
    center := Within(0.0, center, g.popperLen - g.arrowLen);

    state.modifiersData := state.modifiersData[ArrowKey := NumericRecord(ArrowRecord(axis, center))];
  }

  /** The state of the two worked examples: placement bottom, reference 100 by 30 at the
      origin, popper 40 high, 40 below, with the given left edge and width. */
  function BottomScenario(popperLeft: real, popperWidth: real): PositioningState
  {
    PositioningState(
      Placement(Bottom, Centered),
      Elements(Element(0), Element(1), None),
      Measures(Rect(0.0, 0.0, 100.0, 30.0), Rect(popperLeft, 40.0, popperWidth, 40.0)),
      map[PopperOffsetsKey := NumericRecord(map["x" := popperLeft, "y" := 40.0])])
  }

  /** Shared steps of the two worked examples: the default selector finds an arrow 20 wide
      inside the popper, with no scroll. */
  lemma BottomScenarioCenter(popperLeft: real, popperWidth: real, dom: Dom)
    requires dom.querySelector(Element(1), DefaultArrowSelector) == Some(Element(2))
    requires dom.contains(Element(1), Element(2))
    requires dom.clientRectWithMargins(Element(2)).width == 20.0
    requires dom.commonTotalScroll.scrollLeft == 0.0
    ensures var s := BottomScenario(popperLeft, popperWidth);
      OffsetsReady(s.modifiersData) &&
      ArrowStep(s, Options(None), dom).modifiersData[ArrowKey] == NumericRecord(map["x" :=
        Center(AxisGeometry(0.0, 100.0, popperLeft, popperWidth, 20.0, 0.0))])
  {
    var s := BottomScenario(popperLeft, popperWidth);
    var side := GetBasePlacement(s.placement);
    assert side == Bottom;
    assert AxisGeometryOf(s, dom.clientRectWithMargins(Element(2)), dom.commonTotalScroll)
        == AxisGeometry(0.0, 100.0, popperLeft, popperWidth, 20.0, 0.0);
    SuccessWritesArrowSlots(s, Options(None), dom, Element(2));
    var rec := ArrowStep(s, Options(None), dom).modifiersData[ArrowKey].fields;
    assert rec.Keys == {"x"};
  }

  /** The popper twice as wide as the reference and centred under it: the arrow lands at 90
      along x. */
  lemma WiderPopperScenario(dom: Dom)
    requires dom.querySelector(Element(1), DefaultArrowSelector) == Some(Element(2))
    requires dom.contains(Element(1), Element(2))
    requires dom.clientRectWithMargins(Element(2)).width == 20.0
    requires dom.commonTotalScroll.scrollLeft == 0.0
    ensures OffsetsReady(BottomScenario(-50.0, 200.0).modifiersData)
    ensures ArrowStep(BottomScenario(-50.0, 200.0), Options(None), dom).modifiersData[ArrowKey]
         == NumericRecord(map["x" := 90.0])
  {
    BottomScenarioCenter(-50.0, 200.0, dom);
    assert Center(AxisGeometry(0.0, 100.0, -50.0, 200.0, 20.0, 0.0)) == 90.0;
  }

  /** The popper as wide as the reference: no correction, the arrow lands at 40. */
  lemma EqualWidthScenario(dom: Dom)
    requires dom.querySelector(Element(1), DefaultArrowSelector) == Some(Element(2))
    requires dom.contains(Element(1), Element(2))
    requires dom.clientRectWithMargins(Element(2)).width == 20.0
    requires dom.commonTotalScroll.scrollLeft == 0.0
    ensures OffsetsReady(BottomScenario(0.0, 100.0).modifiersData)
    ensures ArrowStep(BottomScenario(0.0, 100.0), Options(None), dom).modifiersData[ArrowKey]
         == NumericRecord(map["x" := 40.0])
  {
    BottomScenarioCenter(0.0, 100.0, dom);
    assert Center(AxisGeometry(0.0, 100.0, 0.0, 100.0, 20.0, 0.0)) == 40.0;
  }
}
