/** The interactive crime map. A fixed table gives each state a crime-rate
    figure and a tier. When the map document loads, every `<path>` with a
    non-empty `title` gets three listeners: entering it shows a tooltip for
    a tabled state, leaving it hides the tooltip, and clicking it toggles
    the selection and sets the path's stroke width. The document is a
    sequence of path records; the listeners are the methods of `MapView`. */
module IndiaMap {
  import opened Basics
  import opened RiskTier

  // ---------------------------------------------------------------------
  // The crime table
  // ---------------------------------------------------------------------

  /** One row of the table: a crime-rate figure and the tier shown for it. */
  datatype StateData = StateData(value: nat, riskLevel: Tier)

  /** The tier as the table spells it. */
  function LevelName(t: Tier): string {
    match t
    case High => "high"
    case Medium => "medium"
    case Low => "low"
  }

  const CrimeData: map<string, StateData> := map[
    "Jammu and Kashmir" := StateData(45, Medium),
    "Himachal Pradesh" := StateData(25, Low),
    "Punjab" := StateData(55, Medium),
    "Uttarakhand" := StateData(30, Low),
    "Haryana" := StateData(60, Medium),
    "Rajasthan" := StateData(70, High),
    "Uttar Pradesh" := StateData(85, High),
    "Bihar" := StateData(75, High),
    "West Bengal" := StateData(65, Medium),
    "Gujarat" := StateData(50, Medium),
    "Madhya Pradesh" := StateData(55, Medium),
    "Maharashtra" := StateData(80, High),
    "Karnataka" := StateData(50, Medium),
    "Tamil Nadu" := StateData(40, Low),
    "Kerala" := StateData(30, Low)]

  /** The table's tiers follow the 70/40 thresholds for every state except
      Tamil Nadu, whose figure 40 is a medium level but whose tier is low. */
  lemma TableTiers()
    ensures forall name :: name in CrimeData && name != "Tamil Nadu" ==>
      CrimeData[name].riskLevel == Classify(CrimeData[name].value as real)
    ensures "Tamil Nadu" in CrimeData && CrimeData["Tamil Nadu"].riskLevel == Low
    ensures Classify(CrimeData["Tamil Nadu"].value as real) == Medium
  {
  }

  // ---------------------------------------------------------------------
  // Tooltip text
  // ---------------------------------------------------------------------

  /** `toUpperCase` on one character, for ASCII letters. */
  function Upper(c: char): char {
    if 'a' <= c <= 'z' then (c as int - 32) as char else c
  }

  /** `s.charAt(0).toUpperCase() + s.slice(1)`. */
  function Capitalise(s: string): string {
    if s == [] then [] else [Upper(s[0])] + s[1..]
  }

  /** The legend's labels, top to bottom. */
  const Legend: seq<string> := ["High", "Medium", "Low"]

  /** The tier shown in a tooltip is the legend's label for that tier, and
      the legend lists the tiers from most to least severe. */
  lemma TooltipTierMatchesLegend()
    ensures Capitalise(LevelName(High)) == Legend[0]
    ensures Capitalise(LevelName(Medium)) == Legend[1]
    ensures Capitalise(LevelName(Low)) == Legend[2]
  {
    assert Capitalise("high") == [Upper('h')] + "igh";
    assert Capitalise("medium") == [Upper('m')] + "edium";
    assert Capitalise("low") == [Upper('l')] + "ow";
  }

  function DigitChar(d: nat): char
    requires d < 10
  {
    ('0' as int + d) as char
  }

  function DigitValue(c: char): int {
    c as int - '0' as int
  }

  /** The decimal numeral of a whole number, as a template literal prints it. */
  function NatToString(n: nat): (s: string)
    ensures |s| >= 1
    ensures forall i :: 0 <= i < |s| ==> '0' <= s[i] <= '9'
    ensures n > 0 ==> s[0] != '0'
    decreases n
  {
    if n < 10 then [DigitChar(n)] else NatToString(n / 10) + [DigitChar(n % 10)]
  }

  /** Reading a numeral back, most significant digit first. */
  function ParseDigits(s: string): int {
    if s == [] then 0 else 10 * ParseDigits(s[..|s| - 1]) + DigitValue(s[|s| - 1])
  }

  /** The figure printed in a tooltip reads back as the table's figure. */
  lemma {:induction false} NatToStringRoundTrip(n: nat)
    ensures ParseDigits(NatToString(n)) == n
    decreases n
  {
    var s := NatToString(n);
    if n < 10 {
      assert s[..|s| - 1] == [];
    } else {
      NatToStringRoundTrip(n / 10);
      assert s[..|s| - 1] == NatToString(n / 10);
    }
  }

  const RateLine: string := "\nCrime Rate: "
  const LevelLine: string := "\nRisk Level: "

  /** The tooltip of a tabled state: its name, its figure and its tier. */
  function TooltipText(name: string, data: StateData): string {
    name + RateLine + NatToString(data.value) + LevelLine + Capitalise(LevelName(data.riskLevel))
  }

  // ---------------------------------------------------------------------
  // Geometry and rendering
  // ---------------------------------------------------------------------

  datatype Point = Point(x: real, y: real)

  /** A bounding client rectangle. */
  datatype Rect = Rect(left: real, top: real, width: real, height: real)

  /** How far above the anchor the tooltip is drawn. */
  const TooltipLift: real := 70.0

  /** The tooltip anchor: the horizontal centre of the top edge. */
  function Anchor(r: Rect): (p: Point)
    ensures r.width >= 0.0 ==> r.left <= p.x <= r.left + r.width
    ensures p.x - r.left == r.left + r.width - p.x && p.y == r.top
  {
    Point(r.left + r.width / 2.0, r.top)
  }

  /** The floating box: its left and top coordinates and its text. */
  datatype TooltipBox = TooltipBox(left: real, top: real, text: string)

  /** The tooltip is drawn only while there is content, at the stored x and
      70 pixels above the stored y. */
  function RenderTooltip(content: string, position: Point): (r: Option<TooltipBox>)
    ensures r.Some? <==> content != ""
    ensures r.Some? ==> r.value.text == content && r.value.left == position.x && r.value.top == position.y - TooltipLift
    ensures r.Some? ==> r.value.top < position.y
  {
    if content != "" then Some(TooltipBox(position.x, position.y - TooltipLift, content)) else None
  }

  /** Hovering a tabled state draws its tooltip at the centre of the
      region's top edge and 70 pixels above it, in the coordinates of the
      map document's own viewport, where the path's box is measured. */
  lemma HoverTooltipPlacement(name: string, data: StateData, r: Rect)
    ensures RenderTooltip(TooltipText(name, data), Anchor(r)) ==
      Some(TooltipBox(r.left + r.width / 2.0, r.top - TooltipLift, TooltipText(name, data)))
  {
    assert |TooltipText(name, data)| >= |RateLine| > 0;
  }

  /** A box measured in the map document's viewport, seen in the page's
      viewport, when the map document's viewport sits at `origin` there. */
  function OnPage(r: Rect, origin: Point): (p: Rect)
    ensures p.width == r.width && p.height == r.height
    ensures p.left - r.left == origin.x && p.top - r.top == origin.y
  {
    Rect(r.left + origin.x, r.top + origin.y, r.width, r.height)
  }

  /** The tooltip is fixed in the page's viewport, but its anchor is taken
      from a box in the map document's viewport: unless the map sits at the
      page's origin, the anchor is not the region's top edge on the page. */
  lemma DocumentAnchorMisplaced(r: Rect, origin: Point)
    requires origin != Point(0.0, 0.0)
    ensures Anchor(r) != Anchor(OnPage(r, origin))
  {
  }

  /** With the map's offset added in, the tooltip sits centred over the
      region's top edge as the page shows it, 70 pixels above it. */
  lemma PageTooltipPlacement(name: string, data: StateData, r: Rect, origin: Point)
    ensures RenderTooltip(TooltipText(name, data), Anchor(OnPage(r, origin))) ==
      Some(TooltipBox(origin.x + r.left + r.width / 2.0, origin.y + r.top - TooltipLift, TooltipText(name, data)))
  {
    HoverTooltipPlacement(name, data, OnPage(r, origin));
  }

  // ---------------------------------------------------------------------
  // Paths, listeners and selection
  // ---------------------------------------------------------------------

  /** Stroke widths set by the click listener. */
  const UnselectedStroke: string := "2"
  const SelectedStroke: string := "4"

  /** A `<path>` of the map document: its `title` attribute and its inline
      stroke width. Its bounding box is read when the pointer enters it. */
  datatype SvgPath = SvgPath(title: Option<string>, strokeWidth: string)

  /** `if (stateName)`: a missing or empty title gets no listeners. */
  predicate Titled(p: SvgPath) {
    p.title.Some? && p.title.value != ""
  }

  /** The listeners of one path: the state name they close over and the
      selection as it was when the document loaded. */
  datatype Handler = Handler(stateName: string, selectionAtLoad: Option<string>)

  function HandlerFor(p: SvgPath, selection: Option<string>): (h: Option<Handler>)
    ensures h.Some? <==> Titled(p)
    ensures h.Some? ==> p.title == Some(h.value.stateName) && h.value.selectionAtLoad == selection
    ensures h.Some? ==> h.value.stateName != ""
  {
    if Titled(p) then Some(Handler(p.title.value, selection)) else None
  }

  /** Setting a path's stroke does not change which listeners it has, so
      clicks keep the binding of the document intact. */
  lemma BindingIgnoresStroke(p: SvgPath, w: string, selection: Option<string>)
    ensures HandlerFor(p.(strokeWidth := w), selection) == HandlerFor(p, selection)
  {
  }

  /** The selection rule: clicking the selected state clears the selection,
      clicking any other state selects it. */
  function Toggle(clicked: string, current: Option<string>): (r: Option<string>)
    ensures r == None <==> current == Some(clicked)
    ensures r != None ==> r == Some(clicked)
    ensures r != current
  {
    if current == Some(clicked) then None else Some(clicked)
  }

  /** The stroke the clicked path gets when the selection it compares
      against is `current`. */
  function StrokeAfterClick(clicked: string, current: Option<string>): (w: string)
    ensures w == SelectedStroke <==> Toggle(clicked, current) == Some(clicked)
    ensures w == UnselectedStroke <==> Toggle(clicked, current) == None
  {
    if current == Some(clicked) then UnselectedStroke else SelectedStroke
  }

  /** Two clicks on one state, each compared with the live selection,
      return the selection to where it started whenever the state was
      unselected or selected. */
  lemma ToggleTwice(clicked: string, current: Option<string>)
    requires current == None || current == Some(clicked)
    ensures Toggle(clicked, Toggle(clicked, current)) == current
  {
  }

  /** The `forEach` over the document's paths. */
  method BindPaths(paths: seq<SvgPath>, selection: Option<string>) returns (handlers: seq<Option<Handler>>)
    ensures |handlers| == |paths|
    ensures forall j :: 0 <= j < |paths| ==> (handlers[j].Some? <==> Titled(paths[j]))
    ensures forall j :: 0 <= j < |paths| && handlers[j].Some? ==>
      paths[j].title == Some(handlers[j].value.stateName) && handlers[j].value.selectionAtLoad == selection
  {
    handlers := [];
    var i := 0;
    while i < |paths|
      invariant 0 <= i <= |paths|
      invariant |handlers| == i
      invariant forall j :: 0 <= j < i ==> handlers[j] == HandlerFor(paths[j], selection)
    {
      var path := paths[i];
      if path.title.Some? && path.title.value != "" {
        handlers := handlers + [Some(Handler(path.title.value, selection))];
      } else {
        handlers := handlers + [None];
      }
      i := i + 1;
    }
  }

  /** Only the paths of the selected state are drawn with the selected stroke. */
  predicate EmphasisMatches(paths: seq<SvgPath>, selected: Option<string>) {
    forall j :: 0 <= j < |paths| && paths[j].strokeWidth == SelectedStroke ==>
      selected.Some? && paths[j].title == selected
  }

  class MapView {
    var tooltipContent: string
    var tooltipPosition: Point
    var selectedState: Option<string>
    /** The loaded document's paths. */
    var paths: seq<SvgPath>
    /** The listeners attached to each path, if any. */
    var handlers: seq<Option<Handler>>

    ghost predicate Valid()
      reads this
    {
      |handlers| == |paths| &&
      forall j :: 0 <= j < |paths| ==>
        (handlers[j].Some? <==> Titled(paths[j])) &&
        (handlers[j].Some? ==> paths[j].title == Some(handlers[j].value.stateName))
    }

    /** What is on screen for the current state. */
    function Tooltip(): Option<TooltipBox>
      reads this
    {
      RenderTooltip(tooltipContent, tooltipPosition)
    }

    constructor ()
      ensures Valid()
      ensures tooltipContent == "" && tooltipPosition == Point(0.0, 0.0) && selectedState == None
      ensures paths == [] && handlers == []
    {
      tooltipContent := "";
      tooltipPosition := Point(0.0, 0.0);
      selectedState := None;
      paths, handlers := [], [];
    }

    /** `onLoad`: with no document nothing happens; otherwise every titled
        path gets listeners that remember the current selection. */
    method OnLoad(svg: Option<seq<SvgPath>>)
      requires Valid()
      modifies this`paths, this`handlers
      ensures Valid()
      ensures svg.None? ==> paths == old(paths) && handlers == old(handlers)
      ensures svg.Some? ==> paths == svg.value
      ensures svg.Some? ==> forall j :: 0 <= j < |paths| ==> handlers[j] == HandlerFor(paths[j], selectedState)
    {
      if svg.Some? {
        var bound := BindPaths(svg.value, selectedState);
        paths := svg.value;
        handlers := bound;
      }
    }

    /** `mouseenter` on path `i`, whose bounding box is `rect` at that
        moment: a tabled state shows its tooltip anchored at that box; an
        untabled or untitled one changes nothing. */
    method MouseEnter(i: nat, rect: Rect)
      requires Valid() && i < |paths|
      modifies this`tooltipContent, this`tooltipPosition
      ensures Valid()
      ensures handlers[i].Some? && handlers[i].value.stateName in CrimeData ==>
        tooltipContent == TooltipText(handlers[i].value.stateName, CrimeData[handlers[i].value.stateName]) &&
        tooltipPosition == Anchor(rect)
      ensures !(handlers[i].Some? && handlers[i].value.stateName in CrimeData) ==>
        tooltipContent == old(tooltipContent) && tooltipPosition == old(tooltipPosition)
    {
      if handlers[i].Some? {
        var stateName := handlers[i].value.stateName;
        if stateName in CrimeData {
          var stateData := CrimeData[stateName];
          tooltipContent := TooltipText(stateName, stateData);
          tooltipPosition := Anchor(rect);
        }
      }
    }

    /** `mouseenter` as intended: the box measured in the map document is
        moved by `origin`, where that document's viewport sits on the page,
        before it anchors the tooltip. */
    method MouseEnterCorrected(i: nat, rect: Rect, origin: Point)
      requires Valid() && i < |paths|
      modifies this`tooltipContent, this`tooltipPosition
      ensures Valid()
      ensures handlers[i].Some? && handlers[i].value.stateName in CrimeData ==>
        tooltipContent == TooltipText(handlers[i].value.stateName, CrimeData[handlers[i].value.stateName]) &&
        tooltipPosition == Anchor(OnPage(rect, origin))
      ensures !(handlers[i].Some? && handlers[i].value.stateName in CrimeData) ==>
        tooltipContent == old(tooltipContent) && tooltipPosition == old(tooltipPosition)
    {
      if handlers[i].Some? {
        var stateName := handlers[i].value.stateName;
        if stateName in CrimeData {
          var stateData := CrimeData[stateName];
          tooltipContent := TooltipText(stateName, stateData);
          tooltipPosition := Anchor(OnPage(rect, origin));
        }
      }
    }

    /** `mouseleave` on path `i`: any titled path hides the tooltip, whatever
        path it was shown for; the stored position is kept. */
    method MouseLeave(i: nat)
      requires Valid() && i < |paths|
      modifies this`tooltipContent
      ensures Valid()
      ensures handlers[i].Some? ==> tooltipContent == "" && Tooltip() == None
      ensures handlers[i].None? ==> tooltipContent == old(tooltipContent)
    {
      if handlers[i].Some? {
        tooltipContent := "";
      }
    }

    /** `click` on path `i`, as the listener is written: the rule is applied
        to the selection remembered at load time, not the current one, and
        only this path's stroke is set. */
    method Click(i: nat)
      requires Valid() && i < |paths|
      modifies this`selectedState, this`paths
      ensures Valid()
      ensures handlers[i].None? ==> selectedState == old(selectedState) && paths == old(paths)
      ensures handlers[i].Some? ==>
        var h := handlers[i].value;
        selectedState == Toggle(h.stateName, h.selectionAtLoad) &&
        paths == old(paths)[i := old(paths)[i].(strokeWidth := StrokeAfterClick(h.stateName, h.selectionAtLoad))]
    {
      if handlers[i].Some? {
        var h := handlers[i].value;
        selectedState := Toggle(h.stateName, h.selectionAtLoad);
        paths := paths[i := paths[i].(strokeWidth := StrokeAfterClick(h.stateName, h.selectionAtLoad))];
      }
    }

    /** `click` on path `i` as the selection rule intends it: the rule is
        applied to the current selection, and the paths of the previously
        selected state get their stroke reset, so at most one state is
        emphasised at a time. */
    method ClickCorrected(i: nat)
      requires Valid() && i < |paths|
      modifies this`selectedState, this`paths
      ensures Valid()
      ensures handlers[i].None? ==> selectedState == old(selectedState) && paths == old(paths)
      ensures handlers[i].Some? ==>
        var name := handlers[i].value.stateName;
        selectedState == Toggle(name, old(selectedState)) &&
        |paths| == |old(paths)| &&
        paths[i] == old(paths)[i].(strokeWidth := StrokeAfterClick(name, old(selectedState))) &&
        forall j :: 0 <= j < |paths| && j != i ==>
          paths[j] == if old(selectedState).Some? && old(paths)[j].title == old(selectedState)
                      then old(paths)[j].(strokeWidth := UnselectedStroke) else old(paths)[j]
      ensures EmphasisMatches(old(paths), old(selectedState)) ==> EmphasisMatches(paths, selectedState)
    {
      if handlers[i].None? {
        return;
      }
      var name := handlers[i].value.stateName;
      var previous := selectedState;
      var updated := paths;
      var j := 0;
      while j < |updated|
        invariant 0 <= j <= |updated| == |paths|
        invariant forall k :: 0 <= k < |paths| ==> updated[k].title == paths[k].title
        invariant forall k :: j <= k < |paths| ==> updated[k] == paths[k]
        invariant forall k :: 0 <= k < j ==>
          updated[k] == if previous.Some? && paths[k].title == previous
                        then paths[k].(strokeWidth := UnselectedStroke) else paths[k]
      {
        if previous.Some? && updated[j].title == previous {
          updated := updated[j := updated[j].(strokeWidth := UnselectedStroke)];
        }
        j := j + 1;
      }
      updated := updated[i := paths[i].(strokeWidth := StrokeAfterClick(name, previous))];
      selectedState := Toggle(name, previous);
      paths := updated;
    }
  }

  // ---------------------------------------------------------------------
  // Scenarios
  // ---------------------------------------------------------------------

  const PunjabBox: Rect := Rect(100.0, 200.0, 40.0, 30.0)

  /** Where the map document's viewport sits on the page: below the heading
      and the paragraph, inside the centred column. */
  const MapOrigin: Point := Point(200.0, 150.0)

  /** Hovering Punjab and leaving it hides the tooltip but keeps the anchor
      the hover stored. */
  method HoverLeaveScenario() returns (shown: Option<TooltipBox>, hidden: Option<TooltipBox>, position: Point)
    ensures shown == Some(TooltipBox(120.0, 130.0, TooltipText("Punjab", StateData(55, Medium))))
    ensures hidden == None
    ensures position == Point(120.0, 200.0)
  {
    var view := new MapView();
    view.OnLoad(Some([SvgPath(Some("Punjab"), "")]));
    view.MouseEnter(0, PunjabBox);
    shown := view.Tooltip();
    view.MouseLeave(0);
    hidden := view.Tooltip();
    position := view.tooltipPosition;
  }

  /** As written, hovering Punjab draws the tooltip at (120, 130) on the
      page, while Punjab's top edge is centred at (320, 350) there: 200
      pixels to the left and 220 pixels up instead of 70. */
  method OffsetTooltipScenario() returns (shown: Option<TooltipBox>, edge: Point)
    ensures shown == Some(TooltipBox(120.0, 130.0, TooltipText("Punjab", StateData(55, Medium))))
    ensures edge == Point(320.0, 350.0)
  {
    var view := new MapView();
    view.OnLoad(Some([SvgPath(Some("Punjab"), "")]));
    view.MouseEnter(0, PunjabBox);
    shown := view.Tooltip();
    edge := Anchor(OnPage(PunjabBox, MapOrigin));
  }

  /** Corrected, the tooltip is centred over Punjab's top edge on the page,
      70 pixels above it. */
  method CorrectedTooltipScenario() returns (shown: Option<TooltipBox>)
    ensures shown == Some(TooltipBox(320.0, 280.0, TooltipText("Punjab", StateData(55, Medium))))
  {
    var view := new MapView();
    view.OnLoad(Some([SvgPath(Some("Punjab"), "")]));
    view.MouseEnterCorrected(0, PunjabBox, MapOrigin);
    shown := view.Tooltip();
  }

  /** A titled path with no table row gets listeners, but entering it shows
      nothing; clicking it still selects it. */
  method UntabledRegionScenario() returns (content: string, selected: Option<string>)
    ensures content == ""
    ensures selected == Some("Goa")
  {
    var view := new MapView();
    view.OnLoad(Some([SvgPath(Some("Goa"), "")]));
    view.MouseEnter(0, PunjabBox);
    content := view.tooltipContent;
    view.Click(0);
    selected := view.selectedState;
  }

  /** As written: after loading with nothing selected, clicking Punjab twice
      leaves it selected and emphasised, because both clicks compare with
      the selection remembered at load time. */
  method StaleSelectionScenario() returns (afterFirst: Option<string>, afterSecond: Option<string>, stroke: string)
    ensures afterFirst == Some("Punjab")
    ensures afterSecond == Some("Punjab")
    ensures stroke == SelectedStroke
  {
    var view := new MapView();
    view.OnLoad(Some([SvgPath(Some("Punjab"), "")]));
    view.Click(0);
    afterFirst := view.selectedState;
    view.Click(0);
    afterSecond := view.selectedState;
    stroke := view.paths[0].strokeWidth;
  }

  /** Corrected: the second click on Punjab clears the selection and resets
      its stroke. */
  method CorrectedSelectionScenario() returns (afterFirst: Option<string>, afterSecond: Option<string>, stroke: string)
    ensures afterFirst == Some("Punjab")
    ensures afterSecond == None
    ensures stroke == UnselectedStroke
  {
    var view := new MapView();
    view.OnLoad(Some([SvgPath(Some("Punjab"), "")]));
    view.ClickCorrected(0);
    afterFirst := view.selectedState;
    view.ClickCorrected(0);
    afterSecond := view.selectedState;
    stroke := view.paths[0].strokeWidth;
  }

  /** As written: clicking Punjab and then Kerala leaves both emphasised. */
  method StaleEmphasisScenario() returns (strokes: seq<string>, selected: Option<string>)
    ensures strokes == [SelectedStroke, SelectedStroke]
    ensures selected == Some("Kerala")
  {
    var view := new MapView();
    view.OnLoad(Some([SvgPath(Some("Punjab"), ""), SvgPath(Some("Kerala"), "")]));
    view.Click(0);
    view.Click(1);
    strokes := [view.paths[0].strokeWidth, view.paths[1].strokeWidth];
    selected := view.selectedState;
  }

  /** Corrected: clicking Punjab and then Kerala emphasises Kerala only. */
  method CorrectedEmphasisScenario() returns (strokes: seq<string>, selected: Option<string>)
    ensures strokes == [UnselectedStroke, SelectedStroke]
    ensures selected == Some("Kerala")
  {
    var view := new MapView();
    view.OnLoad(Some([SvgPath(Some("Punjab"), ""), SvgPath(Some("Kerala"), "")]));
    view.ClickCorrected(0);
    view.ClickCorrected(1);
    strokes := [view.paths[0].strokeWidth, view.paths[1].strokeWidth];
    selected := view.selectedState;
  }
}
