/** The prediction page: the helpers that turn a risk level into colours
    and labels, the label and colour tables of the results view, and the
    form state that the district picker and the "Generate Prediction"
    button drive. The HTTP round trip is an opaque response. */
module Prediction {
  import opened Basics
  import opened RiskTier
  import Backend

  // ---------------------------------------------------------------------
  // What each tier looks like
  // ---------------------------------------------------------------------

  function TextColour(t: Tier): string {
    match t
    case High => "text-red-600"
    case Medium => "text-amber-600"
    case Low => "text-green-600"
  }

  function BadgeStyle(t: Tier): string {
    match t
    case High => "bg-red-100 text-red-800 border-red-200"
    case Medium => "bg-amber-100 text-amber-800 border-amber-200"
    case Low => "bg-green-100 text-green-800 border-green-200"
  }

  function TierLabel(t: Tier): string {
    match t
    case High => "High Risk"
    case Medium => "Medium Risk"
    case Low => "Low Risk"
  }

  function ProgressStyle(t: Tier): string {
    match t
    case High => "bg-red-100"
    case Medium => "bg-amber-100"
    case Low => "bg-green-100"
  }

  function AdvisoryText(t: Tier): string {
    match t
    case High => "High Caution"
    case Medium => "Increased Awareness"
    case Low => "Standard Precautions"
  }

  // ---------------------------------------------------------------------
  // The page's own threshold chains
  // ---------------------------------------------------------------------

  /** `riskClass`: the text colour of the risk figure. */
  function RiskClass(level: real): (r: string)
    ensures r == TextColour(Classify(level))
  {
    if level >= 70.0 then "text-red-600"
    else if level >= 40.0 then "text-amber-600"
    else "text-green-600"
  }

  /** `riskBadge`: the style of the badge beside the result. */
  function RiskBadge(level: real): (r: string)
    ensures r == BadgeStyle(Classify(level))
  {
    if level >= 70.0 then "bg-red-100 text-red-800 border-red-200"
    else if level >= 40.0 then "bg-amber-100 text-amber-800 border-amber-200"
    else "bg-green-100 text-green-800 border-green-200"
  }

  /** The text inside the badge. */
  function BadgeLabel(level: real): (r: string)
    ensures r == TierLabel(Classify(level))
  {
    if level >= 70.0 then "High Risk" else if level >= 40.0 then "Medium Risk" else "Low Risk"
  }

  /** The background of the progress bar. */
  function ProgressBackground(level: real): (r: string)
    ensures r == ProgressStyle(Classify(level))
  {
    if level >= 70.0 then "bg-red-100" else if level >= 40.0 then "bg-amber-100" else "bg-green-100"
  }

  /** The advisory level of the recommendations tab. */
  function AdvisoryLevel(level: real): (r: string)
    ensures r == AdvisoryText(Classify(level))
  {
    if level >= 70.0 then "High Caution"
    else if level >= 40.0 then "Increased Awareness"
    else "Standard Precautions"
  }

  /** For every level, the five displays show one and the same tier: each
      display names a tier `t` exactly when the colour of the figure does. */
  lemma DisplaysAgree(level: real, t: Tier)
    ensures RiskClass(level) == TextColour(t) <==> Classify(level) == t
    ensures RiskBadge(level) == BadgeStyle(t) <==> Classify(level) == t
    ensures BadgeLabel(level) == TierLabel(t) <==> Classify(level) == t
    ensures ProgressBackground(level) == ProgressStyle(t) <==> Classify(level) == t
    ensures AdvisoryLevel(level) == AdvisoryText(t) <==> Classify(level) == t
  {
  }

  // ---------------------------------------------------------------------
  // Label and colour tables of the results view
  // ---------------------------------------------------------------------

  /** The period named after "over" in the result header. */
  function TimeframeLabel(timeframe: string): (r: string)
    ensures r in ["next 24 hours", "next week", "next month", "next 3 months"]
    ensures r == "next 3 months" <==> timeframe !in ["immediate", "week", "month"]
  {
    if timeframe == "immediate" then "next 24 hours"
    else if timeframe == "week" then "next week"
    else if timeframe == "month" then "next month"
    else "next 3 months"
  }

  /** The four time frames the form offers read as four different periods. */
  lemma TimeframeOptionsDistinct()
    ensures TimeframeLabel("immediate") == "next 24 hours" && TimeframeLabel("week") == "next week"
    ensures TimeframeLabel("month") == "next month" && TimeframeLabel("quarter") == "next 3 months"
  {
  }

  /** The bar colour of one crime-type share. */
  function BreakdownColour(kind: string): (r: string)
    ensures r == "bg-gray-500" <==> kind !in ["Theft", "Violence", "Cyber"]
    ensures r in ["bg-red-500", "bg-amber-500", "bg-blue-500", "bg-gray-500"]
  {
    if kind == "Theft" then "bg-red-500"
    else if kind == "Violence" then "bg-amber-500"
    else if kind == "Cyber" then "bg-blue-500"
    else "bg-gray-500"
  }

  function Colours(kinds: seq<string>): (cs: seq<string>)
    ensures |cs| == |kinds|
    ensures forall i :: 0 <= i < |kinds| ==> cs[i] == BreakdownColour(kinds[i])
  {
    if kinds == [] then [] else [BreakdownColour(kinds[0])] + Colours(kinds[1..])
  }

  /** The breakdown the service sends is drawn red, amber, blue, gray: four
      different colours, one per share. */
  lemma ServiceBreakdownColours(d: Backend.Draws)
    requires Backend.SplitDraws(d)
    ensures Colours(Backend.Kinds(Backend.CrimeBreakdown(d))) ==
      ["bg-red-500", "bg-amber-500", "bg-blue-500", "bg-gray-500"]
  {
    var cs := Colours(Backend.Kinds(Backend.CrimeBreakdown(d)));
    assert cs[0] == "bg-red-500" && cs[1] == "bg-amber-500";
    assert cs[2] == "bg-blue-500" && cs[3] == "bg-gray-500";
  }

  // ---------------------------------------------------------------------
  // Form state
  // ---------------------------------------------------------------------

  /** The outcome of the POST to the prediction service. */
  datatype Response = Received(data: Backend.Prediction) | Failed

  /** The guard of `handlePredict`: all four fields filled in. */
  predicate FieldsComplete(location: string, state: string, crimeType: string, timeframe: string) {
    location != "" && state != "" && crimeType != "" && timeframe != ""
  }

  /** The `disabled` condition of the button. */
  predicate ButtonDisabled(location: string, state: string, crimeType: string, timeframe: string, loading: bool) {
    location == "" || state == "" || crimeType == "" || timeframe == "" || loading
  }

  /** The button is enabled exactly when the guard passes and no request is
      in flight, so a click on an enabled button always sends a request. */
  lemma EnabledButtonPassesGuard(location: string, state: string, crimeType: string, timeframe: string, loading: bool)
    ensures !ButtonDisabled(location, state, crimeType, timeframe, loading) <==>
      FieldsComplete(location, state, crimeType, timeframe) && !loading
  {
  }

  /** The guard of the page agrees with the service's own validation: a
      request the page sends is never answered with a missing-parameter error. */
  lemma GuardMatchesService(req: Backend.Request)
    ensures FieldsComplete(req.location, req.state, req.crimeType, req.timeframe) <==> Backend.Missing(req) == []
  {
    Backend.MissingExactly(req);
  }

  class PredictionForm {
    var location: string
    var state: string
    var crimeType: string
    var timeframe: string
    var predictionMade: bool
    var loading: bool
    var predictionData: Option<Backend.Prediction>

    /** A result is shown exactly when one has been received. */
    ghost predicate Valid()
      reads this
    {
      predictionMade <==> predictionData.Some?
    }

    constructor ()
      ensures Valid()
      ensures location == "" && state == "" && crimeType == "" && timeframe == ""
      ensures !predictionMade && !loading && predictionData == None
    {
      location, state, crimeType, timeframe := "", "", "", "";
      predictionMade, loading, predictionData := false, false, None;
    }

    /** `handleLocationChange`: choosing a district also fills in its state,
        looked up by `districtState` (the districts table). */
    method HandleLocationChange(districtName: string, districtState: string -> string)
      requires Valid()
      modifies this`location, this`state
      ensures Valid()
      ensures location == districtName && state == districtState(districtName)
    {
      location := districtName;
      var stateValue := districtState(districtName);
      state := stateValue;
    }

    method SelectCrimeType(value: string)
      requires Valid()
      modifies this`crimeType
      ensures Valid() && crimeType == value
    {
      crimeType := value;
    }

    method SelectTimeframe(value: string)
      requires Valid()
      modifies this`timeframe
      ensures Valid() && timeframe == value
    {
      timeframe := value;
    }

    /** The first half of `handlePredict`, up to the `await`: with a field
        missing it returns at once and changes nothing; otherwise it sets
        `loading` and answers the body it posts. */
    method StartPredict() returns (request: Option<Backend.Request>)
      requires Valid()
      modifies this`loading
      ensures Valid()
      ensures request.None? <==> !FieldsComplete(location, state, crimeType, timeframe)
      ensures request.None? ==> loading == old(loading)
      ensures request.Some? ==> loading && request.value == Backend.Request(location, state, crimeType, timeframe)
    {
      if location == "" || state == "" || crimeType == "" || timeframe == "" {
        return None;
      }
      loading := true;
      request := Some(Backend.Request(location, state, crimeType, timeframe));
    }

    /** The second half of `handlePredict`: a received payload is stored and
        shown; a failure leaves the previous result in place. Either way the
        request is no longer loading. */
    method CompletePredict(response: Response)
      requires Valid()
      modifies this`predictionData, this`predictionMade, this`loading
      ensures Valid() && !loading
      ensures response.Received? ==> predictionData == Some(response.data) && predictionMade
      ensures response.Failed? ==> predictionData == old(predictionData) && predictionMade == old(predictionMade)
    {
      if response.Received? {
        predictionData := Some(response.data);
        predictionMade := true;
      }
      loading := false;
    }
  }
}
