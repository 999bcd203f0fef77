/** The prediction endpoint of the Flask service: it validates the four
    request parameters, draws a base risk from a per-state range, scales it
    by a crime-type multiplier, caps it at 100 and fills in percentage
    splits whose last share is the remainder to 100. Every random draw is a
    parameter constrained to the interval `random.uniform` is called with. */
module Backend {
  import opened Basics

  /** The four request fields; a key absent from the JSON body reads as "". */
  datatype Request = Request(location: string, state: string, crimeType: string, timeframe: string)

  /** An error response: its message and HTTP status. */
  datatype ApiError = ApiError(message: string, status: nat)

  /** One entry of the crime-type breakdown. */
  datatype Share = Share(kind: string, percentage: real)

  datatype TimePattern = TimePattern(morning: real, afternoon: real, evening: real, night: real)

  datatype Factor = Factor(factor: string, impact: real)

  /** The JSON document answered on success. */
  datatype Prediction = Prediction(
    riskLevel: real,
    crimeBreakdown: seq<Share>,
    timePattern: TimePattern,
    socioeconomicFactors: seq<Factor>)

  /** A closed interval of risk levels or multipliers. */
  datatype Range = Range(min: real, max: real)

  /** The values `random.uniform` returned for one request, in the order
      the handler draws them. */
  datatype Draws = Draws(
    base: real, multiplier: real,
    theft: real, violence: real, cyber: real,
    night: real, evening: real, afternoon: real,
    density: real, unemployment: real, police: real)

  predicate Within(x: real, lo: real, hi: real) {
    lo <= x <= hi
  }

  /** What `random.uniform(lo, hi)` guarantees of each draw. The base draw
      depends on the state's range; the multiplier is drawn only for a
      recognised crime type. */
  predicate ValidDraws(state: string, crimeType: string, d: Draws) {
    Within(d.base, StateRange(state).min, StateRange(state).max) &&
    (MultiplierRange(crimeType).Some? ==>
       Within(d.multiplier, MultiplierRange(crimeType).value.min, MultiplierRange(crimeType).value.max)) &&
    SplitDraws(d)
  }

  /** The ranges of the draws behind the percentage splits and factors. */
  predicate SplitDraws(d: Draws) {
    Within(d.theft, 30.0, 45.0) && Within(d.violence, 20.0, 35.0) && Within(d.cyber, 15.0, 25.0) &&
    Within(d.night, 25.0, 35.0) && Within(d.evening, 25.0, 35.0) && Within(d.afternoon, 20.0, 30.0) &&
    Within(d.density, 60.0, 90.0) && Within(d.unemployment, 50.0, 80.0) && Within(d.police, 40.0, 70.0)
  }

  // ---------------------------------------------------------------------
  // Parameter validation
  // ---------------------------------------------------------------------

  /** The parameter names, in the order the error message lists them. */
  const FieldNames: seq<string> := ["location", "state", "crimeType", "timeframe"]

  function Values(req: Request): (vs: seq<string>)
    ensures |vs| == |FieldNames|
  {
    [req.location, req.state, req.crimeType, req.timeframe]
  }

  /** Python's `all([location, state, crime_type, timeframe])`. */
  predicate AllPresent(req: Request) {
    req.location != "" && req.state != "" && req.crimeType != "" && req.timeframe != ""
  }

  /** The names whose value is empty, keeping the order of `names`. */
  function EmptyFields(names: seq<string>, values: seq<string>): seq<string>
    requires |names| == |values|
  {
    if names == [] then []
    else (if values[0] == "" then [names[0]] else []) + EmptyFields(names[1..], values[1..])
  }

  /** The missing-parameter list of a request. */
  function Missing(req: Request): seq<string> {
    EmptyFields(FieldNames, Values(req))
  }

  /** Position of `x` in `names`, or `|names|` when it does not occur. */
  function IndexOf(names: seq<string>, x: string): (k: nat)
    ensures k <= |names|
    ensures k < |names| ==> names[k] == x
  {
    if names == [] then 0
    else if names[0] == x then 0
    else 1 + IndexOf(names[1..], x)
  }

  predicate Distinct(names: seq<string>) {
    forall a, b :: 0 <= a < b < |names| ==> names[a] != names[b]
  }

  lemma {:induction false} EmptyFieldsMembership(names: seq<string>, values: seq<string>, x: string)
    requires |names| == |values|
    ensures x in EmptyFields(names, values) <==>
            exists k :: 0 <= k < |names| && names[k] == x && values[k] == ""
  {
    if names != [] {
      EmptyFieldsMembership(names[1..], values[1..], x);
      if x in EmptyFields(names[1..], values[1..]) {
        var k :| 0 <= k < |names[1..]| && names[1..][k] == x && values[1..][k] == "";
        assert names[k + 1] == x && values[k + 1] == "";
      }
      if exists k :: 0 <= k < |names| && names[k] == x && values[k] == "" {
        var k :| 0 <= k < |names| && names[k] == x && values[k] == "";
        if k > 0 {
          assert names[1..][k - 1] == x && values[1..][k - 1] == "";
        }
      }
    }
  }

  /** The result lists names in the order they have in `names`. */
  lemma {:induction false} EmptyFieldsOrdered(names: seq<string>, values: seq<string>)
    requires |names| == |values| && Distinct(names)
    ensures forall a, b :: 0 <= a < b < |EmptyFields(names, values)| ==>
      IndexOf(names, EmptyFields(names, values)[a]) < IndexOf(names, EmptyFields(names, values)[b])
  {
    if names != [] {
      var rest := EmptyFields(names[1..], values[1..]);
      var head: seq<string> := if values[0] == "" then [names[0]] else [];
      EmptyFieldsOrdered(names[1..], values[1..]);
      // every later entry is a name other than names[0], found one place further on
      forall j | 0 <= j < |rest|
        ensures IndexOf(names, rest[j]) == 1 + IndexOf(names[1..], rest[j]) >= 1
      {
        EmptyFieldsMembership(names[1..], values[1..], rest[j]);
        var k :| 0 <= k < |names[1..]| && names[1..][k] == rest[j] && values[1..][k] == "";
        assert names[k + 1] == rest[j];
      }
      assert EmptyFields(names, values) == head + rest;
    }
  }

  /** The missing list holds exactly the empty parameters, in the fixed
      order location, state, crimeType, timeframe, and it is empty exactly
      when every parameter is present. */
  lemma MissingExactly(req: Request)
    ensures forall k :: 0 <= k < |FieldNames| ==> (FieldNames[k] in Missing(req) <==> Values(req)[k] == "")
    ensures forall x :: x in Missing(req) ==> x in FieldNames
    ensures forall a, b :: 0 <= a < b < |Missing(req)| ==>
      IndexOf(FieldNames, Missing(req)[a]) < IndexOf(FieldNames, Missing(req)[b])
    ensures Missing(req) == [] <==> AllPresent(req)
  {
    forall x ensures x in Missing(req) <==>
      exists k :: 0 <= k < |FieldNames| && FieldNames[k] == x && Values(req)[k] == ""
    {
      EmptyFieldsMembership(FieldNames, Values(req), x);
    }
    EmptyFieldsOrdered(FieldNames, Values(req));
    MissingUnfolded(req);
  }

  /** The missing list written out for the four parameters. */
  lemma MissingUnfolded(req: Request)
    ensures Missing(req) ==
      (if req.location == "" then ["location"] else []) +
      (if req.state == "" then ["state"] else []) +
      (if req.crimeType == "" then ["crimeType"] else []) +
      (if req.timeframe == "" then ["timeframe"] else [])
  {
    var ns, vs := FieldNames, Values(req);
    assert ns[1..] == ["state", "crimeType", "timeframe"] && vs[1..] == [req.state, req.crimeType, req.timeframe];
    assert ns[1..][1..] == ["crimeType", "timeframe"] && vs[1..][1..] == [req.crimeType, req.timeframe];
    assert ns[1..][1..][1..] == ["timeframe"] && vs[1..][1..][1..] == [req.timeframe];
    assert ns[1..][1..][1..][1..] == [];
    assert EmptyFields(ns[1..][1..][1..][1..], vs[1..][1..][1..][1..]) == [];
    var e3 := EmptyFields(ns[1..][1..][1..], vs[1..][1..][1..]);
    assert e3 == (if vs[1..][1..][1..][0] == "" then [ns[1..][1..][1..][0]] else []) + [];
    assert e3 == (if req.timeframe == "" then ["timeframe"] else []) + [];
    var e2 := EmptyFields(ns[1..][1..], vs[1..][1..]);
    assert e2 == (if req.crimeType == "" then ["crimeType"] else []) + e3;
    var e1 := EmptyFields(ns[1..], vs[1..]);
    assert e1 == (if req.state == "" then ["state"] else []) + e2;
    assert Missing(req) == (if req.location == "" then ["location"] else []) + e1;
  }

  /** The `missing` list, built by successive appends. */
  method MissingParameters(req: Request) returns (missing: seq<string>)
    ensures missing == Missing(req)
  {
    missing := [];
    if req.location == "" { missing := missing + ["location"]; }
    if req.state == "" { missing := missing + ["state"]; }
    if req.crimeType == "" { missing := missing + ["crimeType"]; }
    if req.timeframe == "" { missing := missing + ["timeframe"]; }
    MissingUnfolded(req);
  }

  /** Python's `sep.join(parts)`. */
  function Join(parts: seq<string>, sep: string): string {
    if |parts| == 0 then ""
    else if |parts| == 1 then parts[0]
    else parts[0] + sep + Join(parts[1..], sep)
  }

  const MissingPrefix: string := "Missing required parameters: "

  function ErrorMessage(missing: seq<string>): string {
    MissingPrefix + Join(missing, ", ")
  }

  /** How often `c` occurs in `s`. */
  function Count(s: string, c: char): nat {
    if s == [] then 0 else (if s[0] == c then 1 else 0) + Count(s[1..], c)
  }

  lemma {:induction false} CountAppend(a: string, b: string, c: char)
    ensures Count(a + b, c) == Count(a, c) + Count(b, c)
  {
    if a == [] {
      assert a + b == b;
    } else {
      assert (a + b)[1..] == a[1..] + b;
      CountAppend(a[1..], b, c);
    }
  }

  lemma {:induction false} CountAbsent(s: string, c: char)
    requires forall i :: 0 <= i < |s| ==> s[i] != c
    ensures Count(s, c) == 0
  {
    if s != [] {
      CountAbsent(s[1..], c);
    }
  }

  predicate NoComma(s: string) {
    forall i :: 0 <= i < |s| ==> s[i] != ','
  }

  /** Joining comma-free names with ", " puts exactly one comma between
      each pair of neighbours. */
  lemma {:induction false} JoinCommas(parts: seq<string>)
    requires parts != []
    requires forall k :: 0 <= k < |parts| ==> NoComma(parts[k])
    ensures Count(Join(parts, ", "), ',') == |parts| - 1
  {
    CountAbsent(parts[0], ',');
    if |parts| > 1 {
      JoinCommas(parts[1..]);
      CountAppend(parts[0], ", ", ',');
      CountAppend(parts[0] + ", ", Join(parts[1..], ", "), ',');
      assert Count(", ", ',') == 1 by {
        assert ", "[1..] == " ";
        assert " "[1..] == "";
      }
    }
  }

  /** Python's `s.split(", ")`, scanning `s` with `piece` the text read
      since the last separator. */
  function SplitFrom(s: string, piece: string): (parts: seq<string>)
    ensures parts != []
    decreases |s|
  {
    if s == [] then [piece]
    else if |s| >= 2 && s[0] == ',' && s[1] == ' ' then [piece] + SplitFrom(s[2..], "")
    else SplitFrom(s[1..], piece + [s[0]])
  }

  function Split(s: string): seq<string> {
    SplitFrom(s, "")
  }

  /** A comma-free stretch of text is read into the current piece. */
  lemma {:induction false} SplitFromNoComma(p: string, rest: string, piece: string)
    requires NoComma(p)
    ensures SplitFrom(p + rest, piece) == SplitFrom(rest, piece + p)
    decreases |p|
  {
    if p == [] {
      assert p + rest == rest && piece + p == piece;
    } else {
      assert (p + rest)[0] == p[0] && (p + rest)[1..] == p[1..] + rest;
      SplitFromNoComma(p[1..], rest, piece + [p[0]]);
      assert piece + [p[0]] + p[1..] == piece + p;
    }
  }

  /** Splitting on ", " recovers comma-free names joined with ", ". */
  lemma {:induction false} SplitJoin(parts: seq<string>)
    requires parts != []
    requires forall k :: 0 <= k < |parts| ==> NoComma(parts[k])
    ensures Split(Join(parts, ", ")) == parts
    decreases |parts|
  {
    if |parts| == 1 {
      SplitFromNoComma(parts[0], "", "");
      assert parts[0] + "" == parts[0] && "" + parts[0] == parts[0];
    } else {
      var rest := Join(parts[1..], ", ");
      assert Join(parts, ", ") == parts[0] + (", " + rest);
      SplitFromNoComma(parts[0], ", " + rest, "");
      assert (", " + rest)[2..] == rest;
      assert "" + parts[0] == parts[0];
      SplitJoin(parts[1..]);
    }
  }

  /** For every request with something missing, the message is the prefix
      followed by the missing names, with exactly one ", " separator between
      each pair of neighbours: splitting the rest on ", " gives back the
      missing list, and it holds one fewer comma than names. */
  lemma MessageSeparators(req: Request)
    requires Missing(req) != []
    ensures ErrorMessage(Missing(req))[..|MissingPrefix|] == MissingPrefix
    ensures Split(ErrorMessage(Missing(req))[|MissingPrefix|..]) == Missing(req)
    ensures Count(ErrorMessage(Missing(req))[|MissingPrefix|..], ',') == |Missing(req)| - 1
  {
    var m := Missing(req);
    MissingExactly(req);
    forall k | 0 <= k < |m|
      ensures NoComma(m[k])
    {
      assert m[k] in FieldNames;
    }
    JoinCommas(m);
    SplitJoin(m);
    assert ErrorMessage(m)[|MissingPrefix|..] == Join(m, ", ");
  }

  /** Joining puts the separator between neighbours and nowhere else. */
  lemma JoinCons(x: string, rest: seq<string>, sep: string)
    requires rest != []
    ensures Join([x] + rest, sep) == x + sep + Join(rest, sep)
  {
    assert ([x] + rest)[1..] == rest;
  }

  /** Every parameter absent: the message names all four, in order. */
  lemma AllMissingMessage()
    ensures ErrorMessage(Missing(Request("", "", "", ""))) ==
      MissingPrefix + ("location" + (", " + ("state" + (", " + ("crimeType" + (", " + "timeframe"))))))
  {
    MissingUnfolded(Request("", "", "", ""));
    assert Missing(Request("", "", "", "")) == ["location"] + (["state"] + (["crimeType"] + ["timeframe"]));
    JoinCons("crimeType", ["timeframe"], ", ");
    JoinCons("state", ["crimeType"] + ["timeframe"], ", ");
    JoinCons("location", ["state"] + (["crimeType"] + ["timeframe"]), ", ");
  }

  // ---------------------------------------------------------------------
  // Base risk from the state
  // ---------------------------------------------------------------------

  const StateRiskLevels: map<string, Range> := map[
    "maharashtra" := Range(50.0, 70.0),
    "delhi" := Range(60.0, 80.0),
    "up" := Range(55.0, 75.0),
    "karnataka" := Range(45.0, 65.0),
    "tn" := Range(45.0, 65.0),
    "wb" := Range(50.0, 70.0),
    "telangana" := Range(45.0, 65.0)]

  const DefaultRange: Range := Range(50.0, 70.0)

  /** `str.lower` on ASCII letters. */
  function LowerChar(c: char): char {
    if 'A' <= c <= 'Z' then (c as int + 32) as char else c
  }

  function ToLower(s: string): (r: string)
    ensures |r| == |s|
    ensures forall i :: 0 <= i < |s| ==> r[i] == LowerChar(s[i])
  {
    if s == [] then [] else [LowerChar(s[0])] + ToLower(s[1..])
  }

  lemma ToLowerIdempotent(s: string)
    ensures ToLower(ToLower(s)) == ToLower(s)
  {
  }

  /** `STATE_RISK_LEVELS.get(state.lower(), (50, 70))`. */
  function StateRange(state: string): (r: Range)
    ensures ToLower(state) in StateRiskLevels ==> r == StateRiskLevels[ToLower(state)]
    ensures ToLower(state) !in StateRiskLevels ==> r == DefaultRange
    ensures r == DefaultRange || r in StateRiskLevels.Values
    ensures r.min < r.max
  {
    if ToLower(state) in StateRiskLevels then StateRiskLevels[ToLower(state)] else DefaultRange
  }

  /** Every range, tabled or default, is a proper interval inside [45, 80];
      the lookup ignores letter case. */
  lemma StateRangeBounds(state: string)
    ensures StateRange(state).min < StateRange(state).max
    ensures 45.0 <= StateRange(state).min && StateRange(state).max <= 80.0
    ensures StateRange(state) == StateRange(ToLower(state))
  {
    ToLowerIdempotent(state);
  }

  // ---------------------------------------------------------------------
  // Crime-type multiplier and cap
  // ---------------------------------------------------------------------

  /** The multiplier interval of a crime type; other types are not scaled. */
  function MultiplierRange(crimeType: string): Option<Range> {
    if crimeType == "violent" then Some(Range(1.2, 1.4))
    else if crimeType == "theft" then Some(Range(1.1, 1.3))
    else if crimeType == "cyber" then Some(Range(0.8, 1.0))
    else None
  }

  /** The factor the base risk is scaled by: the multiplier draw for a
      recognised crime type, 1 otherwise. */
  function Multiplier(crimeType: string, drawn: real): real {
    if MultiplierRange(crimeType).Some? then drawn else 1.0
  }

  function Min(a: real, b: real): real {
    if a <= b then a else b
  }

  /** The reported risk level: base draw times multiplier, capped at 100. */
  function RiskLevel(crimeType: string, d: Draws): real {
    Min(100.0, d.base * Multiplier(crimeType, d.multiplier))
  }

  /** The risk level never exceeds 100 and never falls below 36 (a base of
      45 with the cyber factor 0.8); an unrecognised crime type reports the
      base draw unchanged. */
  lemma RiskLevelBounds(state: string, crimeType: string, d: Draws)
    requires ValidDraws(state, crimeType, d)
    ensures 36.0 <= RiskLevel(crimeType, d) <= 100.0
    ensures MultiplierRange(crimeType).None? ==> RiskLevel(crimeType, d) == d.base
  {
    BaseAtLeast(state, crimeType, d);
    var m := Multiplier(crimeType, d.multiplier);
    assert 0.8 <= m;
    ProductAtLeast(d.base, m);
  }

  lemma BaseAtLeast(state: string, crimeType: string, d: Draws)
    requires ValidDraws(state, crimeType, d)
    ensures 45.0 <= d.base
  {
    StateRangeBounds(state);
  }

  lemma ProductAtLeast(b: real, m: real)
    requires 45.0 <= b && 0.8 <= m
    ensures b * m >= 36.0
  {
    assert (b - 45.0) * m >= 0.0;
  }

  /** The risk computation as the handler performs it: scale, then cap. */
  method AssessRisk(crimeType: string, d: Draws) returns (risk: real)
    ensures risk == RiskLevel(crimeType, d)
    ensures risk <= 100.0
  {
    risk := d.base;
    if crimeType == "violent" {
      risk := risk * d.multiplier;
    } else if crimeType == "theft" {
      risk := risk * d.multiplier;
    } else if crimeType == "cyber" {
      risk := risk * d.multiplier;
    }
    risk := Min(100.0, risk);
  }

  // ---------------------------------------------------------------------
  // Percentage splits
  // ---------------------------------------------------------------------

  function SharesTotal(shares: seq<Share>): real {
    if shares == [] then 0.0 else shares[0].percentage + SharesTotal(shares[1..])
  }

  function Kinds(shares: seq<Share>): (ks: seq<string>)
    ensures |ks| == |shares|
    ensures forall i :: 0 <= i < |shares| ==> ks[i] == shares[i].kind
  {
    if shares == [] then [] else [shares[0].kind] + Kinds(shares[1..])
  }

  /** Theft, violence and cyber are drawn; "Other" is what is left of 100. */
  function CrimeBreakdown(d: Draws): (r: seq<Share>)
    requires SplitDraws(d)
    ensures Kinds(r) == ["Theft", "Violence", "Cyber", "Other"]
    ensures SharesTotal(r) == 100.0
    ensures 30.0 <= r[0].percentage <= 45.0 && 20.0 <= r[1].percentage <= 35.0
    ensures 15.0 <= r[2].percentage <= 25.0 && -5.0 <= r[3].percentage <= 35.0
  {
    var theft, violence, cyber := d.theft, d.violence, d.cyber;
    var other := 100.0 - (theft + violence + cyber);
    var r := [Share("Theft", theft), Share("Violence", violence), Share("Cyber", cyber), Share("Other", other)];
    assert r[1..][1..] == [Share("Cyber", cyber), Share("Other", other)];
    assert r[1..][1..][1..] == [Share("Other", other)];
    assert r[1..][1..][1..][1..] == [];
    assert SharesTotal(r[1..][1..][1..]) == other;
    assert SharesTotal(r[1..][1..]) == cyber + other;
    assert SharesTotal(r[1..]) == violence + cyber + other;
    assert Kinds(r[1..][1..]) == ["Cyber", "Other"];
    r
  }

  const TopDraws: Draws := Draws(50.0, 1.0, 45.0, 35.0, 25.0, 25.0, 25.0, 20.0, 60.0, 50.0, 40.0)

  /** The "Other" share is negative when the three draws are at their top. */
  lemma OtherShareCanBeNegative()
    ensures CrimeBreakdown(TopDraws)[3].percentage == -5.0
  {
  }

  /** Night, evening and afternoon are drawn; morning is the remainder. */
  function TimeSplit(d: Draws): (t: TimePattern)
    requires SplitDraws(d)
    ensures t.morning + t.afternoon + t.evening + t.night == 100.0
    ensures 0.0 <= t.morning <= 30.0
    ensures 20.0 <= t.afternoon <= 30.0 && 25.0 <= t.evening <= 35.0 && 25.0 <= t.night <= 35.0
  {
    var night, evening, afternoon := d.night, d.evening, d.afternoon;
    TimePattern(100.0 - (night + evening + afternoon), afternoon, evening, night)
  }

  function FactorNames(fs: seq<Factor>): (ns: seq<string>)
    ensures |ns| == |fs|
  {
    if fs == [] then [] else [fs[0].factor] + FactorNames(fs[1..])
  }

  function SocioeconomicFactors(d: Draws): (fs: seq<Factor>)
    requires SplitDraws(d)
    ensures FactorNames(fs) == ["Population Density", "Unemployment Rate", "Police Presence"]
    ensures 60.0 <= fs[0].impact <= 90.0 && 50.0 <= fs[1].impact <= 80.0 && 40.0 <= fs[2].impact <= 70.0
  {
    var fs := [
      Factor("Population Density", d.density),
      Factor("Unemployment Rate", d.unemployment),
      Factor("Police Presence", d.police)];
    assert fs[1..][1..] == [fs[2]];
    assert FactorNames(fs[1..]) == ["Unemployment Rate", "Police Presence"];
    fs
  }

  // ---------------------------------------------------------------------
  // The endpoint
  // ---------------------------------------------------------------------

  /** POST /api/predict. A request missing any parameter is answered with
      status 400 and the ordered list of what is missing; otherwise with a
      prediction whose risk is capped at 100 and whose splits sum to 100. */
  method Predict(req: Request, d: Draws) returns (r: Result<Prediction, ApiError>)
    requires ValidDraws(req.state, req.crimeType, d)
    ensures r.Failure? <==> !AllPresent(req)
    ensures r.Failure? ==> r.error.status == 400 && r.error.message == ErrorMessage(Missing(req)) && Missing(req) != []
    ensures r.Success? ==> r.value == Prediction(RiskLevel(req.crimeType, d), CrimeBreakdown(d), TimeSplit(d), SocioeconomicFactors(d))
    ensures r.Success? ==> r.value.riskLevel <= 100.0
    ensures r.Success? ==> Kinds(r.value.crimeBreakdown) == ["Theft", "Violence", "Cyber", "Other"]
    ensures r.Success? ==> SharesTotal(r.value.crimeBreakdown) == 100.0
    ensures r.Success? ==> r.value.timePattern.morning + r.value.timePattern.afternoon +
                           r.value.timePattern.evening + r.value.timePattern.night == 100.0
    ensures r.Success? ==> |r.value.socioeconomicFactors| == 3
  {
    if !AllPresent(req) {
      var missing := MissingParameters(req);
      MissingExactly(req);
      return Failure(ApiError(ErrorMessage(missing), 400));
    }
    var risk := AssessRisk(req.crimeType, d);
    var breakdown := CrimeBreakdown(d);
    var times := TimeSplit(d);
    var factors := SocioeconomicFactors(d);
    r := Success(Prediction(risk, breakdown, times, factors));
  }
}
