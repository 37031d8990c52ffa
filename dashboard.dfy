/**
 * The browser dashboard's telemetry store: per-variable chart histories of the
 * last 60 bio snapshots (normalized and raw), the shared timestamp labels, the
 * set of variables the user has hidden, the threshold alert list and the chart
 * groups outlined because a threshold names their system.
 */
module Dashboard {
  import opened Text
  import opened Window
  import opened Wrappers

  const HistorySize: nat := 60

  /** The charted bio variables. */
  datatype BioVar =
    | BodyTemp | HeartRate | BloodPressure | RespiratoryRate | SpO2
    | BloodSugar | Hunger | Thirst | Hydration | Glycogen
    | Cortisol | Adrenaline | Serotonin | Dopamine | Endorphins
    | Fatigue | Pain | MuscleTension | ImmuneResponse
    | CircadianPhase

  /** The variable's key in a bio snapshot. */
  function Key(v: BioVar): string {
    match v
    case BodyTemp => "body_temp"
    case HeartRate => "heart_rate"
    case BloodPressure => "blood_pressure"
    case RespiratoryRate => "respiratory_rate"
    case SpO2 => "spo2"
    case BloodSugar => "blood_sugar"
    case Hunger => "hunger"
    case Thirst => "thirst"
    case Hydration => "hydration"
    case Glycogen => "glycogen"
    case Cortisol => "cortisol"
    case Adrenaline => "adrenaline"
    case Serotonin => "serotonin"
    case Dopamine => "dopamine"
    case Endorphins => "endorphins"
    case Fatigue => "fatigue"
    case Pain => "pain"
    case MuscleTension => "muscle_tension"
    case ImmuneResponse => "immune_response"
    case CircadianPhase => "circadian_phase"
  }

  /** Display metadata of one bio variable: its natural range fixes the normalization. */
  datatype VarMeta = VarMeta(title: string, min: real, max: real, unit: string)

  function Meta(v: BioVar): (m: VarMeta)
    ensures m.min < m.max
  {
    match v
    case BodyTemp => VarMeta("Body Temp", 34.0, 43.0, "°C")
    case HeartRate => VarMeta("Heart Rate", 40.0, 200.0, "bpm")
    case BloodPressure => VarMeta("Blood Pressure", 80.0, 200.0, "mmHg")
    case RespiratoryRate => VarMeta("Resp. Rate", 8.0, 40.0, "br/min")
    case SpO2 => VarMeta("SpO2", 70.0, 100.0, "%")
    case BloodSugar => VarMeta("Blood Sugar", 50.0, 200.0, "mg/dL")
    case Hunger => VarMeta("Hunger", 0.0, 1.0, "")
    case Thirst => VarMeta("Thirst", 0.0, 1.0, "")
    case Hydration => VarMeta("Hydration", 0.0, 1.0, "")
    case Glycogen => VarMeta("Glycogen", 0.0, 1.0, "")
    case Cortisol => VarMeta("Cortisol", 0.0, 1.0, "")
    case Adrenaline => VarMeta("Adrenaline", 0.0, 1.0, "")
    case Serotonin => VarMeta("Serotonin", 0.0, 1.0, "")
    case Dopamine => VarMeta("Dopamine", 0.0, 1.0, "")
    case Endorphins => VarMeta("Endorphins", 0.0, 1.0, "")
    case Fatigue => VarMeta("Fatigue", 0.0, 1.0, "")
    case Pain => VarMeta("Pain", 0.0, 1.0, "")
    case MuscleTension => VarMeta("Muscle Tension", 0.0, 1.0, "")
    case ImmuneResponse => VarMeta("Immune Response", 0.0, 1.0, "")
    case CircadianPhase => VarMeta("Circadian Phase", 0.0, 24.0, "hr")
  }

  /** One chart: a group of variables drawn together. */
  datatype Group = Group(id: string, title: string, vars: seq<BioVar>)

  const BioGroups: seq<Group> := [
    Group("vital", "Vital Signs", [BodyTemp, HeartRate, BloodPressure, RespiratoryRate, SpO2]),
    Group("metabolic", "Metabolic", [BloodSugar, Hunger, Thirst, Hydration, Glycogen]),
    Group("hormonal", "Hormonal / Neurochemical", [Cortisol, Adrenaline, Serotonin, Dopamine, Endorphins]),
    Group("physical", "Physical State", [Fatigue, Pain, MuscleTension, ImmuneResponse]),
    Group("circadian", "Circadian", [CircadianPhase])
  ]

  const GroupIds: set<string> := {"vital", "metabolic", "hormonal", "physical", "circadian"}

  /** Every charted variable, in the order the panel walks the groups. */
  const BioVars: seq<BioVar> := [
    BodyTemp, HeartRate, BloodPressure, RespiratoryRate, SpO2,
    BloodSugar, Hunger, Thirst, Hydration, Glycogen,
    Cortisol, Adrenaline, Serotonin, Dopamine, Endorphins,
    Fatigue, Pain, MuscleTension, ImmuneResponse,
    CircadianPhase
  ]

  lemma BioVarsFollowGroups()
    ensures BioVars == BioGroups[0].vars + BioGroups[1].vars + BioGroups[2].vars + BioGroups[3].vars + BioGroups[4].vars
  {
  }

  /** The position of each variable in the walk. */
  function Ordinal(v: BioVar): (i: nat)
    ensures i < |BioVars| && BioVars[i] == v
  {
    match v
    case BodyTemp => 0
    case HeartRate => 1
    case BloodPressure => 2
    case RespiratoryRate => 3
    case SpO2 => 4
    case BloodSugar => 5
    case Hunger => 6
    case Thirst => 7
    case Hydration => 8
    case Glycogen => 9
    case Cortisol => 10
    case Adrenaline => 11
    case Serotonin => 12
    case Dopamine => 13
    case Endorphins => 14
    case Fatigue => 15
    case Pain => 16
    case MuscleTension => 17
    case ImmuneResponse => 18
    case CircadianPhase => 19
  }

  lemma EveryVarCharted()
    ensures forall v :: v in BioVars
  {
    forall v: BioVar ensures v in BioVars {
      assert BioVars[Ordinal(v)] == v;
    }
  }

  lemma OrdinalOfPosition(i: nat)
    requires i < |BioVars|
    ensures Ordinal(BioVars[i]) == i
  {
  }

  /** A raw reading mapped onto [0, 1] within its variable's natural range; nothing is clamped. */
  function Normalize(v: BioVar, value: real): real {
    var m := Meta(v);
    (value - m.min) / (m.max - m.min)
  }

  /** Normalization is invertible: scaling back recovers the raw reading exactly, so nothing is clamped. */
  lemma NormalizeInverts(v: BioVar, value: real)
    ensures Meta(v).min + Normalize(v, value) * (Meta(v).max - Meta(v).min) == value
  {
    var m := Meta(v);
    var w := m.max - m.min;
    assert (value - m.min) / w * w == value - m.min;
  }

  /** The normalized value lies in [0, 1] exactly when the raw reading lies in its natural range. */
  lemma NormalizeInUnitIffInRange(v: BioVar, value: real)
    ensures 0.0 <= Normalize(v, value) <= 1.0 <==> Meta(v).min <= value <= Meta(v).max
    ensures value == Meta(v).min ==> Normalize(v, value) == 0.0
    ensures value == Meta(v).max ==> Normalize(v, value) == 1.0
  {
    var m := Meta(v);
    var r := Normalize(v, value);
    var w := m.max - m.min;
    NormalizeInverts(v, value);
    ScaleInUnit(r, w);
  }

  lemma ScaleInUnit(r: real, w: real)
    requires w > 0.0
    ensures 0.0 <= r <= 1.0 <==> 0.0 <= r * w <= w
    ensures r * w == 0.0 <==> r == 0.0
    ensures r * w == w <==> r == 1.0
  {
    if r < 0.0 {
      assert r * w < 0.0;
    } else if r > 1.0 {
      assert (r - 1.0) * w > 0.0;
    } else if r < 1.0 {
      assert (1.0 - r) * w > 0.0;
    }
  }

  /** A heart rate of 120 bpm sits half-way between 40 and 200. */
  lemma HeartRateMidpoint()
    ensures Normalize(HeartRate, 120.0) == 0.5
  {
  }

  /** One threshold breach reported with a bio snapshot. */
  datatype Threshold = Threshold(system: string, condition: string, description: string)

  /**
   * A decoded bio snapshot: the display label of its timestamp, the readings present
   * in it (each variable read under its Key), and its threshold list (an absent list
   * reads as empty).
   */
  datatype BioPayload = BioPayload(stamp: string, values: map<BioVar, real>, thresholds: seq<Threshold>)

  /** A variable missing from the snapshot is recorded as 0. */
  function RawValue(p: BioPayload, v: BioVar): (r: real)
    ensures v in p.values ==> r == p.values[v]
    ensures v !in p.values ==> r == 0.0
  {
    if v in p.values then p.values[v] else 0.0
  }

  /** The system keywords that tie a threshold to a chart group; an unknown group has none. */
  function GroupKeywords(groupId: string): seq<string> {
    if groupId == "vital" then ["thermoregulation", "cardiovascular", "respiratory", "glycemic"]
    else if groupId == "metabolic" then ["glycemic", "dehydration", "starvation"]
    else if groupId == "hormonal" then ["stress", "cortisol"]
    else if groupId == "physical" then ["pain", "fatigue", "immune"]
    else if groupId == "circadian" then ["circadian"]
    else []
  }

  /** A threshold belongs to a group when its lower-cased system name contains one of the group's keywords. */
  function ThresholdMatchesGroup(system: string, groupId: string): (r: bool)
    ensures r <==> exists k :: 0 <= k < |GroupKeywords(groupId)| && Contains(ToLower(system), GroupKeywords(groupId)[k])
    ensures groupId !in GroupIds ==> !r
  {
    ContainsAny(ToLower(system), GroupKeywords(groupId))
  }

  /** The glycemic system lights up the vital and metabolic charts and not the hormonal one. */
  lemma GlycemicControlMatches()
    ensures ThresholdMatchesGroup("Glycemic_Control", "vital")
    ensures ThresholdMatchesGroup("Glycemic_Control", "metabolic")
    ensures !ThresholdMatchesGroup("Glycemic_Control", "hormonal")
  {
    GlycemicLower();
    var low := "glycemic_control";
    ContainsAt(low, "glycemic", 0);
    assert GroupKeywords("vital")[3] == "glycemic";
    assert GroupKeywords("metabolic")[0] == "glycemic";
    NotContainsStress(low);
    NotContainsCortisol(low);
  }

  lemma GlycemicLower()
    ensures ToLower("Glycemic_Control") == "glycemic_control"
  {
    var s := "Glycemic_Control";
    assert LowerChar(s[0]) == 'g';
    assert LowerChar(s[9]) == 'c';
  }

  lemma NotContainsStress(low: string)
    requires low == "glycemic_control"
    ensures !Contains(low, "stress")
  {
    NotContainsByPair(low, "stress");
  }

  lemma NotContainsCortisol(low: string)
    requires low == "glycemic_control"
    ensures !Contains(low, "cortisol")
  {
    NotContainsByPair(low, "cortisol");
  }

  /** A group is outlined exactly when some threshold of the snapshot matches it. */
  function GroupHasThreshold(groupId: string, thresholds: seq<Threshold>): (r: bool)
    ensures r <==> exists i :: 0 <= i < |thresholds| && ThresholdMatchesGroup(thresholds[i].system, groupId)
  {
    if thresholds == [] then false
    else if ThresholdMatchesGroup(thresholds[0].system, groupId) then true
    else
      assert forall i :: 1 <= i < |thresholds| ==> thresholds[i] == thresholds[1..][i - 1];
      GroupHasThreshold(groupId, thresholds[1..])
  }

  /** The alert banner line for one threshold. */
  function AlertLine(th: Threshold): string {
    "[" + ToUpper(th.condition) + "] " + th.system + ": " + th.description
  }

  /** The alert list: one line per threshold, in the order they arrived. */
  function AlertLines(thresholds: seq<Threshold>): (r: seq<string>)
    ensures |r| == |thresholds|
    ensures forall i :: 0 <= i < |thresholds| ==> r[i] == AlertLine(thresholds[i])
  {
    if thresholds == [] then [] else [AlertLine(thresholds[0])] + AlertLines(thresholds[1..])
  }

  /** The hidden-variable set after the user toggles a variable's visibility. */
  function Toggled(hidden: set<string>, varKey: string, visible: bool): (r: set<string>)
    ensures visible ==> varKey !in r
    ensures !visible ==> varKey in r
    ensures forall k :: k != varKey ==> (k in r <==> k in hidden)
  {
    if visible then hidden - {varKey} else hidden + {varKey}
  }

  /** Toggling twice to the same visibility is the same as toggling once, and hiding then showing restores everything else. */
  lemma ToggleIdempotent(hidden: set<string>, varKey: string, visible: bool)
    ensures Toggled(Toggled(hidden, varKey, visible), varKey, visible) == Toggled(hidden, varKey, visible)
    ensures Toggled(Toggled(hidden, varKey, false), varKey, true) == hidden - {varKey}
  {
  }

  /** What arrives on the socket: text that is not JSON, or a decoded message of some type. */
  datatype Inbound = Undecodable | Decoded(kind: string, bio: Option<BioPayload>)

  class Session {
    var labels: seq<string>
    /** The normalized chart series, one per variable, at the variable's Ordinal. */
    var history: seq<seq<real>>
    /** The raw readings behind each chart series, at the variable's Ordinal. */
    var rawHistory: seq<seq<real>>
    var hidden: set<string>
    var alerts: seq<string>
    var bannerActive: bool
    var outlined: set<string>

    /** Every series holds one point per label, at most 60 of them, each the normalized form of its raw reading. */
    ghost predicate Valid()
      reads this
    {
      && |labels| <= HistorySize
      && |history| == |BioVars|
      && |rawHistory| == |BioVars|
      && forall j :: 0 <= j < |BioVars| ==> Aligned(BioVars[j], history[j], rawHistory[j], |labels|)
    }

    /** The chart series of one variable. */
    function Series(v: BioVar): seq<real>
      reads this
      requires Valid()
    {
      history[Ordinal(v)]
    }

    /** The raw readings of one variable. */
    function RawSeries(v: BioVar): seq<real>
      reads this
      requires Valid()
    {
      rawHistory[Ordinal(v)]
    }

    /** The store once the panel is built: every series empty, nothing hidden, no alert. */
    constructor ()
      ensures Valid()
      ensures labels == [] && hidden == {} && alerts == [] && !bannerActive && outlined == {}
      ensures forall v :: Series(v) == [] && RawSeries(v) == []
    {
      labels := [];
      history := seq(|BioVars|, _ => []);
      rawHistory := seq(|BioVars|, _ => []);
      hidden := {};
      alerts := [];
      bannerActive := false;
      outlined := {};
    }

    /** The whole effect of a bio snapshot on the store. */
    twostate predicate AppliedBio(p: BioPayload)
      requires old(Valid()) && Valid()
      reads this
    {
      && labels == Roll(old(labels), p.stamp, HistorySize)
      && (forall v: BioVar ::
            && RawSeries(v) == Roll(old(RawSeries(v)), RawValue(p, v), HistorySize)
            && Series(v) == Roll(old(Series(v)), Normalize(v, RawValue(p, v)), HistorySize))
      && hidden == old(hidden)
      && alerts == AlertLines(p.thresholds)
      && bannerActive == (|p.thresholds| > 0)
      && outlined == set g | g in GroupIds && GroupHasThreshold(g, p.thresholds)
    }

    /** Records one bio snapshot: every series drops its oldest point once full and gains the new one. */
    method UpdateBioPanel(p: BioPayload)
      requires Valid()
      modifies this
      ensures Valid()
      ensures AppliedBio(p)
    {
      var stamps := Roll(labels, p.stamp, HistorySize);
      var norm, raw := RollSeries(history, rawHistory, p);
      forall j | 0 <= j < |BioVars|
        ensures Aligned(BioVars[j], norm[j], raw[j], |stamps|)
      {
        RolledSeriesStayAligned(BioVars[j], history[j], rawHistory[j], labels, RawValue(p, BioVars[j]), p.stamp);
      }
      RollIsKeepLast(labels, p.stamp, HistorySize);
      labels, history, rawHistory := stamps, norm, raw;
      outlined := set g | g in GroupIds && GroupHasThreshold(g, p.thresholds);
      alerts := AlertLines(p.thresholds);
      bannerActive := |p.thresholds| > 0;
    }

    /** Shows or hides one variable of a chart; a group without a chart is ignored. */
    method ToggleVar(groupId: string, varKey: string, visible: bool)
      requires Valid()
      modifies this`hidden
      ensures Valid()
      ensures hidden == if groupId in GroupIds then Toggled(old(hidden), varKey, visible) else old(hidden)
    {
      if groupId !in GroupIds {
        return;
      }
      if visible {
        hidden := hidden - {varKey};
      } else {
        hidden := hidden + {varKey};
      }
    }

    /**
     * Dispatches one socket message: a bio snapshot updates the store; text that is not
     * JSON, a bio message without a snapshot (which throws before touching anything),
     * a psych message (drawn straight into the page) and any other type leave it as it was.
     */
    method OnMessage(m: Inbound)
      requires Valid()
      modifies this
      ensures Valid()
      ensures m.Decoded? && m.kind == "bio_state" && m.bio.Some? ==> AppliedBio(m.bio.value)
      ensures !(m.Decoded? && m.kind == "bio_state" && m.bio.Some?) ==> unchanged(this)
    {
      if m.Decoded? && m.kind == "bio_state" && m.bio.Some? {
        UpdateBioPanel(m.bio.value);
      }
    }
  }

  /** A chart series and its raw series both hold n points, the first the normalized form of the second. */
  ghost predicate Aligned(v: BioVar, h: seq<real>, r: seq<real>, n: nat) {
    && |h| == n
    && |r| == n
    && forall k :: 0 <= k < n ==> h[k] == Normalize(v, r[k])
  }

  /**
   * Walks every charted variable in panel order and rolls the snapshot's reading
   * into its raw series and its normalized value into its chart series.
   */
  method RollSeries(history: seq<seq<real>>, rawHistory: seq<seq<real>>, p: BioPayload)
    returns (norm: seq<seq<real>>, raw: seq<seq<real>>)
    requires |history| == |BioVars| && |rawHistory| == |BioVars|
    ensures |norm| == |BioVars| && |raw| == |BioVars|
    ensures forall j :: 0 <= j < |BioVars| ==>
      && raw[j] == Roll(rawHistory[j], RawValue(p, BioVars[j]), HistorySize)
      && norm[j] == Roll(history[j], Normalize(BioVars[j], RawValue(p, BioVars[j])), HistorySize)
  {
    norm, raw := history, rawHistory;
    var i := 0;
    while i < |BioVars|
      invariant 0 <= i <= |BioVars|
      invariant |norm| == |BioVars| && |raw| == |BioVars|
      invariant forall j :: 0 <= j < i ==> raw[j] == Roll(rawHistory[j], RawValue(p, BioVars[j]), HistorySize)
      invariant forall j :: 0 <= j < i ==>
        norm[j] == Roll(history[j], Normalize(BioVars[j], RawValue(p, BioVars[j])), HistorySize)
      invariant forall j :: i <= j < |BioVars| ==> raw[j] == rawHistory[j] && norm[j] == history[j]
    {
      var v := BioVars[i];
      var x := RawValue(p, v);
      raw := raw[i := Roll(raw[i], x, HistorySize)];
      norm := norm[i := Roll(norm[i], Normalize(v, x), HistorySize)];
      i := i + 1;
    }
  }

  /** Rolling a chart series and its raw series with the same reading keeps them aligned with the labels. */
  lemma RolledSeriesStayAligned(v: BioVar, h: seq<real>, r: seq<real>, labels: seq<string>, x: real, stamp: string)
    requires Aligned(v, h, r, |labels|)
    ensures Aligned(v, Roll(h, Normalize(v, x), HistorySize), Roll(r, x, HistorySize), |Roll(labels, stamp, HistorySize)|)
  {
  }
}
