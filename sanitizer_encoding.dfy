/** The reverse direction of the sanitizer: a `CareerAnalysis` written back as the
    JSON object the system instruction asks the model for. Sanitizing that object
    gives the analysis back whenever it is well formed, so `WellFormed` describes
    exactly what `sanitizeAnalysisData` can return, and sanitizing is idempotent. */
module SanitizerEncoding {
  import opened Wrappers
  import opened Strings
  import opened JsonValues
  import opened AnalysisTypes
  import opened Sanitizer

  function EncodeStrings(ss: seq<string>): Json {
    JArr(seq(|ss|, i requires 0 <= i < |ss| => JStr(ss[i])))
  }

  function EncodeCard(c: CareerCard): Json {
    JObj(map[
      "title" := JStr(c.title),
      "demand" := JStr(DemandName(c.demand)),
      "fitScore" := JNum(c.fitScore),
      "salary" := JStr(c.salary),
      "growth" := JStr(c.growth),
      "reasons" := EncodeStrings(c.reasons),
      "gaps" := EncodeStrings(c.gaps)])
  }

  function EncodeActivity(a: RoadmapActivity): Json {
    JObj(map["task" := JStr(a.task), "resources" := JStr(a.resources), "time" := JStr(a.time)])
  }

  function EncodeLevel(l: RoadmapLevel): Json {
    JObj(map[
      "focus" := JStr(l.focus),
      "activities" := JArr(seq(|l.activities|, i requires 0 <= i < |l.activities| => EncodeActivity(l.activities[i])))])
  }

  function Encode(a: CareerAnalysis): Json {
    JObj(map[
      "talentProfile" := JObj(map[
        "topStrengths" := EncodeStrings(a.talentProfile.topStrengths),
        "workingNature" := JStr(a.talentProfile.workingNature)]),
      "careerCards" := JArr(seq(|a.careerCards|, i requires 0 <= i < |a.careerCards| => EncodeCard(a.careerCards[i]))),
      "roadmap" := JObj(map[
        "beginner" := EncodeLevel(a.roadmap.beginner),
        "intermediate" := EncodeLevel(a.roadmap.intermediate),
        "advanced" := EncodeLevel(a.roadmap.advanced)]),
      "guidance" := JObj(map[
        "bestRole" := JStr(a.guidance.bestRole),
        "reason" := JStr(a.guidance.reason),
        "actions" := EncodeStrings(a.guidance.actions)])])
  }

  /** Trimmed strings survive `asArray(...).map(asString)` unchanged. */
  lemma StringsRoundTrip(ss: seq<string>)
    requires AllTrimmed(ss)
    ensures StringsOf(AsArray(Some(EncodeStrings(ss)))) == ss
  {
    var r := StringsOf(AsArray(Some(EncodeStrings(ss))));
    forall i | 0 <= i < |ss|
      ensures r[i] == ss[i]
    {
      assert IsTrimmed(ss[i]);
    }
  }

  /** Every demand level is read back from its own name. */
  lemma DemandRoundTrip(d: Demand)
    ensures ParseDemand(Some(JStr(DemandName(d)))) == d
  {
    assert |"High"| == 4 && |"Medium"| == 6 && |"Emerging"| == 8;
  }

  lemma CardRoundTrip(c: CareerCard)
    requires CardOk(c)
    ensures SanitizeCard(EncodeCard(c)) == c
  {
    var raw := Some(EncodeCard(c));
    assert Member(raw, "title") == Some(JStr(c.title));
    assert Member(raw, "demand") == Some(JStr(DemandName(c.demand)));
    assert Member(raw, "fitScore") == Some(JNum(c.fitScore));
    assert Member(raw, "salary") == Some(JStr(c.salary));
    assert Member(raw, "growth") == Some(JStr(c.growth));
    DemandRoundTrip(c.demand);
    StringsRoundTrip(c.reasons);
    StringsRoundTrip(c.gaps);
  }

  lemma ActivityRoundTrip(a: RoadmapActivity)
    requires ActivityOk(a)
    ensures SanitizeActivity(EncodeActivity(a)) == a
  {
    var raw := Some(EncodeActivity(a));
    assert Member(raw, "task") == Some(JStr(a.task));
    assert Member(raw, "resources") == Some(JStr(a.resources));
    assert Member(raw, "time") == Some(JStr(a.time));
  }

  lemma LevelRoundTrip(l: RoadmapLevel, defaultFocus: string)
    requires LevelOk(l)
    ensures SanitizeLevel(Some(EncodeLevel(l)), defaultFocus) == l
  {
    var r := SanitizeLevel(Some(EncodeLevel(l)), defaultFocus);
    forall i | 0 <= i < |l.activities|
      ensures r.activities[i] == l.activities[i]
    {
      ActivityRoundTrip(l.activities[i]);
    }
  }

  lemma CardsRoundTrip(a: CareerAnalysis)
    requires WellFormed(a)
    ensures SanitizeCards(Encode(a)) == a.careerCards
  {
    var cards := SanitizeCards(Encode(a));
    assert RawCards(Encode(a)) == seq(|a.careerCards|, i requires 0 <= i < |a.careerCards| => EncodeCard(a.careerCards[i]));
    forall i | 0 <= i < |a.careerCards|
      ensures cards[i] == a.careerCards[i]
    {
      CardRoundTrip(a.careerCards[i]);
    }
  }

  lemma TalentProfileRoundTrip(a: CareerAnalysis)
    requires WellFormed(a)
    ensures SanitizeTalentProfile(Encode(a)) == a.talentProfile
  {
    var tp := Member(Some(Encode(a)), "talentProfile");
    assert Member(tp, "topStrengths") == Some(EncodeStrings(a.talentProfile.topStrengths));
    assert Member(tp, "workingNature") == Some(JStr(a.talentProfile.workingNature));
    StringsRoundTrip(a.talentProfile.topStrengths);
  }

  lemma RoadmapRoundTrip(a: CareerAnalysis)
    requires WellFormed(a)
    ensures SanitizeRoadmap(Encode(a)) == a.roadmap
  {
    var rm := Member(Some(Encode(a)), "roadmap");
    assert Member(rm, "beginner") == Some(EncodeLevel(a.roadmap.beginner));
    assert Member(rm, "intermediate") == Some(EncodeLevel(a.roadmap.intermediate));
    assert Member(rm, "advanced") == Some(EncodeLevel(a.roadmap.advanced));
    LevelRoundTrip(a.roadmap.beginner, BeginnerFocus);
    LevelRoundTrip(a.roadmap.intermediate, IntermediateFocus);
    LevelRoundTrip(a.roadmap.advanced, AdvancedFocus);
  }

  lemma GuidanceRoundTrip(a: CareerAnalysis)
    requires WellFormed(a)
    ensures SanitizeGuidance(Encode(a), a.careerCards) == a.guidance
  {
    var gd := Member(Some(Encode(a)), "guidance");
    assert Member(gd, "bestRole") == Some(JStr(a.guidance.bestRole));
    assert Member(gd, "reason") == Some(JStr(a.guidance.reason));
    assert Member(gd, "actions") == Some(EncodeStrings(a.guidance.actions));
    StringsRoundTrip(a.guidance.actions);
  }

  /** A well-formed analysis, written out and sanitized, comes back unchanged. */
  lemma SanitizeEncode(a: CareerAnalysis)
    requires WellFormed(a)
    ensures Sanitize(Encode(a)) == a
  {
    TalentProfileRoundTrip(a);
    CardsRoundTrip(a);
    RoadmapRoundTrip(a);
    GuidanceRoundTrip(a);
  }

  /** Sanitizing what the sanitizer produced changes nothing. */
  lemma SanitizeIdempotent(v: Json)
    ensures Sanitize(Encode(Sanitize(v))) == Sanitize(v)
  {
    SanitizeEncode(Sanitize(v));
  }

  /** `WellFormed` is exactly the set of results the sanitizer can produce. */
  lemma WellFormedIsImage(a: CareerAnalysis)
    ensures WellFormed(a) <==> exists v :: Sanitize(v) == a
  {
    if WellFormed(a) {
      SanitizeEncode(a);
    }
  }
}
