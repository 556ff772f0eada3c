/** `sanitizeAnalysisData`: turns any parsed JSON value into a well-formed
    `CareerAnalysis`, type-checking every leaf and substituting a fixed default for
    every missing or wrongly typed field. It never fails. */
module Sanitizer {
  import opened Wrappers
  import opened Strings
  import opened JsonValues
  import opened AnalysisTypes

  predicate AllTrimmed(ss: seq<string>) {
    forall i :: 0 <= i < |ss| ==> IsTrimmed(ss[i])
  }

  predicate AllNonEmpty(ss: seq<string>) {
    forall i :: 0 <= i < |ss| ==> ss[i] != ""
  }

  predicate CardOk(c: CareerCard) {
    && IsTrimmed(c.title) && IsTrimmed(c.salary) && IsTrimmed(c.growth)
    && AllTrimmed(c.reasons) && AllTrimmed(c.gaps)
  }

  predicate ActivityOk(a: RoadmapActivity) {
    IsTrimmed(a.task) && IsTrimmed(a.resources) && IsTrimmed(a.time)
  }

  predicate LevelOk(l: RoadmapLevel) {
    IsTrimmed(l.focus) && forall i :: 0 <= i < |l.activities| ==> ActivityOk(l.activities[i])
  }

  /** What every sanitized result satisfies: all text trimmed, one to four cards,
      no empty strength or action, and at least one action. */
  predicate WellFormed(a: CareerAnalysis) {
    && AllTrimmed(a.talentProfile.topStrengths) && AllNonEmpty(a.talentProfile.topStrengths)
    && IsTrimmed(a.talentProfile.workingNature)
    && 1 <= |a.careerCards| <= 4
    && (forall i :: 0 <= i < |a.careerCards| ==> CardOk(a.careerCards[i]))
    && LevelOk(a.roadmap.beginner) && LevelOk(a.roadmap.intermediate) && LevelOk(a.roadmap.advanced)
    && IsTrimmed(a.guidance.bestRole) && IsTrimmed(a.guidance.reason)
    && |a.guidance.actions| >= 1
    && AllTrimmed(a.guidance.actions) && AllNonEmpty(a.guidance.actions)
  }

  // The fixed defaults, as the service writes them.
  const DefaultWorkingNature := "Balanced Professional"
  const DefaultTitle := "Recommended Role"
  const DefaultSalary := "Market Standard"
  const DefaultGrowth := "Growth path available"
  const DefaultFitScore := 75
  const DefaultTask := "Explore this topic"
  const DefaultResources := "Online Search / Books"
  const DefaultTime := "Flexible"
  const BeginnerFocus := "Foundational Knowledge"
  const IntermediateFocus := "Practical Application"
  const AdvancedFocus := "Expert Mastery"
  const DefaultBestRole := "Best Fit Role"
  const DefaultReason := "Based on your overall profile analysis."
  const FallbackActions := ["Review your profile strengths", "Research the recommended roles", "Prepare a learning plan"]
  /** Substituted when the reply holds no card at all. */
  const PlaceholderReason := "Insufficient data to " + "recommend specific roles."
  const PlaceholderGap := "General Aptitude"
  const PlaceholderCard := CareerCard(
    "General Analysis", Medium, 0, "Varies", "Please retake assessment with more details.",
    [PlaceholderReason], [PlaceholderGap])

  lemma CardDefaultsTrimmed()
    ensures IsTrimmed(DefaultTitle) && IsTrimmed(DefaultSalary) && IsTrimmed(DefaultGrowth)
  {
    assert IsTrimmed(DefaultTitle);
    assert IsTrimmed(DefaultSalary);
  }

  lemma PlaceholderOk()
    ensures CardOk(PlaceholderCard)
  {
    assert IsTrimmed(PlaceholderCard.title);
    assert IsTrimmed(PlaceholderCard.salary);
    assert IsTrimmed(PlaceholderCard.growth);
    assert IsTrimmed(PlaceholderReason);
    assert IsTrimmed(PlaceholderGap);
  }

  lemma ActivityDefaultsTrimmed()
    ensures IsTrimmed(DefaultTask) && IsTrimmed(DefaultResources) && IsTrimmed(DefaultTime)
  {
    assert IsTrimmed(DefaultTask);
    assert IsTrimmed(DefaultResources);
  }

  lemma FocusDefaultsTrimmed()
    ensures IsTrimmed(BeginnerFocus) && IsTrimmed(IntermediateFocus) && IsTrimmed(AdvancedFocus)
  {
    assert IsTrimmed(BeginnerFocus);
    assert IsTrimmed(IntermediateFocus);
  }

  lemma GuidanceDefaultsTrimmed()
    ensures IsTrimmed(DefaultBestRole) && IsTrimmed(DefaultReason)
    ensures AllTrimmed(FallbackActions) && AllNonEmpty(FallbackActions)
  {
    assert IsTrimmed(DefaultBestRole);
    assert IsTrimmed(DefaultReason);
    assert IsTrimmed(FallbackActions[0]);
    assert IsTrimmed(FallbackActions[1]);
    assert IsTrimmed(FallbackActions[2]);
  }

  /** `asArray(v)`: the elements of an array, and none for anything else. */
  function AsArray(v: Option<Json>): (items: seq<Json>)
    ensures v.Some? && v.value.JArr? ==> items == v.value.items
    ensures !(v.Some? && v.value.JArr?) ==> items == []
  {
    if v.Some? && v.value.JArr? then v.value.items else []
  }

  /** `asString(v, fallback)`: a string or a number becomes its trimmed text (which
      may be empty); anything else, or nothing, gives the fallback. */
  function AsString(v: Option<Json>, fallback: string): (r: string)
    ensures v.Some? && v.value.JStr? ==> r == Trim(v.value.s)
    ensures v.Some? && v.value.JNum? ==> r == IntToString(v.value.n)
    ensures !(v.Some? && (v.value.JStr? || v.value.JNum?)) ==> r == fallback
    ensures IsTrimmed(fallback) ==> IsTrimmed(r)
  {
    match v
    case Some(JStr(s)) => Trim(s)
    case Some(JNum(n)) => Trim(IntToString(n))
    case _ => fallback
  }

  /** `items.map(x => asString(x))`: one trimmed string per element, `""` for the
      elements that are neither strings nor numbers. */
  function StringsOf(items: seq<Json>): (r: seq<string>)
    ensures |r| == |items|
    ensures AllTrimmed(r)
    ensures forall i :: 0 <= i < |items| ==> r[i] == AsString(Some(items[i]), "")
    ensures forall i :: 0 <= i < |items| && !(items[i].JStr? || items[i].JNum?) ==> r[i] == ""
  {
    seq(|items|, i requires 0 <= i < |items| => AsString(Some(items[i]), ""))
  }

  /** `ss.filter(s => s.length > 0)`. */
  function KeepNonEmpty(ss: seq<string>): (r: seq<string>)
    ensures forall s :: s in r <==> s in ss && s != ""
    ensures AllNonEmpty(r)
    ensures AllNonEmpty(ss) ==> r == ss
    ensures AllTrimmed(ss) ==> AllTrimmed(r)
  {
    if ss == [] then []
    else
      var rest := KeepNonEmpty(ss[1..]);
      assert forall s :: s in ss <==> s == ss[0] || s in ss[1..];
      if ss[0] != "" then [ss[0]] + rest else rest
  }

  /** Filtering keeps the original order: it distributes over concatenation. */
  lemma {:induction false} KeepNonEmptyAppend(a: seq<string>, b: seq<string>)
    ensures KeepNonEmpty(a + b) == KeepNonEmpty(a) + KeepNonEmpty(b)
    decreases |a|
  {
    if a != [] {
      assert (a + b)[1..] == a[1..] + b;
      KeepNonEmptyAppend(a[1..], b);
    } else {
      assert a + b == b;
    }
  }

  /** The demand check: an exact `High`, `Medium` or `Emerging` string is kept (no
      trimming, no case folding); anything else is `Medium`. */
  function ParseDemand(v: Option<Json>): (d: Demand)
    ensures v.Some? && v.value.JStr? && v.value.s in {"High", "Medium", "Emerging"} ==> DemandName(d) == v.value.s
    ensures !(v.Some? && v.value.JStr? && v.value.s in {"High", "Medium", "Emerging"}) ==> d == Medium
  {
    match v
    case Some(JStr(s)) =>
      if s == "High" then High else if s == "Medium" then Medium else if s == "Emerging" then Emerging else Medium
    case _ => Medium
  }

  /** `typeof v === 'number' ? v : 75`: no clamping. */
  function FitScore(v: Option<Json>): (score: int)
    ensures v.Some? && v.value.JNum? ==> score == v.value.n
    ensures !(v.Some? && v.value.JNum?) ==> score == DefaultFitScore
  {
    match v
    case Some(JNum(n)) => n
    case _ => DefaultFitScore
  }

  /** One raw card, rebuilt field by field; a raw card that is not an object gets every default. */
  function SanitizeCard(card: Json): (c: CareerCard)
    ensures CardOk(c)
    ensures c.title == AsString(Member(Some(card), "title"), DefaultTitle)
    ensures c.demand == ParseDemand(Member(Some(card), "demand"))
    ensures c.fitScore == FitScore(Member(Some(card), "fitScore"))
    ensures c.salary == AsString(Member(Some(card), "salary"), DefaultSalary)
    ensures c.growth == AsString(Member(Some(card), "growth"), DefaultGrowth)
    ensures c.reasons == StringsOf(AsArray(Member(Some(card), "reasons")))
    ensures c.gaps == StringsOf(AsArray(Member(Some(card), "gaps")))
    ensures |c.reasons| == |AsArray(Member(Some(card), "reasons"))|
    ensures |c.gaps| == |AsArray(Member(Some(card), "gaps"))|
    ensures !card.JObj? ==> c == CareerCard(DefaultTitle, Medium, DefaultFitScore, DefaultSalary, DefaultGrowth, [], [])
  {
    CardDefaultsTrimmed();
    var raw := Some(card);
    CareerCard(
      AsString(Member(raw, "title"), DefaultTitle),
      ParseDemand(Member(raw, "demand")),
      FitScore(Member(raw, "fitScore")),
      AsString(Member(raw, "salary"), DefaultSalary),
      AsString(Member(raw, "growth"), DefaultGrowth),
      StringsOf(AsArray(Member(raw, "reasons"))),
      StringsOf(AsArray(Member(raw, "gaps"))))
  }

  /** The raw `careerCards` array (or none). */
  function RawCards(data: Json): seq<Json> {
    AsArray(Member(Some(data), "careerCards"))
  }

  /** Every raw card sanitized, the first four kept, and the placeholder when none is left. */
  function SanitizeCards(data: Json): (cards: seq<CareerCard>)
    ensures 1 <= |cards| <= 4
    ensures forall i :: 0 <= i < |cards| ==> CardOk(cards[i])
    ensures |RawCards(data)| == 0 ==> cards == [PlaceholderCard]
    ensures |RawCards(data)| > 0 ==>
      && |cards| == (if |RawCards(data)| < 4 then |RawCards(data)| else 4)
      && forall i :: 0 <= i < |cards| ==> cards[i] == SanitizeCard(RawCards(data)[i])
  {
    var raw := RawCards(data);
    var mapped := seq(|raw|, i requires 0 <= i < |raw| => SanitizeCard(raw[i]));
    var kept := if |mapped| <= 4 then mapped else mapped[..4];
    PlaceholderOk();
    if |kept| == 0 then [PlaceholderCard] else kept
  }

  function SanitizeActivity(act: Json): (a: RoadmapActivity)
    ensures ActivityOk(a)
    ensures a.task == AsString(Member(Some(act), "task"), DefaultTask)
    ensures a.resources == AsString(Member(Some(act), "resources"), DefaultResources)
    ensures a.time == AsString(Member(Some(act), "time"), DefaultTime)
    ensures !act.JObj? ==> a == RoadmapActivity(DefaultTask, DefaultResources, DefaultTime)
  {
    ActivityDefaultsTrimmed();
    var raw := Some(act);
    RoadmapActivity(
      AsString(Member(raw, "task"), DefaultTask),
      AsString(Member(raw, "resources"), DefaultResources),
      AsString(Member(raw, "time"), DefaultTime))
  }

  /** `sanitizeLevel(level, defaultFocus)`: one activity per raw element. */
  function SanitizeLevel(level: Option<Json>, defaultFocus: string): (l: RoadmapLevel)
    ensures IsTrimmed(defaultFocus) ==> LevelOk(l)
    ensures l.focus == AsString(Member(level, "focus"), defaultFocus)
    ensures |l.activities| == |AsArray(Member(level, "activities"))|
    ensures forall i :: 0 <= i < |l.activities| ==> l.activities[i] == SanitizeActivity(AsArray(Member(level, "activities"))[i])
    ensures !(level.Some? && level.value.JObj?) ==> l == RoadmapLevel(defaultFocus, [])
  {
    var raw := AsArray(Member(level, "activities"));
    RoadmapLevel(
      AsString(Member(level, "focus"), defaultFocus),
      seq(|raw|, i requires 0 <= i < |raw| => SanitizeActivity(raw[i])))
  }

  /** All three levels, each with its own default focus. */
  function SanitizeRoadmap(data: Json): (r: Roadmap)
    ensures LevelOk(r.beginner) && LevelOk(r.intermediate) && LevelOk(r.advanced)
    ensures r.beginner == SanitizeLevel(Member(Member(Some(data), "roadmap"), "beginner"), BeginnerFocus)
    ensures r.intermediate == SanitizeLevel(Member(Member(Some(data), "roadmap"), "intermediate"), IntermediateFocus)
    ensures r.advanced == SanitizeLevel(Member(Member(Some(data), "roadmap"), "advanced"), AdvancedFocus)
  {
    FocusDefaultsTrimmed();
    var raw := Member(Some(data), "roadmap");
    Roadmap(
      SanitizeLevel(Member(raw, "beginner"), BeginnerFocus),
      SanitizeLevel(Member(raw, "intermediate"), IntermediateFocus),
      SanitizeLevel(Member(raw, "advanced"), AdvancedFocus))
  }

  function SanitizeTalentProfile(data: Json): (t: TalentProfile)
    ensures AllTrimmed(t.topStrengths) && AllNonEmpty(t.topStrengths) && IsTrimmed(t.workingNature)
    ensures t.topStrengths == KeepNonEmpty(StringsOf(AsArray(Member(Member(Some(data), "talentProfile"), "topStrengths"))))
    ensures t.workingNature == AsString(Member(Member(Some(data), "talentProfile"), "workingNature"), DefaultWorkingNature)
  {
    assert IsTrimmed(DefaultWorkingNature);
    var raw := Member(Some(data), "talentProfile");
    TalentProfile(
      KeepNonEmpty(StringsOf(AsArray(Member(raw, "topStrengths")))),
      AsString(Member(raw, "workingNature"), DefaultWorkingNature))
  }

  /** `careerCards[0]?.title || "Best Fit Role"`. */
  function BestRoleFallback(cards: seq<CareerCard>): (role: string)
    ensures role != ""
    ensures |cards| > 0 && cards[0].title != "" ==> role == cards[0].title
    ensures !(|cards| > 0 && cards[0].title != "") ==> role == DefaultBestRole
  {
    if |cards| > 0 && cards[0].title != "" then cards[0].title else DefaultBestRole
  }

  /** The raw actions, as strings, without the empty ones. */
  function RawActions(data: Json): seq<string> {
    KeepNonEmpty(StringsOf(AsArray(Member(Member(Some(data), "guidance"), "actions"))))
  }

  /** Guidance, defaulted after the cards. The best role comes from the raw guidance
      when that is a string or a number; otherwise (missing, null, an object...) from
      the first sanitized card's title,
      and `Best Fit Role` when there is none or it is empty (a card whose raw title was
      blank). The actions are the non-blank raw actions in their order, or the fixed
      three when there are none. */
  function SanitizeGuidance(data: Json, cards: seq<CareerCard>): (g: Guidance)
    requires forall i :: 0 <= i < |cards| ==> CardOk(cards[i])
    ensures IsTrimmed(g.bestRole) && IsTrimmed(g.reason)
    ensures |g.actions| >= 1 && AllTrimmed(g.actions) && AllNonEmpty(g.actions)
    ensures var bestRole := Member(Member(Some(data), "guidance"), "bestRole");
      && (bestRole.Some? && bestRole.value.JStr? ==> g.bestRole == Trim(bestRole.value.s))
      && (bestRole.Some? && bestRole.value.JNum? ==> g.bestRole == IntToString(bestRole.value.n))
      && (!(bestRole.Some? && (bestRole.value.JStr? || bestRole.value.JNum?)) ==>
            g.bestRole == BestRoleFallback(cards))
    ensures g.reason == AsString(Member(Member(Some(data), "guidance"), "reason"), DefaultReason)
    ensures var raw := StringsOf(AsArray(Member(Member(Some(data), "guidance"), "actions")));
      && (forall s :: s in raw && s != "" ==> s in g.actions)
      && (KeepNonEmpty(raw) == [] ==> g.actions == FallbackActions)
      && (KeepNonEmpty(raw) != [] ==> g.actions == KeepNonEmpty(raw))
  {
    GuidanceDefaultsTrimmed();
    var raw := Member(Some(data), "guidance");
    var actions := RawActions(data);
    assert |cards| > 0 ==> CardOk(cards[0]);
    assert IsTrimmed(BestRoleFallback(cards));
    assert AllTrimmed(actions);
    Guidance(
      AsString(Member(raw, "bestRole"), BestRoleFallback(cards)),
      AsString(Member(raw, "reason"), DefaultReason),
      if |actions| == 0 then FallbackActions else actions)
  }

  /** `sanitizeAnalysisData`: total, and its result is always well formed. */
  function Sanitize(data: Json): (a: CareerAnalysis)
    ensures WellFormed(a)
  {
    var cards := SanitizeCards(data);
    CareerAnalysis(SanitizeTalentProfile(data), cards, SanitizeRoadmap(data), SanitizeGuidance(data, cards))
  }

  /** A reply that is not an object (null, a string, a number, an array) is treated
      exactly like an empty object. */
  lemma NonObjectInput(v: Json)
    requires !v.JObj?
    ensures Sanitize(v) == Sanitize(JObj(map[]))
  {
    assert forall k :: Member(Some(v), k) == None == Member(Some(JObj(map[])), k);
  }

  /** The all-defaults result: no strengths, the placeholder card, three empty levels
      with their default focus, the placeholder's title as best role and the fixed
      three actions. */
  lemma EmptyObjectResult()
    ensures Sanitize(JObj(map[])) == CareerAnalysis(
      TalentProfile([], DefaultWorkingNature),
      [PlaceholderCard],
      Roadmap(RoadmapLevel(BeginnerFocus, []), RoadmapLevel(IntermediateFocus, []), RoadmapLevel(AdvancedFocus, [])),
      Guidance(PlaceholderCard.title, DefaultReason, FallbackActions))
  {
    var e := JObj(map[]);
    assert RawCards(e) == [];
    assert PlaceholderCard.title != "";
  }

  /** A blank working nature is kept as the empty string, not defaulted. */
  lemma BlankWorkingNatureKept()
    ensures Sanitize(JObj(map["talentProfile" := JObj(map["workingNature" := JStr(" ")])])).talentProfile.workingNature == ""
  {
    var v := JObj(map["talentProfile" := JObj(map["workingNature" := JStr(" ")])]);
    var tp := Member(Some(v), "talentProfile");
    assert Member(tp, "workingNature") == Some(JStr(" "));
    assert " " == [' '] + [];
    TrimPadded([' '], [], []);
  }

  /** A first card with a blank title sends the best role to `Best Fit Role`. */
  lemma BlankFirstTitle()
    ensures Sanitize(JObj(map["careerCards" := JArr([JObj(map["title" := JStr(" ")])])])).guidance.bestRole
      == DefaultBestRole
  {
    var card := JObj(map["title" := JStr(" ")]);
    var v := JObj(map["careerCards" := JArr([card])]);
    assert Member(Some(card), "title") == Some(JStr(" "));
    TrimPadded([' '], [], []);
    assert SanitizeCard(card).title == "";
    assert RawCards(v) == [card];
    assert SanitizeCards(v)[0].title == "";
    assert Member(Some(v), "guidance") == None;
  }
}
