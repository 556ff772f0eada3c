/** The records the service reads (the user's answers, the stage question table)
    and the `CareerAnalysis` it returns. */
module AnalysisTypes {
  import opened Wrappers

  datatype Stage = Class10 | Class12 | College | Professional | HiddenTalent

  /** The string value of each `Stage` enum member. */
  function StageName(s: Stage): string {
    match s
    case Class10 => "Class 10 Student"
    case Class12 => "Class 12 Student"
    case College => "College Student"
    case Professional => "Working Professional"
    case HiddenTalent => "Hidden Talent Discovery"
  }

  /** A phase-1 Likert answer (score 1 to 5 by convention; not enforced by the service). */
  datatype QuizAnswer = QuizAnswer(questionId: int, score: int)

  datatype QuestionType = Choice | FreeText | MultiSelect

  datatype StageQuestion = StageQuestion(
    id: string,
    text: string,
    kind: QuestionType,
    options: Option<seq<string>>,
    category: Option<string>)

  /** What the wizard collected: the stage (null until chosen), the phase-1 answers
      in order, and the phase-2 answers keyed by stage question id. */
  datatype UserContext = UserContext(
    stage: Option<Stage>,
    answers: seq<QuizAnswer>,
    stageSpecificAnswers: map<string, string>)

  datatype RoadmapActivity = RoadmapActivity(task: string, resources: string, time: string)

  datatype RoadmapLevel = RoadmapLevel(focus: string, activities: seq<RoadmapActivity>)

  datatype Demand = High | Medium | Emerging

  /** The string the UI receives for each demand level. */
  function DemandName(d: Demand): string {
    match d
    case High => "High"
    case Medium => "Medium"
    case Emerging => "Emerging"
  }

  datatype CareerCard = CareerCard(
    title: string,
    demand: Demand,
    fitScore: int,
    salary: string,
    growth: string,
    reasons: seq<string>,
    gaps: seq<string>)

  datatype TalentProfile = TalentProfile(topStrengths: seq<string>, workingNature: string)

  datatype Roadmap = Roadmap(beginner: RoadmapLevel, intermediate: RoadmapLevel, advanced: RoadmapLevel)

  datatype Guidance = Guidance(bestRole: string, reason: string, actions: seq<string>)

  datatype CareerAnalysis = CareerAnalysis(
    talentProfile: TalentProfile,
    careerCards: seq<CareerCard>,
    roadmap: Roadmap,
    guidance: Guidance)
}
