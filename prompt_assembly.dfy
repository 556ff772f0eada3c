/** The user prompt `generateCareerAnalysis` sends: the stage, the phase-1 Likert
    scores one per line, and the phase-2 question/answer blocks of the stage's
    question table, inside a fixed template. */
module PromptAssembly {
  import opened Wrappers
  import opened Strings
  import opened AnalysisTypes

  /** `Q<i+1> (1-5): <score>/5`: numbered by position, not by question id. */
  function Phase1Line(i: nat, a: QuizAnswer): string {
    "Q" + NatToString(i + 1) + " (1-5): " + IntToString(a.score) + "/5"
  }

  function Phase1Lines(answers: seq<QuizAnswer>): seq<string> {
    seq(|answers|, i requires 0 <= i < |answers| => Phase1Line(i, answers[i]))
  }

  /** The phase-1 answers, one line each, in input order. */
  function FormatPhase1(answers: seq<QuizAnswer>): (r: string)
    ensures answers == [] ==> r == ""
    ensures |answers| > 0 ==> StartsWith(r, Phase1Line(0, answers[0]))
    ensures |answers| > 0 ==> EndsWith(r, Phase1Line(|answers| - 1, answers[|answers| - 1]))
  {
    Join(Phase1Lines(answers), "\n")
  }

  function Scores(answers: seq<QuizAnswer>): seq<int> {
    seq(|answers|, i requires 0 <= i < |answers| => answers[i].score)
  }

  lemma Phase1LineFacts(i: nat, a: QuizAnswer)
    ensures '\n' !in Phase1Line(i, a)
    ensures Phase1Line(i, a) != ""
  {
  }

  /** Splitting the phase-1 text at line breaks gives back its lines. */
  lemma Phase1Split(answers: seq<QuizAnswer>)
    requires |answers| >= 1
    ensures Split(FormatPhase1(answers), '\n') == Phase1Lines(answers)
  {
    var lines := Phase1Lines(answers);
    forall i | 0 <= i < |lines|
      ensures '\n' !in lines[i]
    {
      Phase1LineFacts(i, answers[i]);
    }
    SplitJoin(lines, '\n');
  }

  /** Two answers on the same line number give the same line only with the same score. */
  lemma Phase1LineInjective(i: nat, a: QuizAnswer, b: QuizAnswer)
    requires Phase1Line(i, a) == Phase1Line(i, b)
    ensures a.score == b.score
  {
    var p := "Q" + NatToString(i + 1) + " (1-5): ";
    var x, y := IntToString(a.score), IntToString(b.score);
    assert Phase1Line(i, a) == p + x + "/5";
    assert Phase1Line(i, b) == p + y + "/5";
    assert |x| == |y|;
    assert x == (p + x + "/5")[|p|..|p| + |x|];
    assert y == (p + y + "/5")[|p|..|p| + |y|];
    IntToStringInjective(a.score, b.score);
  }

  /** The phase-1 text records every score, in order: equal texts mean equal scores. */
  lemma Phase1Determines(xs: seq<QuizAnswer>, ys: seq<QuizAnswer>)
    requires FormatPhase1(xs) == FormatPhase1(ys)
    ensures Scores(xs) == Scores(ys)
  {
    if xs == [] && ys == [] {
    } else if xs == [] || ys == [] {
      assert false;
    } else {
      Phase1SameLines(xs, ys);
    }
  }

  /** Equal non-empty phase-1 texts have equal scores, line by line. */
  lemma Phase1SameLines(xs: seq<QuizAnswer>, ys: seq<QuizAnswer>)
    requires |xs| >= 1 && |ys| >= 1
    requires FormatPhase1(xs) == FormatPhase1(ys)
    ensures Scores(xs) == Scores(ys)
  {
    Phase1Split(xs);
    Phase1Split(ys);
    assert Phase1Lines(xs) == Phase1Lines(ys);
    forall i | 0 <= i < |xs|
      ensures xs[i].score == ys[i].score
    {
      assert Phase1Lines(xs)[i] == Phase1Lines(ys)[i];
      Phase1LineInjective(i, xs[i], ys[i]);
    }
  }

  /** `stageSpecificAnswers[q.id] || "Skipped"`. */
  function AnswerFor(answers: map<string, string>, id: string): (r: string)
    ensures r != ""
    ensures r == "Skipped" <==> id !in answers || answers[id] == "" || answers[id] == "Skipped"
    ensures id in answers && answers[id] != "" ==> r == answers[id]
  {
    if id in answers && answers[id] != "" then answers[id] else "Skipped"
  }

  /** `Q: <text>\nA: <answer>`. */
  function Phase2Block(q: StageQuestion, answers: map<string, string>): string {
    "Q: " + q.text + "\nA: " + AnswerFor(answers, q.id)
  }

  function Phase2Blocks(qs: seq<StageQuestion>, answers: map<string, string>): (r: seq<string>)
    ensures |r| == |qs|
    ensures forall i :: 0 <= i < |qs| ==> r[i] == Phase2Block(qs[i], answers)
  {
    seq(|qs|, i requires 0 <= i < |qs| => Phase2Block(qs[i], answers))
  }

  /** The stage's questions in table order, separated by a blank line; no stage, no section. */
  function FormatPhase2(stage: Option<Stage>, table: Stage -> seq<StageQuestion>, answers: map<string, string>): (r: string)
    ensures stage.None? ==> r == ""
    ensures stage.Some? ==> r == Join(Phase2Blocks(table(stage.value), answers), "\n\n")
    ensures stage.Some? ==> forall i :: 0 <= i < |table(stage.value)| ==>
      IsInfix(Phase2Block(table(stage.value)[i], answers), r)
  {
    if stage.None? then ""
    else
      var blocks := Phase2Blocks(table(stage.value), answers);
      assert forall i :: 0 <= i < |table(stage.value)| ==>
        IsInfix(Phase2Block(table(stage.value)[i], answers), Join(blocks, "\n\n")) by {
        forall i | 0 <= i < |table(stage.value)|
          ensures IsInfix(Phase2Block(table(stage.value)[i], answers), Join(blocks, "\n\n"))
        {
          assert blocks[i] == Phase2Block(table(stage.value)[i], answers);
          JoinInfix(blocks, "\n\n", i);
        }
      }
      Join(blocks, "\n\n")
  }

  /** `${userContext.stage}`: the enum's string, or `null` before a stage is chosen. */
  function StageText(stage: Option<Stage>): string {
    if stage.Some? then StageName(stage.value) else "null"
  }

  function StageLine(stage: Option<Stage>): string {
    "CURRENT STAGE: " + StageText(stage)
  }

  const Lead := "\n    USER PROFILE DATA:\n    \n    "
  const Phase1Heading := "\n    \n    === PHASE 1: TALENT DIGGER SCORES (Likert 1-5) ===\n    "
  const Phase2Heading := "\n    \n    === PHASE 2: DECISION CONTEXT (Specific to Stage) ===\n    "
  const Footer := "\n    \n    Provide the output in strict JSON format as defined in the system instruction.\n"
    + "    Ensure 'careerCards' is an array of objects.\n"
    + "    Ensure 'roadmap' has 'beginner', 'intermediate', and 'advanced' objects.\n  "

  /** The prompt template filled in: the fixed lead and footer around the stage line
      and the two answer sections (`StageInPrompt`, `Phase1InPrompt`, `Phase2InPrompt`). */
  function BuildPrompt(ctx: UserContext, table: Stage -> seq<StageQuestion>): (prompt: string)
    ensures StartsWith(prompt, Lead) && EndsWith(prompt, Footer)
  {
    SevenPartConcat(Lead, StageLine(ctx.stage), Phase1Heading, FormatPhase1(ctx.answers),
      Phase2Heading, FormatPhase2(ctx.stage, table, ctx.stageSpecificAnswers), Footer);
    Lead + StageLine(ctx.stage) + Phase1Heading + FormatPhase1(ctx.answers)
      + Phase2Heading + FormatPhase2(ctx.stage, table, ctx.stageSpecificAnswers) + Footer
  }

  /** A seven-piece concatenation starts with its first piece, ends with its last,
      and the pieces at even positions occur in it. */
  lemma SevenPartConcat(a: string, b: string, c: string, d: string, e: string, f: string, g: string)
    ensures StartsWith(a + b + c + d + e + f + g, a)
    ensures EndsWith(a + b + c + d + e + f + g, g)
    ensures IsInfix(b, a + b + c + d + e + f + g)
    ensures IsInfix(d, a + b + c + d + e + f + g)
    ensures IsInfix(f, a + b + c + d + e + f + g)
  {
    var s := a + b + c + d + e + f + g;
    assert s[..|a|] == a;
    assert s[|s| - |g|..] == g;
    assert s[|a|..|a + b|] == b;
    assert s[|a + b + c|..|a + b + c + d|] == d;
    assert s[|a + b + c + d + e|..|a + b + c + d + e + f|] == f;
  }

  /** The prompt names the stage after its label. */
  lemma StageInPrompt(ctx: UserContext, table: Stage -> seq<StageQuestion>)
    ensures IsInfix(StageLine(ctx.stage), BuildPrompt(ctx, table))
  {
    SevenPartConcat(Lead, StageLine(ctx.stage), Phase1Heading, FormatPhase1(ctx.answers),
      Phase2Heading, FormatPhase2(ctx.stage, table, ctx.stageSpecificAnswers), Footer);
  }

  /** The prompt carries the whole phase-1 text. */
  lemma Phase1InPrompt(ctx: UserContext, table: Stage -> seq<StageQuestion>)
    ensures IsInfix(FormatPhase1(ctx.answers), BuildPrompt(ctx, table))
  {
    SevenPartConcat(Lead, StageLine(ctx.stage), Phase1Heading, FormatPhase1(ctx.answers),
      Phase2Heading, FormatPhase2(ctx.stage, table, ctx.stageSpecificAnswers), Footer);
  }

  /** The prompt carries the whole phase-2 text. */
  lemma Phase2InPrompt(ctx: UserContext, table: Stage -> seq<StageQuestion>)
    ensures IsInfix(FormatPhase2(ctx.stage, table, ctx.stageSpecificAnswers), BuildPrompt(ctx, table))
  {
    SevenPartConcat(Lead, StageLine(ctx.stage), Phase1Heading, FormatPhase1(ctx.answers),
      Phase2Heading, FormatPhase2(ctx.stage, table, ctx.stageSpecificAnswers), Footer);
  }

  /** Every question of the chosen stage reaches the prompt with its answer, or with
      `Skipped` when it has none. */
  lemma EveryStageQuestionAsked(ctx: UserContext, table: Stage -> seq<StageQuestion>, i: nat)
    requires ctx.stage.Some? && i < |table(ctx.stage.value)|
    ensures var q := table(ctx.stage.value)[i];
      IsInfix("Q: " + q.text + "\nA: " + AnswerFor(ctx.stageSpecificAnswers, q.id), BuildPrompt(ctx, table))
  {
    var q := table(ctx.stage.value)[i];
    Phase2InPrompt(ctx, table);
    InfixTransitive(Phase2Block(q, ctx.stageSpecificAnswers),
      FormatPhase2(ctx.stage, table, ctx.stageSpecificAnswers), BuildPrompt(ctx, table));
  }

  /** The first two questions of each stage's table. */
  function SampleTable(stage: Stage): seq<StageQuestion> {
    match stage
    case Class10 => [
      StageQuestion("10_1", "Which subject do you understand fastest without memorizing?", Choice,
        Some(["Mathematics", "Science", "Social Science", "Languages"]), Some("Subject Understanding")),
      StageQuestion("10_2", "How do you feel about numerical problem solving?", Choice,
        Some(["Enjoy", "Can manage", "Avoid", "Strongly dislike"]), Some("Subject Understanding"))]
    case Class12 => [
      StageQuestion("12_1", "Which subjects did you perform best in Class 11–12?", FreeText, None, Some("Subject Strength")),
      StageQuestion("12_2", "Which subject drained you the most mentally?", FreeText, None, Some("Subject Strength"))]
    case College => [
      StageQuestion("C_1", "Degree, branch, and year of study:", FreeText, None, Some("Academic & Skills")),
      StageQuestion("C_2", "Strongest subject so far:", FreeText, None, Some("Academic & Skills"))]
    case Professional => [
      StageQuestion("P_1", "Current role & years of experience:", FreeText, None, Some("Experience")),
      StageQuestion("P_2", "Key responsibilities:", FreeText, None, Some("Experience"))]
    case HiddenTalent => [
      StageQuestion("HT_1", "What do you do in your free time that you lose track of time doing?", FreeText, None, Some("Exploration")),
      StageQuestion("HT_2", "What are hobbies you secretly wish you could pursue professionally?", FreeText, None, Some("Exploration"))]
  }

  /** Two answers become two numbered lines, whatever their question ids. */
  lemma Phase1Example()
    ensures FormatPhase1([QuizAnswer(7, 4), QuizAnswer(3, 5)]) == "Q1 (1-5): 4/5" + "\n" + "Q2 (1-5): 5/5"
  {
    var xs := [QuizAnswer(7, 4), QuizAnswer(3, 5)];
    assert Phase1Line(0, xs[0]) == "Q1 (1-5): 4/5" by {
      assert NatToString(1) == "1" && IntToString(4) == "4";
    }
    assert Phase1Line(1, xs[1]) == "Q2 (1-5): 5/5" by {
      assert NatToString(2) == "2" && IntToString(5) == "5";
    }
    var lines := Phase1Lines(xs);
    assert lines == ["Q1 (1-5): 4/5", "Q2 (1-5): 5/5"];
    assert lines[1..] == ["Q2 (1-5): 5/5"];
  }

  /** An answered question shows its answer; an unanswered one shows `Skipped`. */
  lemma Phase2Example()
    ensures var qs := SampleTable(Professional);
      FormatPhase2(Some(Professional), SampleTable, map["P_1" := "Analyst, 3 years", "P_2" := ""])
        == "Q: " + qs[0].text + "\nA: " + "Analyst, 3 years" + "\n\n" + "Q: " + qs[1].text + "\nA: " + "Skipped"
  {
    var answers := map["P_1" := "Analyst, 3 years", "P_2" := ""];
    var qs := SampleTable(Professional);
    assert AnswerFor(answers, "P_1") == "Analyst, 3 years";
    assert AnswerFor(answers, "P_2") == "Skipped";
    var blocks := Phase2Blocks(qs, answers);
    assert blocks[0] == "Q: " + qs[0].text + "\nA: " + "Analyst, 3 years";
    assert blocks[1] == "Q: " + qs[1].text + "\nA: " + "Skipped";
    assert blocks[1..] == [blocks[1]];
    assert Join(blocks, "\n\n") == blocks[0] + "\n\n" + blocks[1];
  }
}
