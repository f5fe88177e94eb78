/** The PHQ-9 depression screener (Kroenke, Spitzer and Williams, 2001):
    nine questions, each answered 0 to 3, shown one at a time; answering the
    last one sends the total score on to the result screen. */
module Phq9 {
  import opened Wrappers

  const QuestionCount: int := 9

  /** The answer keys in display order, with their values 0..3. */
  const Options: seq<(int, string)> := [
    (0, "not_at_all"), (1, "several_days"), (2, "more_than_half"), (3, "nearly_every_day")
  ]

  predicate IsOptionValue(v: int)
  {
    exists i :: 0 <= i < |Options| && Options[i].0 == v
  }

  lemma OptionValues(v: int)
    ensures IsOptionValue(v) <==> 0 <= v <= 3
  {
    if 0 <= v <= 3 {
      assert Options[v].0 == v;
    }
  }

  /** The sum of the answers (`reduce((a, b) => a + b, 0)`). */
  function Sum(s: seq<int>): int
  {
    if s == [] then 0 else Sum(s[..|s| - 1]) + s[|s| - 1]
  }

  /** A completed questionnaire scores between 0 and 27. */
  lemma {:induction false} SumBounds(s: seq<int>)
    requires forall i :: 0 <= i < |s| ==> 0 <= s[i] <= 3
    ensures 0 <= Sum(s) <= 3 * |s|
  {
    if s != [] {
      SumBounds(s[..|s| - 1]);
    }
  }

  /** What a press leads to after the answer is stored. */
  datatype Step = Advanced | Completed(score: int, assessmentType: string)

  class Questionnaire {
    var answers: array<int>
    var currentIndex: int

    /** The array keeps its nine entries; every question before the current
        one has been answered, and an entry is either unanswered (-1) or an
        option value. */
    ghost predicate Valid()
      reads this, answers
    {
      && answers.Length == QuestionCount
      && 0 <= currentIndex < QuestionCount
      && (forall i :: 0 <= i < currentIndex ==> 0 <= answers[i] <= 3)
      && (forall i :: 0 <= i < answers.Length ==> answers[i] == -1 || 0 <= answers[i] <= 3)
    }

    constructor ()
      ensures Valid() && fresh(answers)
      ensures currentIndex == 0
      ensures answers[..] == seq(QuestionCount, _ => -1)
    {
      answers := new int[QuestionCount](_ => -1);
      currentIndex := 0;
    }

    /** `handleSelect(value)`: store the answer at the current question,
        then move on, or, on the last question, hand over the total. */
    method HandleSelect(value: int) returns (step: Step)
      requires Valid() && IsOptionValue(value)
      modifies this`currentIndex, answers
      ensures Valid()
      ensures answers[..] == old(answers[..])[old(currentIndex) := value]
      ensures old(currentIndex) < QuestionCount - 1 ==> step == Advanced && currentIndex == old(currentIndex) + 1
      ensures old(currentIndex) == QuestionCount - 1 ==> currentIndex == old(currentIndex)
      ensures old(currentIndex) == QuestionCount - 1 ==> step == Completed(Sum(answers[..]), "phq9")
      ensures step.Completed? ==> 0 <= step.score <= 3 * QuestionCount
    {
      OptionValues(value);
      answers[currentIndex] := value;
      if currentIndex < QuestionCount - 1 {
        currentIndex := currentIndex + 1;
        step := Advanced;
      } else {
        var total := Total();
        SumBounds(answers[..]);
        step := Completed(total, "phq9");
      }
    }

    /** `handleBack()`: one question back, or leave the screen from the first. */
    method HandleBack() returns (navigateBack: bool)
      requires Valid()
      modifies this`currentIndex
      ensures Valid()
      ensures navigateBack <==> old(currentIndex) == 0
      ensures currentIndex == if old(currentIndex) > 0 then old(currentIndex) - 1 else 0
    {
      if currentIndex > 0 {
        currentIndex := currentIndex - 1;
        navigateBack := false;
      } else {
        navigateBack := true;
      }
    }

    /** The score: the sum of the nine answers. */
    method Total() returns (total: int)
      requires Valid()
      ensures total == Sum(answers[..])
    {
      total := 0;
      var i := 0;
      while i < answers.Length
        invariant 0 <= i <= answers.Length
        invariant total == Sum(answers[..i])
      {
        assert answers[..i + 1][..i] == answers[..i];
        total := total + answers[i];
        i := i + 1;
      }
      assert answers[..i] == answers[..];
    }
  }

  /** Answering all nine questions from a fresh questionnaire completes it
      with the sum of the answers given. */
  method AnswerAll(q: Questionnaire, given: seq<int>) returns (step: Step)
    requires q.Valid() && q.currentIndex == 0
    requires |given| == QuestionCount
    requires forall i :: 0 <= i < |given| ==> 0 <= given[i] <= 3
    modifies q, q.answers
    ensures step == Completed(Sum(given), "phq9")
    ensures 0 <= Sum(given) <= 27
  {
    var i := 0;
    step := Advanced;
    while i < QuestionCount
      invariant 0 <= i <= QuestionCount
      invariant q.Valid() && q.answers == old(q.answers)
      invariant i < QuestionCount ==> q.currentIndex == i
      invariant forall k :: 0 <= k < i ==> q.answers[k] == given[k]
      invariant i < QuestionCount ==> step == Advanced
      invariant i == QuestionCount ==> step == Completed(Sum(given), "phq9")
    {
      OptionValues(given[i]);
      step := q.HandleSelect(given[i]);
      if i == QuestionCount - 1 {
        assert q.answers[..] == given;
      }
      i := i + 1;
    }
    SumBounds(given);
  }
}
