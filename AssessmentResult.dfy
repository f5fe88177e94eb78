/** The result screen: the score read back from the route parameter, its
    severity band and colour, and the record saved for the history. */
module AssessmentResult {
  import opened Wrappers
  import Strings

  /** The five PHQ-9 severity levels, mildest first. */
  datatype Level = Minimal | Mild | Moderate | ModeratelySevere | Severe

  /** The level's name as saved and translated. */
  function LevelName(level: Level): (name: string)
    ensures name in ["none", "mild", "moderate", "moderately_severe", "severe"]
  {
    match level
    case Minimal => "none"
    case Mild => "mild"
    case Moderate => "moderate"
    case ModeratelySevere => "moderately_severe"
    case Severe => "severe"
  }

  /** Different levels are saved under different names. */
  lemma LevelNamesDistinct(a: Level, b: Level)
    requires a != b
    ensures LevelName(a) != LevelName(b)
  {
    assert LevelName(a)[..2] != LevelName(b)[..2] || |LevelName(a)| != |LevelName(b)|;
  }

  function Rank(level: Level): nat
  {
    match level
    case Minimal => 0
    case Mild => 1
    case Moderate => 2
    case ModeratelySevere => 3
    case Severe => 4
  }

  datatype Band = Band(level: Level, color: string)

  /** The colour the result screen shows for a level. */
  function LevelColor(level: Level): string
  {
    match level
    case Minimal => "#4ADE80"
    case Mild => "#FACC15"
    case Moderate => "#FB923C"
    case ModeratelySevere => "#F87171"
    case Severe => "#EF4444"
  }

  /** The banding, with cut-points at 5, 10, 15 and 20. */
  function ResultFor(score: int): (b: Band)
    ensures b.level == Minimal <==> score <= 4
    ensures b.level == Mild <==> 5 <= score <= 9
    ensures b.level == Moderate <==> 10 <= score <= 14
    ensures b.level == ModeratelySevere <==> 15 <= score <= 19
    ensures b.level == Severe <==> score >= 20
    ensures b.color == LevelColor(b.level)
  {
    if score <= 4 then Band(Minimal, "#4ADE80")
    else if score <= 9 then Band(Mild, "#FACC15")
    else if score <= 14 then Band(Moderate, "#FB923C")
    else if score <= 19 then Band(ModeratelySevere, "#F87171")
    else Band(Severe, "#EF4444")
  }

  /** A higher score never gives a milder level. */
  lemma ResultMonotone(a: int, b: int)
    requires a <= b
    ensures Rank(ResultFor(a).level) <= Rank(ResultFor(b).level)
  {
  }

  /** `Number(s)` for the integer forms a route parameter takes: surrounding
      whitespace is ignored, a blank string is 0, an optional sign may
      precede the digits, and anything else is NaN (None). */
  function ParseNumber(s: string): (r: Option<int>)
    ensures Strings.Trim(s) == "" ==> r == Some(0)
    ensures r.Some? && r.value < 0 ==> Strings.Trim(s)[0] == '-'
  {
    var t := Strings.Trim(s);
    if t == "" then Some(0)
    else if (t[0] == '-' || t[0] == '+') && |t| > 1 && Strings.AllDigits(t[1..]) then
      var magnitude: int := Strings.DigitsValue(t[1..]);
      Some(if t[0] == '-' then -magnitude else magnitude)
    else if Strings.AllDigits(t) then Some(Strings.DigitsValue(t))
    else None
  }

  /** `Number(s)` is NaN exactly when the trimmed text is not blank and
      holds a character that is not a digit, other than a sign in front of
      at least one more character. So "12abc", "-" and "1 2" are NaN. */
  lemma ParseNumberNaN(s: string)
    ensures var t := Strings.Trim(s);
      ParseNumber(s).None? <==>
        t != "" && exists i :: 0 <= i < |t| && !Strings.IsDigit(t[i]) && !(i == 0 && |t| > 1 && (t[0] == '-' || t[0] == '+'))
  {
    var t := Strings.Trim(s);
    if t != "" {
      var signed := (t[0] == '-' || t[0] == '+') && |t| > 1;
      if signed && Strings.AllDigits(t[1..]) {
        forall i | 0 < i < |t|
          ensures Strings.IsDigit(t[i])
        {
          assert t[i] == t[1..][i - 1];
        }
      } else if !Strings.AllDigits(t) {
        if signed {
          var j :| 0 <= j < |t[1..]| && !Strings.IsDigit(t[1..][j]);
          assert !Strings.IsDigit(t[j + 1]);
        } else if t[0] == '-' || t[0] == '+' {
          assert !Strings.IsDigit(t[0]);
        } else {
          var i :| 0 <= i < |t| && !Strings.IsDigit(t[i]);
          assert !(i == 0 && signed);
        }
      }
    }
  }

  /** `Number(params.score) || 0`: a missing or non-numeric parameter is 0. */
  function ScoreOf(param: Option<string>): (score: int)
    ensures param.None? ==> score == 0
    ensures param.Some? && ParseNumber(param.value).None? ==> score == 0
    ensures param.Some? && ParseNumber(param.value).Some? ==> score == ParseNumber(param.value).value
  {
    if param.None? then 0
    else match ParseNumber(param.value)
      case None => 0
      case Some(n) => n
  }

  /** A missing or unreadable score shows the mildest level. */
  lemma UnreadableScoreIsMinimal(param: Option<string>)
    requires param.None? || ParseNumber(param.value).None?
    ensures ResultFor(ScoreOf(param)).level == Minimal
  {
  }

  /** A run of digits reads as its value. */
  lemma DigitsParse(d: string)
    requires d != [] && Strings.AllDigits(d)
    ensures ParseNumber(d) == Some(Strings.DigitsValue(d) as int)
  {
    assert forall i :: 0 <= i < |d| ==> !Strings.IsSpace(d[i]);
    Strings.TrimNoSpace(d);
  }

  /** A minus sign and a run of digits read as the negated value. */
  lemma NegativeDigitsParse(d: string)
    requires d != [] && Strings.AllDigits(d)
    ensures ParseNumber("-" + d) == Some(-(Strings.DigitsValue(d) as int))
  {
    var m := "-" + d;
    forall i | 0 <= i < |m|
      ensures !Strings.IsSpace(m[i])
    {
      if i > 0 {
        assert m[i] == d[i - 1];
      }
    }
    Strings.TrimNoSpace(m);
    assert m[1..] == d;
  }

  /** The score the questionnaire passes on (as its decimal text) is read
      back unchanged. */
  lemma ScoreRoundTrip(n: int)
    ensures ScoreOf(Some(Strings.IntToString(n))) == n
  {
    var k: nat := if n < 0 then -n else n;
    Strings.DigitsValueOfNatToString(k);
    if n < 0 {
      NegativeDigitsParse(Strings.NatToString(k));
    } else {
      DigitsParse(Strings.NatToString(k));
    }
  }

  /** What `createAssessment` receives. */
  datatype Assessment = Assessment(assessmentType: string, score: int, level: string)

  /** The save effect: nothing is saved without a type; otherwise the saved
      level is the one displayed. */
  function SaveRequest(score: int, assessmentType: Option<string>): (r: Option<Assessment>)
    ensures r.None? <==> assessmentType.None? || assessmentType.value == ""
    ensures r.Some? ==> r.value.assessmentType == assessmentType.value && r.value.score == score
    ensures r.Some? ==> r.value.level == LevelName(ResultFor(score).level)
  {
    if assessmentType.None? || assessmentType.value == "" then None
    else Some(Assessment(assessmentType.value, score, LevelName(ResultFor(score).level)))
  }
}
