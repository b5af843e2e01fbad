/**
 * The password-strength meter on the registration form: four criteria are checked in a fixed
 * order, each one met adds a point and each one missed adds a hint; four bars then show the
 * score, coloured by how strong the password is.
 */
module RegisterForm {
  import opened JsText
  import Validations

  const LengthHint := "Pelo menos 6 caracteres"
  const LowerHint := "Uma letra minúscula"
  const UpperHint := "Uma letra maiúscula"
  const DigitHint := "Um número"

  /** The hints, in the order the criteria are checked. */
  const Hints := [LengthHint, LowerHint, UpperHint, DigitHint]

  /** Whether `pwd` meets each criterion: at least 6 code units, a lower-case letter, an upper-case letter, a digit. */
  function Criteria(pwd: string): (met: seq<bool>)
    ensures |met| == |Hints|
  {
    [JsLength(pwd) >= 6, HasLower(pwd), HasUpper(pwd), HasDigit(pwd)]
  }

  /** The point and the hint of one criterion. */
  function Point(b: bool): nat { if b then 1 else 0 }
  function Hint(b: bool, h: string): seq<string> { if b then [] else [h] }

  /** How many criteria are met. */
  function CountMet(met: seq<bool>): nat
  {
    if met == [] then 0 else Point(met[0]) + CountMet(met[1..])
  }

  /** The hints of the criteria not met, in order. */
  function Missing(met: seq<bool>, hints: seq<string>): seq<string>
    requires |met| == |hints|
  {
    if met == [] then [] else Hint(met[0], hints[0]) + Missing(met[1..], hints[1..])
  }

  lemma Unfold4(met: seq<bool>, hints: seq<string>)
    requires |met| == 4 && |hints| == 4
    ensures CountMet(met) == Point(met[0]) + Point(met[1]) + Point(met[2]) + Point(met[3])
    ensures Missing(met, hints) == Hint(met[0], hints[0]) + Hint(met[1], hints[1]) + Hint(met[2], hints[2]) + Hint(met[3], hints[3])
  {
    var m1, m2, m3 := met[1..], met[1..][1..], met[1..][1..][1..];
    var h1, h2, h3 := hints[1..], hints[1..][1..], hints[1..][1..][1..];
    assert m3[1..] == [] && h3[1..] == [];
    assert m1[0] == met[1] && m2[0] == met[2] && m3[0] == met[3];
    assert h1[0] == hints[1] && h2[0] == hints[2] && h3[0] == hints[3];
    assert CountMet(m3) == Point(met[3]) && Missing(m3, h3) == Hint(met[3], hints[3]);
    assert CountMet(m2) == Point(met[2]) + Point(met[3]);
    assert Missing(m2, h2) == Hint(met[2], hints[2]) + Hint(met[3], hints[3]);
    assert Missing(m1, h1) == Hint(met[1], hints[1]) + (Hint(met[2], hints[2]) + Hint(met[3], hints[3]));
  }

  /** Every criterion either scores or leaves a hint. */
  lemma {:induction false} ScorePlusHints(met: seq<bool>, hints: seq<string>)
    requires |met| == |hints|
    ensures CountMet(met) + |Missing(met, hints)| == |met|
  {
    if met != [] {
      ScorePlusHints(met[1..], hints[1..]);
    }
  }

  /** With distinct hints, a hint is shown exactly when its criterion fails. */
  lemma {:induction false} HintShownIff(met: seq<bool>, hints: seq<string>, i: nat)
    requires |met| == |hints| && i < |met|
    requires forall j, k :: 0 <= j < k < |hints| ==> hints[j] != hints[k]
    ensures hints[i] in Missing(met, hints) <==> !met[i]
  {
    if i == 0 {
      NotInMissing(met[1..], hints[1..], hints[0]);
    } else {
      HintShownIff(met[1..], hints[1..], i - 1);
      assert hints[i] == hints[1..][i - 1];
    }
  }

  lemma {:induction false} NotInMissing(met: seq<bool>, hints: seq<string>, h: string)
    requires |met| == |hints|
    requires forall j :: 0 <= j < |hints| ==> hints[j] != h
    ensures h !in Missing(met, hints)
  {
    if met != [] {
      NotInMissing(met[1..], hints[1..], h);
    }
  }

  lemma HintsDistinct()
    ensures forall j, k :: 0 <= j < k < |Hints| ==> Hints[j] != Hints[k]
  {
    assert LengthHint[0] != LowerHint[0] && LengthHint[0] != UpperHint[0] && LengthHint[0] != DigitHint[0];
    assert LowerHint[11] != UpperHint[11];
    assert LowerHint[4] != DigitHint[4] && UpperHint[4] != DigitHint[4];
  }

  /**
   * `getPasswordStrength`: the empty password scores 0 with no hints; any other scores one point
   * per criterion met and lists the hints of the others, in the order the criteria are checked.
   */
  method GetPasswordStrength(pwd: string) returns (score: nat, feedback: seq<string>)
    ensures pwd == "" ==> score == 0 && feedback == []
    ensures pwd != "" ==> score == CountMet(Criteria(pwd)) && feedback == Missing(Criteria(pwd), Hints)
    ensures score <= 4
    ensures pwd != "" ==> score + |feedback| == 4
    ensures pwd != "" ==> forall i :: 0 <= i < 4 ==> (Hints[i] in feedback <==> !Criteria(pwd)[i])
  {
    if pwd == "" {
      return 0, [];
    }
    feedback, score := [], 0;
    ghost var met := Criteria(pwd);

    if JsLength(pwd) >= 6 { score := score + 1; } else { feedback := feedback + [LengthHint]; }
    assert score == Point(met[0]) && feedback == Hint(met[0], Hints[0]);
    if HasLower(pwd) { score := score + 1; } else { feedback := feedback + [LowerHint]; }
    assert score == Point(met[0]) + Point(met[1]);
    assert feedback == Hint(met[0], Hints[0]) + Hint(met[1], Hints[1]);
    if HasUpper(pwd) { score := score + 1; } else { feedback := feedback + [UpperHint]; }
    assert score == Point(met[0]) + Point(met[1]) + Point(met[2]);
    assert feedback == Hint(met[0], Hints[0]) + Hint(met[1], Hints[1]) + Hint(met[2], Hints[2]);
    if HasDigit(pwd) { score := score + 1; } else { feedback := feedback + [DigitHint]; }
    assert score == Point(met[0]) + Point(met[1]) + Point(met[2]) + Point(met[3]);
    assert feedback == Hint(met[0], Hints[0]) + Hint(met[1], Hints[1]) + Hint(met[2], Hints[2]) + Hint(met[3], Hints[3]);

    Unfold4(met, Hints);
    ScorePlusHints(met, Hints);
    HintsDistinct();
    forall i | 0 <= i < 4 ensures Hints[i] in feedback <==> !met[i] {
      HintShownIff(met, Hints, i);
    }
  }

  /** A password the registration schema accepts fills all four bars. */
  lemma AcceptedPasswordIsStrong(pwd: string)
    requires Validations.RegisterPasswordIssues(pwd) == []
    ensures pwd != "" && CountMet(Criteria(pwd)) == 4 && Missing(Criteria(pwd), Hints) == []
  {
    Unfold4(Criteria(pwd), Hints);
  }

  const Gray := "bg-gray-200"
  const Green := "bg-green-500"
  const Yellow := "bg-yellow-500"
  const Red := "bg-red-500"

  /** `getBarColor(level)` for a meter showing `score`. */
  function BarColor(score: int, level: int): (c: string)
    ensures c == Gray <==> score < level
    ensures score >= level ==> c == Strength(score)
  {
    assert Gray[5] != Green[5] && Gray[3] != Yellow[3] && Gray[3] != Red[3];
    if score < level then Gray
    else if score == 4 then Green
    else if score >= 3 then Yellow
    else Red
  }

  /** The four bars, for levels 1 to 4. */
  function Bars(score: int): seq<string>
  {
    [BarColor(score, 1), BarColor(score, 2), BarColor(score, 3), BarColor(score, 4)]
  }

  /** The colour of the lit bars: green at full strength, yellow at three, red below. */
  function Strength(score: int): string
  {
    if score == 4 then Green else if score >= 3 then Yellow else Red
  }

  /** The meter lights exactly the first `score` bars, all in the colour of the score. */
  lemma BarsShowScore(score: int)
    requires 0 <= score <= 4
    ensures forall i :: 0 <= i < |Bars(score)| ==> Bars(score)[i] == if i < score then Strength(score) else Gray
    ensures Strength(score) != Gray
  {
    assert Gray[5] != Green[5] && Gray[3] != Yellow[3] && Gray[3] != Red[3];
  }
}
