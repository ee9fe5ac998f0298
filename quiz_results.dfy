/**
 * The end-of-quiz screen, in its two versions: the current one (with a
 * difficulty badge and a way back to the list) and the older one under
 * `src/`, whose only action is to restart. Both show a pass or warning
 * icon, three award icons, the score, the rounded percentage and the
 * performance message they are given.
 */
module QuizResults {
  import opened Base
  import opened Text
  import opened Percent
  import opened CatalogueCommon

  /** What the screen is given. */
  datatype Props = Props(score: nat, totalQuestions: nat, passingScore: int, stars: int, message: string)

  /** The check icon shows when `score >= passingScore * totalQuestions / 100`, stated without division. */
  predicate Passed(score: nat, total: nat, passingScore: int)
  {
    100 * score >= passingScore * total
  }

  /** The pass rule is a share of the questions: scaling the score and the question count by the same factor keeps the verdict. */
  lemma PassedScales(score: nat, total: nat, passingScore: int, k: nat)
    requires k > 0
    ensures Passed(score, total, passingScore) <==> Passed(k * score, k * total, passingScore)
  {
    assert 100 * (k * score) == k * (100 * score);
    assert passingScore * (k * total) == k * (passingScore * total);
    if Passed(score, total, passingScore) {
      MulMonotone(passingScore * total, 100 * score, k);
    } else {
      MulMonotone(100 * score + 1, passingScore * total, k);
    }
  }

  /** A better score never turns a pass into a fail. */
  lemma PassedMonotone(a: nat, b: nat, total: nat, passingScore: int)
    requires a <= b && Passed(a, total, passingScore)
    ensures Passed(b, total, passingScore)
  {
  }

  /** With a passing score of 100% only a full score passes; with 0% everything passes. */
  lemma PassedExtremes(score: nat, total: nat)
    requires score <= total
    ensures Passed(score, total, 100) <==> score == total
    ensures Passed(score, total, 0)
  {
  }

  /** `[...Array(3)]`: icon `i` is lit when `i < stars`. */
  function AwardIcons(stars: int): (lit: seq<bool>)
    ensures |lit| == 3
    ensures forall i :: 0 <= i < 3 ==> (lit[i] <==> i < stars)
  {
    seq(3, i requires 0 <= i < 3 => i < stars)
  }

  function CountLit(icons: seq<bool>): (n: nat)
    ensures n <= |icons|
  {
    if icons == [] then 0 else (if icons[0] then 1 else 0) + CountLit(icons[1..])
  }

  /** The lit icons come first, and there are `stars` of them, clamped to 0..3. */
  lemma AwardIconsLitPrefix(stars: int)
    ensures forall i, j :: 0 <= i <= j < 3 && AwardIcons(stars)[j] ==> AwardIcons(stars)[i]
    ensures CountLit(AwardIcons(stars)) == if stars < 0 then 0 else if stars > 3 then 3 else stars
  {
    var lit := AwardIcons(stars);
    assert CountLit(lit[2..]) == if lit[2] then 1 else 0 by {
      assert lit[2..][1..] == [];
    }
    assert lit[1..][1..] == lit[2..];
    assert CountLit(lit) == (if lit[0] then 1 else 0) + (if lit[1] then 1 else 0) + CountLit(lit[2..]);
  }

  /** The badge of the current screen. */
  function Badge(d: Difficulty): string
  {
    match d
    case Easy => "Mode Facile"
    case Medium => "Mode Intermédiaire"
    case Hard => "Mode Difficile"
  }

  /** Each difficulty has its own badge. */
  lemma BadgeInjective(a: Difficulty, b: Difficulty)
    requires Badge(a) == Badge(b)
    ensures a == b
  {
  }

  /** What a button does: call the parent's `onRestart`, or push a route. */
  datatype Action = CallRestart | Navigate(url: string)

  /** The rendered screen, as far as it carries information. */
  datatype View = View(
    badge: Option<string>,
    passed: bool,
    icons: seq<bool>,
    scoreText: string,
    percent: Percent,
    message: string,
    actions: seq<Action>)

  function ScoreText(p: Props): string
  {
    IntToString(p.score) + "/" + IntToString(p.totalQuestions)
  }

  /** The current screen: badge, icons, figures, message, "Recommencer le Quiz" and "Retour à la liste des quiz". */
  function CurrentView(p: Props, d: Difficulty): (v: View)
    ensures v.badge == Some(Badge(d))
    ensures v.passed <==> Passed(p.score, p.totalQuestions, p.passingScore)
    ensures v.icons == AwardIcons(p.stars) && v.message == p.message
    ensures v.scoreText == ScoreText(p)
    ensures v.percent == RoundedPercent(p.score, p.totalQuestions)
    ensures v.actions == [CallRestart, Navigate("/quiz")]
  {
    View(Some(Badge(d)), Passed(p.score, p.totalQuestions, p.passingScore), AwardIcons(p.stars),
         ScoreText(p), RoundedPercent(p.score, p.totalQuestions), p.message, [CallRestart, Navigate("/quiz")])
  }

  /** The older screen: no badge, and restarting is the only action. */
  function LegacyView(p: Props): (v: View)
    ensures v.badge == None
    ensures v.passed <==> Passed(p.score, p.totalQuestions, p.passingScore)
    ensures v.icons == AwardIcons(p.stars) && v.message == p.message
    ensures v.scoreText == ScoreText(p)
    ensures v.percent == RoundedPercent(p.score, p.totalQuestions)
    ensures v.actions == [CallRestart]
  {
    View(None, Passed(p.score, p.totalQuestions, p.passingScore), AwardIcons(p.stars),
         ScoreText(p), RoundedPercent(p.score, p.totalQuestions), p.message, [CallRestart])
  }

  /** The two versions show the same verdict, icons, figures and message; they differ only in the badge and the way back to the list. */
  lemma ViewsAgree(p: Props, d: Difficulty)
    ensures var (a, b) := (CurrentView(p, d), LegacyView(p));
      a.(badge := None, actions := [CallRestart]) == b
    ensures forall k :: 0 <= k < |LegacyView(p).actions| ==> LegacyView(p).actions[k] == CallRestart
  {
  }

  /** A finished quiz with at least one question shows a percentage between 0 and 100; an empty one shows `NaN%`. */
  lemma ShownPercent(p: Props, d: Difficulty)
    requires p.score <= p.totalQuestions
    ensures p.totalQuestions > 0 ==> 0 <= CurrentView(p, d).percent.n <= 100
    ensures p.totalQuestions == 0 ==> PercentText(CurrentView(p, d).percent) == "NaN%"
  {
    if p.totalQuestions > 0 {
      PercentBounds(p.score, p.totalQuestions);
    }
  }
}
