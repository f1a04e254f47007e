/** The budget bar (src/components/BudgetSummary.tsx) and the budget warning
    (src/components/BudgetWarning.tsx), both driven by the spent percentage. */
module BudgetView {
  import opened Wrappers

  /** `normalized`: `Math.min(Math.max(percentage, 0), 100)`. */
  function Normalized(p: real): (n: real)
    ensures 0.0 <= n <= 100.0
    ensures 0.0 <= p <= 100.0 ==> n == p
    ensures p < 0.0 ==> n == 0.0
    ensures p > 100.0 ==> n == 100.0
  {
    var low := if p > 0.0 then p else 0.0;
    if low < 100.0 then low else 100.0
  }

  /** `safePercentage`: the same clamp with a ceiling of 150. */
  function SafePercentage(p: real): (n: real)
    ensures 0.0 <= n <= 150.0
    ensures 0.0 <= p <= 150.0 ==> n == p
    ensures p < 0.0 ==> n == 0.0
    ensures p > 150.0 ==> n == 150.0
  {
    var low := if p > 0.0 then p else 0.0;
    if low < 150.0 then low else 150.0
  }

  /** Both clamps agree up to 100, and the bar width never exceeds the
      displayed percentage. */
  lemma ClampsAgree(p: real)
    ensures Normalized(p) <= SafePercentage(p)
    ensures p <= 100.0 ==> Normalized(p) == SafePercentage(p)
  {
  }

  /** The three gradients of the bar. */
  datatype BarColor = Red | Amber | Blue

  /** `barColor`. */
  function BarColorOf(p: real): (c: BarColor)
    ensures c == Red <==> p > 100.0
    ensures c == Amber <==> 80.0 < p <= 100.0
    ensures c == Blue <==> p <= 80.0
  {
    if p > 100.0 then Red else if p > 80.0 then Amber else Blue
  }

  datatype Tone = Danger | Warning

  datatype Notice = Notice(tone: Tone, message: string)

  const ExceededLabel: string := "Бюджет превышен"
  const NearLimitLabel: string := "Вы близки к лимиту бюджета"

  /** `BudgetWarning`: nothing below 80, otherwise a tone and its label. */
  function WarningFor(p: real): (w: Option<Notice>)
    ensures w.None? <==> p < 80.0
    ensures w.Some? && p > 100.0 ==> w.value == Notice(Danger, ExceededLabel)
    ensures w.Some? && p <= 100.0 ==> w.value == Notice(Warning, NearLimitLabel)
  {
    if p < 80.0 then None
    else
      var tone := if p > 100.0 then Danger else Warning;
      var message := if p > 100.0 then ExceededLabel else NearLimitLabel;
      Some(Notice(tone, message))
  }

  /** The tone is `danger` exactly when the label says the budget is exceeded. */
  lemma ToneMatchesLabel(p: real)
    requires WarningFor(p).Some?
    ensures WarningFor(p).value.tone == Danger <==> WarningFor(p).value.message == ExceededLabel
  {
    assert ExceededLabel != NearLimitLabel by {
      assert |ExceededLabel| != |NearLimitLabel|;
    }
  }

  /** The warning and the bar colour tell the same story, except at exactly
      80 percent, where the bar is still blue and the warning already shows. */
  lemma WarningMatchesBar(p: real)
    ensures WarningFor(p).Some? && WarningFor(p).value.tone == Danger <==> BarColorOf(p) == Red
    ensures p != 80.0 ==> (WarningFor(p).Some? && WarningFor(p).value.tone == Warning <==> BarColorOf(p) == Amber)
    ensures p != 80.0 ==> (WarningFor(p).None? <==> BarColorOf(p) == Blue)
    ensures BarColorOf(80.0) == Blue && WarningFor(80.0) == Some(Notice(Warning, NearLimitLabel))
  {
  }
}
