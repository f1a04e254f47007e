/** Labels, the form and its submission rules on the recurring-expenses page
    (src/pages/RecurringExpensesPage.tsx). */
module RecurringPage {
  import opened Wrappers
  import opened Domain
  import Text

  /** `typeLabel`. */
  function TypeLabel(t: RecurringType): string {
    match t
    case Daily => "Каждый день"
    case Weekly => "Раз в неделю"
    case Monthly => "Раз в месяц"
    case Yearly => "Раз в год"
  }

  /** The four types carry four different labels. */
  lemma TypeLabelInjective(t: RecurringType, u: RecurringType)
    ensures TypeLabel(t) == TypeLabel(u) <==> t == u
  {
  }

  const Weekdays: seq<string> := ["Пн", "Вт", "Ср", "Чт", "Пт", "Сб", "Вс"]

  /** `Math.min(Math.max(day_of_week - 1, 0), 6)`. */
  function WeekdayIndex(d: int): (k: int)
    ensures 0 <= k <= 6
    ensures 1 <= d <= 7 ==> k == d - 1
    ensures d <= 1 ==> k == 0
    ensures d >= 7 ==> k == 6
  {
    var lowered := if d - 1 < 0 then 0 else d - 1;
    if lowered < 6 then lowered else 6
  }

  /** A qualifier that JavaScript treats as true: present and non-zero. */
  predicate Truthy(q: Option<int>) {
    q.Some? && q.value != 0
  }

  const Fallback: string := "По расписанию"

  /** `scheduleLabel`. */
  function ScheduleLabel(t: RecurringType, dayOfWeek: Option<int>, dayOfMonth: Option<int>): string {
    if t == Weekly && Truthy(dayOfWeek) then
      "Каждую " + Weekdays[WeekdayIndex(dayOfWeek.value)]
    else if t == Monthly && Truthy(dayOfMonth) then
      "Каждое " + Text.IntToString(dayOfMonth.value) + " число"
    else if t == Yearly && Truthy(dayOfMonth) then
      "Ежегодно, день " + Text.IntToString(dayOfMonth.value)
    else Fallback
  }

  /** The weekly label names the clamped weekday: 1 is Monday, 7 is Sunday,
      anything below 1 Monday and anything above 7 Sunday. */
  lemma WeeklyLabel(d: int, dayOfMonth: Option<int>)
    requires d != 0
    ensures ScheduleLabel(Weekly, Some(d), dayOfMonth) == "Каждую " + Weekdays[WeekdayIndex(d)]
    ensures d == 1 ==> ScheduleLabel(Weekly, Some(d), dayOfMonth) == "Каждую Пн"
    ensures d == 7 ==> ScheduleLabel(Weekly, Some(d), dayOfMonth) == "Каждую Вс"
    ensures d < 1 ==> ScheduleLabel(Weekly, Some(d), dayOfMonth) == "Каждую Пн"
    ensures d > 7 ==> ScheduleLabel(Weekly, Some(d), dayOfMonth) == "Каждую Вс"
  {
  }

  /** The monthly and yearly labels spell the day out in decimal, so the day
      can be read back from the label, whatever the other qualifier. */
  lemma DayOfMonthLabels(n: int, m: int, dayOfWeek: Option<int>)
    requires n != 0 && m != 0
    ensures ScheduleLabel(Monthly, dayOfWeek, Some(n)) == "Каждое " + Text.IntToString(n) + " число"
    ensures ScheduleLabel(Yearly, dayOfWeek, Some(n)) == "Ежегодно, день " + Text.IntToString(n)
    ensures ScheduleLabel(Monthly, dayOfWeek, Some(n)) == ScheduleLabel(Monthly, dayOfWeek, Some(m)) ==> n == m
    ensures ScheduleLabel(Yearly, dayOfWeek, Some(n)) == ScheduleLabel(Yearly, dayOfWeek, Some(m)) ==> n == m
  {
    var mn := "Каждое " + Text.IntToString(n) + " число";
    var mm := "Каждое " + Text.IntToString(m) + " число";
    if mn == mm {
      var pre := |"Каждое "|;
      assert Text.IntToString(n) == mn[pre..|mn| - |" число"|];
      assert Text.IntToString(m) == mm[pre..|mm| - |" число"|];
      Text.IntToStringInjective(n, m);
    }
    var yn := "Ежегодно, день " + Text.IntToString(n);
    var ym := "Ежегодно, день " + Text.IntToString(m);
    if yn == ym {
      assert Text.IntToString(n) == yn[|"Ежегодно, день "|..];
      assert Text.IntToString(m) == ym[|"Ежегодно, день "|..];
      Text.IntToStringInjective(n, m);
    }
  }

  /** The fallback label shows exactly when the type's own qualifier is
      missing or zero, and always for `daily`. */
  lemma FallbackExactly(t: RecurringType, dayOfWeek: Option<int>, dayOfMonth: Option<int>)
    ensures ScheduleLabel(t, dayOfWeek, dayOfMonth) == Fallback <==>
      match t
      case Daily => true
      case Weekly => !Truthy(dayOfWeek)
      case Monthly | Yearly => !Truthy(dayOfMonth)
  {
    if t == Weekly && Truthy(dayOfWeek) {
      var l := ScheduleLabel(t, dayOfWeek, dayOfMonth);
      assert l[0] == 'К' && Fallback[0] == 'П';
    } else if t == Monthly && Truthy(dayOfMonth) {
      var l := ScheduleLabel(t, dayOfWeek, dayOfMonth);
      assert l[0] == 'К' && Fallback[0] == 'П';
    } else if t == Yearly && Truthy(dayOfMonth) {
      var l := ScheduleLabel(t, dayOfWeek, dayOfMonth);
      assert l[0] == 'Е' && Fallback[0] == 'П';
    }
  }

  /** The category select: the empty option, or a chosen category id. */
  datatype CategoryChoice = NoCategory | CategoryId(id: int)

  /** `FormState`; the amount stays the text typed into the field. */
  datatype FormState = FormState(
    category: CategoryChoice,
    amount: string,
    description: string,
    kind: RecurringType,
    dayOfMonth: Option<int>,
    dayOfWeek: Option<int>)

  /** `DEFAULT_FORM`. */
  const DefaultForm := FormState(NoCategory, "", "", Monthly, Some(1), Some(1))

  /** What is sent: the amount text goes to `parseFloat`, outside this model. */
  datatype Payload = Payload(
    category_id: int,
    amountText: string,
    description: string,
    kind: RecurringType,
    day_of_month: Option<int>,
    day_of_week: Option<int>)

  datatype SubmitAction = Skip | Create(payload: Payload) | Update(id: int, payload: Payload)

  /** Keeps `day_of_month` only for monthly and yearly types. */
  function MonthQualifier(t: RecurringType, q: Option<int>): Option<int> {
    if t == Monthly || t == Yearly then q else None
  }

  /** Keeps `day_of_week` only for the weekly type. */
  function WeekQualifier(t: RecurringType, q: Option<int>): Option<int> {
    if t == Weekly then q else None
  }

  function PayloadOf(f: FormState, categoryId: int): Payload {
    Payload(categoryId, f.amount, f.description, f.kind,
      MonthQualifier(f.kind, f.dayOfMonth), WeekQualifier(f.kind, f.dayOfWeek))
  }

  /** `handleSubmit` up to the request: nothing without a (non-zero) category;
      an update of `editingId` when it is truthy; a creation otherwise. */
  function Submit(f: FormState, editingId: Option<int>): (a: SubmitAction)
    ensures a.Skip? <==> f.category.NoCategory? || f.category.id == 0
    ensures a.Update? <==> !a.Skip? && Truthy(editingId)
    ensures a.Update? ==> a.id == editingId.value
    ensures !a.Skip? ==>
      a.payload.category_id == f.category.id && a.payload.amountText == f.amount
      && a.payload.description == f.description && a.payload.kind == f.kind
    ensures !a.Skip? ==> (a.payload.day_of_month.Some? ==> f.kind == Monthly || f.kind == Yearly)
    ensures !a.Skip? ==> (a.payload.day_of_week.Some? ==> f.kind == Weekly)
    ensures !a.Skip? && (f.kind == Monthly || f.kind == Yearly) ==> a.payload.day_of_month == f.dayOfMonth
    ensures !a.Skip? && f.kind == Weekly ==> a.payload.day_of_week == f.dayOfWeek
  {
    if f.category.NoCategory? || f.category.id == 0 then Skip
    else if Truthy(editingId) then Update(editingId.value, PayloadOf(f, f.category.id))
    else Create(PayloadOf(f, f.category.id))
  }

  /** The type select: switch the type, keep (or default to 1) the qualifier
      the new type uses, and clear the other one. */
  function ChangeType(f: FormState, t: RecurringType): (g: FormState)
    ensures g.kind == t
    ensures g.category == f.category && g.amount == f.amount && g.description == f.description
    ensures t == Weekly ==> g.dayOfWeek == Some(f.dayOfWeek.GetOr(1)) && g.dayOfMonth == None
    ensures (t == Monthly || t == Yearly) ==> g.dayOfMonth == Some(f.dayOfMonth.GetOr(1)) && g.dayOfWeek == None
    ensures t == Daily ==> g.dayOfWeek == None && g.dayOfMonth == None
  {
    f.(kind := t,
       dayOfWeek := if t == Weekly then Some(f.dayOfWeek.GetOr(1)) else None,
       dayOfMonth := if t == Monthly || t == Yearly then Some(f.dayOfMonth.GetOr(1)) else None)
  }

  /** Choosing the same type twice is choosing it once. */
  lemma ChangeTypeIdempotent(f: FormState, t: RecurringType)
    ensures ChangeType(ChangeType(f, t), t) == ChangeType(f, t)
  {
  }

  /** After a type change the form holds exactly the qualifiers the type
      uses, so a submission sends the form's qualifiers unchanged, and the
      one the type needs is always present. */
  lemma ChangeTypeThenSubmit(f: FormState, t: RecurringType, editingId: Option<int>)
    requires f.category.CategoryId? && f.category.id != 0
    ensures var g := ChangeType(f, t);
      var a := Submit(g, editingId);
      && a.payload.day_of_month == g.dayOfMonth
      && a.payload.day_of_week == g.dayOfWeek
      && (t == Weekly ==> a.payload.day_of_week.Some?)
      && (t == Monthly || t == Yearly ==> a.payload.day_of_month.Some?)
  {
  }

  /** The default form cannot be submitted, and is a monthly form on day 1. */
  lemma DefaultFormSkips(editingId: Option<int>)
    ensures Submit(DefaultForm, editingId) == Skip
    ensures ScheduleLabel(DefaultForm.kind, DefaultForm.dayOfWeek, DefaultForm.dayOfMonth) == "Каждое 1 число"
  {
    assert Text.IntToString(1) == "1";
  }
}
