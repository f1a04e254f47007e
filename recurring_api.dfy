/** The recurring-expense endpoints (src/api/recurring-expense.ts): URLs,
    the user scoping taken from the token, and the failure messages. */
module RecurringApi {
  import opened Wrappers
  import Text
  import Http

  datatype Call =
    | List | Active | Create
    | Get(id: int) | Update(id: int) | Delete(id: int) | Activate(id: int) | Deactivate(id: int)

  predicate ById(c: Call) {
    c.Get? || c.Update? || c.Delete? || c.Activate? || c.Deactivate?
  }

  const Base: string := "/api/recurring-expenses"

  /** What follows the id in a by-id URL. */
  function Action(c: Call): string {
    match c
    case Activate(_) => "/activate"
    case Deactivate(_) => "/deactivate"
    case _ => ""
  }

  /** The URL each call requests; only the list, active and create calls
      carry the user id. */
  function Url(c: Call, userId: Option<int>): string {
    match c
    case List => Base + Http.UserQuery(userId)
    case Active => Base + "/active" + Http.UserQuery(userId)
    case Create => Base + Http.UserQuery(userId)
    case _ => Base + "/" + Text.IntToString(c.id) + Action(c)
  }

  function Fallback(c: Call): string {
    match c
    case List => "Failed to load recurring expenses"
    case Active => "Failed to load active recurring expenses"
    case Create => "Failed to create recurring expense"
    case Get(_) => "Failed to load recurring expense"
    case Update(_) => "Failed to update recurring expense"
    case Delete(_) => "Failed to delete recurring expense"
    case Activate(_) => "Failed to activate recurring expense"
    case Deactivate(_) => "Failed to deactivate recurring expense"
  }

  /** The result of a call: the two list calls throw their fixed message
      whatever the body says; the others report the server's `error`, else
      their fallback. */
  function Outcome<T>(c: Call, r: Http.Response<T>): (o: Result<T, string>)
    ensures (c.List? || c.Active?) && r.NotOk? ==> o == Failure(Fallback(c))
    ensures r.Ok? ==> o == Success(r.value)
    ensures !(c.List? || c.Active?) && r.NotOk? ==> o == Failure(Http.BodyMessage(r.body, Fallback(c)))
    ensures r.Rejected? ==> o == Failure(r.message)
  {
    if c.List? || c.Active? then Http.Fixed(r, Fallback(c)) else Http.Reported(r, Fallback(c))
  }

  /** The list, active and create URLs gain `?user_id=N` exactly when a user
      id was derived; by-id URLs never carry it. */
  lemma UserScoping(c: Call, userId: Option<int>)
    requires c.List? || c.Active? || c.Create?
    ensures Url(c, userId) == Url(c, None) + Http.UserQuery(userId)
    ensures Url(c, userId) == Url(c, None) <==> !Http.HasUser(userId)
  {
    Http.UserQueryReadsBack(userId);
    Http.UserQueryReadsBack(None);
    var q := Http.UserQuery(userId);
    var path := if c.Active? then Base + "/active" else Base;
    assert Url(c, None) == path + "";
    assert Url(c, userId) == path + q;
    if Url(c, userId) == Url(c, None) {
      assert |q| == 0;
    }
  }

  /** A by-id URL is the base, the id in decimal and the action, and the id
      reads back from it. */
  lemma ByIdReadsBack(c: Call, userId: Option<int>)
    requires ById(c)
    ensures var u := Url(c, userId);
      var n := Text.IntToString(c.id);
      && u == Base + "/" + n + Action(c)
      && Text.ParseInt(u[|Base| + 1..|u| - |Action(c)|]) == Some(c.id)
  {
    var u := Url(c, userId);
    assert u[|Base| + 1..|u| - |Action(c)|] == Text.IntToString(c.id);
    Text.IntToStringRoundTrip(c.id);
  }

  /** Activation and deactivation of the same item go to different URLs,
      and neither is the item's own URL. */
  lemma ToggleUrlsDiffer(id: int, userId: Option<int>)
    ensures Url(Activate(id), userId) != Url(Deactivate(id), userId)
    ensures Url(Activate(id), userId) != Url(Get(id), userId)
    ensures Url(Deactivate(id), userId) != Url(Get(id), userId)
  {
    var p := Base + "/" + Text.IntToString(id);
    assert Url(Activate(id), userId) == p + "/activate";
    assert Url(Deactivate(id), userId) == p + "/deactivate";
    assert |Url(Activate(id), userId)| != |Url(Deactivate(id), userId)|;
    assert |Url(Activate(id), userId)| != |Url(Get(id), userId)|;
    assert |Url(Deactivate(id), userId)| != |Url(Get(id), userId)|;
  }
}
