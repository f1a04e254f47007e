/** The budget endpoints (src/api/budget.ts): URLs, the user scoping taken
    from the token, and the message each call throws on failure. */
module BudgetApi {
  import opened Wrappers
  import opened Domain
  import Text
  import Http

  datatype Call = List | Get(id: int) | Current | Create | Update(id: int) | Delete(id: int)

  const NoUserMessage: string := "User ID not found in token"

  /** The URL a call requests with the derived `userId`, or the error
      `createBudget` throws before any request when there is none. */
  function Url(c: Call, userId: Option<int>): (u: Result<string, string>)
    ensures c.Create? ==> (u.Failure? <==> !Http.HasUser(userId))
    ensures !c.Create? ==> u.Success?
  {
    match c
    case List => Success("/api/budgets" + Http.UserQuery(userId))
    case Current => Success("/api/budgets/current")
    case Create =>
      if !Http.HasUser(userId) then Failure(NoUserMessage)
      else Success("/api/budgets?user_id=" + Text.IntToString(userId.value))
    case Get(id) => Success("/api/budgets/" + Text.IntToString(id))
    case Update(id) => Success("/api/budgets/" + Text.IntToString(id))
    case Delete(id) => Success("/api/budgets/" + Text.IntToString(id))
  }

  function Fallback(c: Call): string {
    match c
    case List => "Failed to load budgets"
    case Get(_) => "Failed to load budget"
    case Current => "No budget"
    case Create => "Failed to create budget"
    case Update(_) => "Failed to update budget"
    case Delete(_) => "Failed to delete budget"
  }

  /** The result of a call: the list and current-budget calls throw their
      fixed message, the others the server's `error` or their fallback, and
      a creation without a user id fails before the response is looked at. */
  function Outcome<T>(c: Call, userId: Option<int>, r: Http.Response<T>): (o: Result<T, string>)
    ensures c.Create? && !Http.HasUser(userId) ==> o == Failure(NoUserMessage)
    ensures (c.List? || c.Current?) && r.NotOk? ==> o == Failure(Fallback(c))
    ensures !(c.List? || c.Current?) && (!c.Create? || Http.HasUser(userId)) && r.NotOk? ==>
      o == Failure(Http.BodyMessage(r.body, Fallback(c)))
    ensures (!c.Create? || Http.HasUser(userId)) && r.Rejected? ==> o == Failure(r.message)
    ensures (!c.Create? || Http.HasUser(userId)) && r.Ok? ==> o == Success(r.value)
  {
    match Url(c, userId)
    case Failure(e) => Failure(e)
    case Success(_) =>
      if c.List? || c.Current? then Http.Fixed(r, Fallback(c)) else Http.Reported(r, Fallback(c))
  }

  /** The list URL is scoped to the user exactly when a user id was derived,
      and the creation URL always is. */
  lemma UserScoping(userId: Option<int>)
    ensures Url(List, userId).value == "/api/budgets" <==> !Http.HasUser(userId)
    ensures Http.HasUser(userId) ==>
      && Url(List, userId) == Url(Create, userId)
      && Url(Create, userId).value == "/api/budgets" + Http.UserQuery(userId)
  {
    Http.UserQueryReadsBack(userId);
    var q := Http.UserQuery(userId);
    assert Url(List, userId).value == "/api/budgets" + q;
    if Url(List, userId).value == "/api/budgets" {
      assert |q| == 0;
    }
    if Http.HasUser(userId) {
      assert q == "?user_id=" + Text.IntToString(userId.value);
      assert "/api/budgets" + q == "/api/budgets?user_id=" + Text.IntToString(userId.value);
    }
  }

  /** `fetchCurrentBudget` does not read the token: its request and its
      result are the same whatever user id was derived, and a failed status
      gives "No budget" whatever the error body. */
  lemma CurrentBudgetShape(u1: Option<int>, u2: Option<int>, r: Http.Response<CurrentBudget>, b: Http.ErrorBody)
    ensures Url(Current, u1) == Url(Current, u2)
    ensures Outcome(Current, u1, r) == Outcome(Current, u2, r)
    ensures Outcome(Current, u1, Http.Response<CurrentBudget>.NotOk(b)) == Failure("No budget")
  {
  }

  /** A by-id URL names its budget: the id reads back from the path. */
  lemma ByIdReadsBack(c: Call, userId: Option<int>)
    requires c.Get? || c.Update? || c.Delete?
    ensures Url(c, userId).value[..|"/api/budgets/"|] == "/api/budgets/"
    ensures Text.ParseInt(Url(c, userId).value[|"/api/budgets/"|..]) == Some(c.id)
  {
    assert Url(c, userId).value[|"/api/budgets/"|..] == Text.IntToString(c.id);
    Text.IntToStringRoundTrip(c.id);
  }
}
