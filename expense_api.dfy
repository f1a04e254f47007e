/** The expense endpoints (src/api/expense.ts): the query string of the list
    call, the by-id URLs, and the message each call throws on failure. */
module ExpenseApi {
  import opened Wrappers
  import Text
  import Query
  import Http
  import Seqs

  /** `ExpenseFilter`: every field optional; dates stay strings. */
  datatype ExpenseFilter = ExpenseFilter(
    category_id: Option<int>,
    start_date: Option<string>,
    end_date: Option<string>,
    limit: Option<int>,
    offset: Option<int>)

  predicate TruthyNumber(o: Option<int>) {
    o.Some? && o.value != 0
  }

  predicate TruthyText(o: Option<string>) {
    o.Some? && o.value != ""
  }

  /** The fields `fetchExpenses` may send. */
  datatype Key = CategoryId | StartDate | EndDate | Limit | Offset

  /** The order in which it appends them. */
  const Order: seq<Key> := [CategoryId, StartDate, EndDate, Limit, Offset]

  function Name(k: Key): string {
    match k
    case CategoryId => "category_id"
    case StartDate => "start_date"
    case EndDate => "end_date"
    case Limit => "limit"
    case Offset => "offset"
  }

  lemma NameInjective(k: Key, l: Key)
    ensures Name(k) == Name(l) <==> k == l
  {
    if Name(k) == Name(l) {
      assert |Name(k)| == |Name(l)|;
    }
  }

  /** Whether the field is truthy, so that it gets appended. */
  predicate Present(f: ExpenseFilter, k: Key) {
    match k
    case CategoryId => TruthyNumber(f.category_id)
    case StartDate => TruthyText(f.start_date)
    case EndDate => TruthyText(f.end_date)
    case Limit => TruthyNumber(f.limit)
    case Offset => TruthyNumber(f.offset)
  }

  /** The text appended for a field: `toString()` of a number, a date as is. */
  function ValueFor(f: ExpenseFilter, k: Key): string {
    match k
    case CategoryId => Text.IntToString(f.category_id.GetOr(0))
    case StartDate => f.start_date.GetOr("")
    case EndDate => f.end_date.GetOr("")
    case Limit => Text.IntToString(f.limit.GetOr(0))
    case Offset => Text.IntToString(f.offset.GetOr(0))
  }

  /** One conditional `params.append(name, value)`. */
  function AppendIf(f: ExpenseFilter, k: Key): seq<Query.Param> {
    if Present(f, k) then [(Name(k), ValueFor(f, k))] else []
  }

  /** The parameters `fetchExpenses(filter)` appends, in order. */
  function Params(filter: Option<ExpenseFilter>): seq<Query.Param> {
    match filter
    case None => []
    case Some(f) =>
      AppendIf(f, CategoryId) + AppendIf(f, StartDate) + AppendIf(f, EndDate)
        + AppendIf(f, Limit) + AppendIf(f, Offset)
  }

  /** The URL of `fetchExpenses(filter)`. */
  function ExpensesUrl(filter: Option<ExpenseFilter>): string {
    var q := Query.Encode(Params(filter));
    "/api/expenses" + (if q != "" then "?" + q else "")
  }

  /** `fetchExpenses` up to the request: a fresh `URLSearchParams`, one
      conditional `append` per field, then the URL template. */
  method BuildExpensesUrl(filter: Option<ExpenseFilter>) returns (url: string)
    ensures url == ExpensesUrl(filter)
  {
    var params: seq<Query.Param> := [];
    match filter {
      case None =>
      case Some(f) =>
        if TruthyNumber(f.category_id) {
          params := params + [("category_id", Text.IntToString(f.category_id.value))];
        }
        assert params == AppendIf(f, CategoryId);
        if TruthyText(f.start_date) {
          params := params + [("start_date", f.start_date.value)];
        }
        assert params == AppendIf(f, CategoryId) + AppendIf(f, StartDate);
        if TruthyText(f.end_date) {
          params := params + [("end_date", f.end_date.value)];
        }
        assert params == AppendIf(f, CategoryId) + AppendIf(f, StartDate) + AppendIf(f, EndDate);
        if TruthyNumber(f.limit) {
          params := params + [("limit", Text.IntToString(f.limit.value))];
        }
        assert params == AppendIf(f, CategoryId) + AppendIf(f, StartDate) + AppendIf(f, EndDate)
          + AppendIf(f, Limit);
        if TruthyNumber(f.offset) {
          params := params + [("offset", Text.IntToString(f.offset.value))];
        }
        assert params == Params(filter);
    }
    var q := Query.Encode(params);
    url := "/api/expenses" + (if q != "" then "?" + q else "");
  }

  /** The `(name, value)` pairs of the given fields, in the given order. */
  function Pairs(f: ExpenseFilter, ks: seq<Key>): seq<Query.Param> {
    if ks == [] then [] else [(Name(ks[0]), ValueFor(f, ks[0]))] + Pairs(f, ks[1..])
  }

  lemma {:induction false} PairsAppend(f: ExpenseFilter, a: seq<Key>, b: seq<Key>)
    ensures Pairs(f, a + b) == Pairs(f, a) + Pairs(f, b)
  {
    if a == [] {
      assert a + b == b;
    } else {
      assert (a + b)[0] == a[0];
      assert (a + b)[1..] == a[1..] + b;
      PairsAppend(f, a[1..], b);
    }
  }

  /** The fields `fetchExpenses` sends: the truthy ones, in the fixed order. */
  function Sent(f: ExpenseFilter): seq<Key> {
    Seqs.Filter(Order, Sends(f))
  }

  function Sends(f: ExpenseFilter): Key -> bool {
    (k: Key) => Present(f, k)
  }

  function IfPresent(f: ExpenseFilter, k: Key): seq<Key> {
    if Present(f, k) then [k] else []
  }

  lemma SentUnfolds(f: ExpenseFilter)
    ensures Sent(f) == IfPresent(f, CategoryId) + (IfPresent(f, StartDate) + (IfPresent(f, EndDate)
      + (IfPresent(f, Limit) + IfPresent(f, Offset))))
  {
    var p := Sends(f);
    var s4 := [Offset];
    var s3 := [Limit] + s4;
    var s2 := [EndDate] + s3;
    var s1 := [StartDate] + s2;
    assert Order == [CategoryId] + s1;
    Seqs.FilterCons(CategoryId, s1, p);
    Seqs.FilterCons(StartDate, s2, p);
    Seqs.FilterCons(EndDate, s3, p);
    Seqs.FilterCons(Limit, s4, p);
    assert s4 == [Offset] + [];
    Seqs.FilterCons(Offset, [], p);
  }

  lemma PairsOfOne(f: ExpenseFilter, k: Key)
    ensures Pairs(f, IfPresent(f, k)) == AppendIf(f, k)
  {
  }

  /** The parameters are exactly the truthy fields, in the order
      `category_id, start_date, end_date, limit, offset`, each with its
      field's value. */
  lemma ParamsShape(f: ExpenseFilter)
    ensures Params(Some(f)) == Pairs(f, Sent(f))
  {
    SentUnfolds(f);
    PairsAppend5(f, IfPresent(f, CategoryId), IfPresent(f, StartDate), IfPresent(f, EndDate),
      IfPresent(f, Limit), IfPresent(f, Offset));
    PairsOfOne(f, CategoryId);
    PairsOfOne(f, StartDate);
    PairsOfOne(f, EndDate);
    PairsOfOne(f, Limit);
    PairsOfOne(f, Offset);
    ParamsNested(f);
  }

  lemma PairsAppend5(f: ExpenseFilter, a: seq<Key>, b: seq<Key>, c: seq<Key>, d: seq<Key>, e: seq<Key>)
    ensures Pairs(f, a + (b + (c + (d + e)))) == Pairs(f, a) + (Pairs(f, b) + (Pairs(f, c) + (Pairs(f, d) + Pairs(f, e))))
  {
    PairsAppend(f, d, e);
    PairsAppend(f, c, d + e);
    PairsAppend(f, b, c + (d + e));
    PairsAppend(f, a, b + (c + (d + e)));
  }

  lemma ParamsNested(f: ExpenseFilter)
    ensures Params(Some(f)) == AppendIf(f, CategoryId) + (AppendIf(f, StartDate) + (AppendIf(f, EndDate)
        + (AppendIf(f, Limit) + AppendIf(f, Offset))))
  {
  }

  lemma {:induction false} PairsMembership(f: ExpenseFilter, ks: seq<Key>, name: string, v: string)
    ensures (name, v) in Pairs(f, ks) <==> exists k :: k in ks && name == Name(k) && v == ValueFor(f, k)
  {
    if ks != [] {
      PairsMembership(f, ks[1..], name, v);
      assert forall k :: k in ks <==> k == ks[0] || k in ks[1..];
    }
  }

  /** A pair is sent exactly when it names a truthy field and carries that
      field's value: a 0 id, limit or offset and an empty date are left out. */
  lemma ParamSent(f: ExpenseFilter, k: Key, v: string)
    ensures (Name(k), v) in Params(Some(f)) <==> Present(f, k) && v == ValueFor(f, k)
  {
    ParamsShape(f);
    PairsMembership(f, Sent(f), Name(k), v);
    Seqs.FilterMembership(Order, Sends(f));
    forall l | Name(k) == Name(l) ensures k == l {
      NameInjective(k, l);
    }
    assert k in Order;
  }

  /** Without a filter, or with every field falsy, the URL is the bare path
      with no `?`; otherwise it carries a query string. */
  lemma BarePathExactly(filter: Option<ExpenseFilter>)
    ensures ExpensesUrl(filter) == "/api/expenses" <==>
      filter.None? || forall k: Key :: !Present(filter.value, k)
  {
    var q := Query.Encode(Params(filter));
    if q != "" {
      assert ExpensesUrl(filter)[|"/api/expenses"|] == '?';
    }
    if filter.Some? && Params(filter) == [] {
      var f := filter.value;
      forall k: Key ensures !Present(f, k) {
        if Present(f, k) {
          ParamSent(f, k, ValueFor(f, k));
        }
      }
    }
  }

  lemma {:induction false} PairsSafe(f: ExpenseFilter, ks: seq<Key>)
    requires f.start_date.Some? ==> Query.Safe(f.start_date.value)
    requires f.end_date.Some? ==> Query.Safe(f.end_date.value)
    ensures Query.AllSafe(Pairs(f, ks))
  {
    if ks != [] {
      var tail := Pairs(f, ks[1..]);
      PairsSafe(f, ks[1..]);
      KeySafe(f, ks[0]);
      var ps := Pairs(f, ks);
      assert ps == [(Name(ks[0]), ValueFor(f, ks[0]))] + tail;
      assert forall i :: 1 <= i < |ps| ==> ps[i] == tail[i - 1];
    }
  }

  /** Every name and every value the source can append is free of `&`
      and `=`, given safe dates. */
  lemma KeySafe(f: ExpenseFilter, k: Key)
    requires f.start_date.Some? ==> Query.Safe(f.start_date.value)
    requires f.end_date.Some? ==> Query.Safe(f.end_date.value)
    ensures Query.Safe(Name(k)) && Query.Safe(ValueFor(f, k))
  {
    match k
    case CategoryId => Query.NumberSafe(f.category_id.GetOr(0));
    case Limit => Query.NumberSafe(f.limit.GetOr(0));
    case Offset => Query.NumberSafe(f.offset.GetOr(0));
    case StartDate =>
    case EndDate =>
  }

  /** With dates free of `&` and `=`, the query string after `?` reads back
      as exactly the parameters appended. */
  lemma QueryReadsBack(f: ExpenseFilter)
    requires f.start_date.Some? ==> Query.Safe(f.start_date.value)
    requires f.end_date.Some? ==> Query.Safe(f.end_date.value)
    requires Params(Some(f)) != []
    ensures ExpensesUrl(Some(f))[..|"/api/expenses?"|] == "/api/expenses?"
    ensures Query.Decode(ExpensesUrl(Some(f))[|"/api/expenses?"|..]) == Params(Some(f))
  {
    var ps := Params(Some(f));
    ParamsShape(f);
    PairsSafe(f, Sent(f));
    Query.DecodeEncode(ps);
    var q := Query.Encode(ps);
    assert ExpensesUrl(Some(f)) == "/api/expenses?" + q;
    assert ExpensesUrl(Some(f))[|"/api/expenses?"|..] == q;
  }

  /** The calls that read or change one expense, and creation. */
  datatype Call = Get(id: int) | Create | Update(id: int) | Delete(id: int)

  function Url(c: Call): string {
    match c
    case Create => "/api/expenses"
    case Get(id) => "/api/expenses/" + Text.IntToString(id)
    case Update(id) => "/api/expenses/" + Text.IntToString(id)
    case Delete(id) => "/api/expenses/" + Text.IntToString(id)
  }

  function Verb(c: Call): string {
    match c
    case Get(_) => "GET"
    case Create => "POST"
    case Update(_) => "PATCH"
    case Delete(_) => "DELETE"
  }

  function Fallback(c: Call): string {
    match c
    case Get(_) => "Failed to load expense"
    case Create => "Failed to create expense"
    case Update(_) => "Failed to update expense"
    case Delete(_) => "Failed to delete expense"
  }

  /** `fetchExpenses`: one fixed message, whatever the error body. */
  function ListOutcome<T>(r: Http.Response<T>): (o: Result<T, string>)
    ensures r.NotOk? ==> o == Failure("Failed to load expenses")
    ensures r.Rejected? ==> o == Failure(r.message)
    ensures r.Ok? ==> o == Success(r.value)
  {
    Http.Fixed(r, "Failed to load expenses")
  }

  /** The other calls: the server's `error`, else the call's own fallback. */
  function Outcome<T>(c: Call, r: Http.Response<T>): (o: Result<T, string>)
    ensures r.Ok? ==> o == Success(r.value)
    ensures r.NotOk? ==> o == Failure(Http.BodyMessage(r.body, Fallback(c)))
    ensures r.Rejected? ==> o == Failure(r.message)
  {
    Http.Reported(r, Fallback(c))
  }

  /** Different calls send different requests, and a by-id URL carries the
      id in decimal so it can be read back from the path. */
  lemma RequestsIdentifyCall(c: Call, d: Call)
    ensures Verb(c) == Verb(d) && Url(c) == Url(d) ==> c == d
    ensures !c.Create? ==>
      && Url(c)[..|"/api/expenses/"|] == "/api/expenses/"
      && Text.ParseInt(Url(c)[|"/api/expenses/"|..]) == Some(c.id)
  {
    if !c.Create? {
      assert Url(c)[|"/api/expenses/"|..] == Text.IntToString(c.id);
      Text.IntToStringRoundTrip(c.id);
    }
    if Verb(c) == Verb(d) && Url(c) == Url(d) && !c.Create? {
      assert Url(c)[|"/api/expenses/"|..] == Text.IntToString(c.id);
      assert Url(d)[|"/api/expenses/"|..] == Text.IntToString(d.id);
      Text.IntToStringInjective(c.id, d.id);
    }
  }
}
