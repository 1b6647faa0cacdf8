/** The expense route: POST (`create`, `update`), GET of the current period,
    and DELETE over the expense table. An expense's period is stamped from the
    server clock once, at creation. */
module ExpenseRoute {
  import opened Common
  import opened Records

  /** The fields POST destructures from the request body. */
  datatype ExpenseBody = ExpenseBody(action: Field, title: Field, amount: Field, expenseId: Field)

  datatype ExpenseData = ExpenseRow(expense: Expense) | ExpenseList(expenses: seq<Expense>)

  /** The filter `{ userId, id: expenseId }`. */
  predicate Addressed(userId: UserId, expenseId: Field, e: Expense)
  {
    e.userId == userId && expenseId == Str(e.id)
  }

  /** The row `create` stores: title and amount from the body, the period of
      the server clock, owned by the session user. */
  function NewExpense(id: RecordId, userId: UserId, body: ExpenseBody, now: Period): (r: Option<Expense>)
    ensures r.Some? <==> body.title.Str? && body.amount.Num?
    ensures r.Some? ==> r.value == Expense(id, userId, body.title.s, body.amount.n, now.month, now.year)
  {
    match (TextOf(body.title), NumberOf(body.amount))
    case (Some(title), Some(amount)) => Some(Expense(id, userId, title, amount, now.month, now.year))
    case _ => None
  }

  function FindExpense(es: seq<Expense>, userId: UserId, expenseId: Field): (k: Option<nat>)
    ensures k.Some? ==> k.value < |es| && Addressed(userId, expenseId, es[k.value])
    ensures k.None? <==> forall i :: 0 <= i < |es| ==> !Addressed(userId, expenseId, es[i])
  {
    FindWhere(es, (e: Expense) => Addressed(userId, expenseId, e))
  }

  /** `findMany({ where: { userId, month, year } })` for the server's period. */
  function CurrentExpenses(es: seq<Expense>, userId: UserId, now: Period): (r: seq<Expense>)
    ensures forall e :: e in r <==> e in es && e.userId == userId && e.month == now.month && e.year == now.year
    ensures multiset(r) <= multiset(es)
  {
    Keep(es, (e: Expense) => e.userId == userId && e.month == now.month && e.year == now.year)
  }

  class ExpenseStore {
    var expenses: seq<Expense>

    ghost predicate Valid()
      reads this
    {
      UniqueExpenseIds(expenses)
    }

    constructor ()
      ensures Valid() && expenses == []
    {
      expenses := [];
    }

    /** POST. `update` demands a title but writes only the amount. */
    method Post(session: Option<UserId>, body: ExpenseBody, now: Period, newId: RecordId, storeFails: bool)
      returns (r: Response<ExpenseData>)
      requires Valid()
      requires forall e :: e in expenses ==> e.id != newId
      modifies this
      ensures Valid()
      ensures session.None? ==> r == Unauthorized() && expenses == old(expenses)
      ensures session.Some? && body.action !in {Str("create"), Str("update")} ==>
                r == Rejected("Invalid action") && expenses == old(expenses)
      ensures session.Some? && body.action == Str("create") ==>
                var created := NewExpense(newId, session.value, body, now);
                if !Truthy(body.title) || !Truthy(body.amount) then
                  r == Rejected("Title and amount are required to create an expense.") && expenses == old(expenses)
                else if storeFails || created.None? then
                  r == Failed("Failed to create expense") && expenses == old(expenses)
                else
                  r == Answer(Create, ExpenseRow(created.value), "Expense created successfully")
                  && expenses == old(expenses) + [created.value]
      ensures session.Some? && body.action == Str("update") ==>
                var k := FindExpense(old(expenses), session.value, body.expenseId);
                if !Truthy(body.title) || !Truthy(body.amount) then
                  r == Rejected("Title and amount are required to update an expense.") && expenses == old(expenses)
                else if storeFails || k.None? || !body.amount.Num? then
                  r == Failed("Failed to update expense") && expenses == old(expenses)
                else
                  var row := old(expenses)[k.value].(amount := body.amount.n);
                  r == Answer(Success, ExpenseRow(row), "Expense updated successfully")
                  && expenses == old(expenses)[k.value := row]
    {
      if session.None? {
        return Unauthorized();
      }
      var userId := session.value;
      if body.action == Str("create") {
        if !Truthy(body.title) || !Truthy(body.amount) {
          return Rejected("Title and amount are required to create an expense.");
        }
        var created := NewExpense(newId, userId, body, now);
        if storeFails || created.None? {
          return Failed("Failed to create expense");
        }
        AppendKeepsDistinct(expenses, ExpenseId, created.value);
        expenses := expenses + [created.value];
        return Answer(Create, ExpenseRow(created.value), "Expense created successfully");
      } else if body.action == Str("update") {
        if !Truthy(body.title) || !Truthy(body.amount) {
          return Rejected("Title and amount are required to update an expense.");
        }
        var k := FindExpense(expenses, userId, body.expenseId);
        if storeFails || k.None? || !body.amount.Num? {
          return Failed("Failed to update expense");
        }
        var row := expenses[k.value].(amount := body.amount.n);
        ReplaceKeepsDistinct(expenses, ExpenseId, k.value, row);
        expenses := expenses[k.value := row];
        return Answer(Success, ExpenseRow(row), "Expense updated successfully");
      }
      return Rejected("Invalid action");
    }

    /** GET: the caller's expenses of the server's current month and year. */
    method Get(session: Option<UserId>, now: Period, storeFails: bool) returns (r: Response<ExpenseData>)
      ensures session.None? ==> r == Unauthorized()
      ensures session.Some? && storeFails ==> r == Failed("Failed to fetch expenses")
      ensures session.Some? && !storeFails ==>
                r == Answer(Success, ExpenseList(CurrentExpenses(expenses, session.value, now)),
                            "Expenses fetched successfully")
    {
      if session.None? {
        return Unauthorized();
      }
      if storeFails {
        return Failed("Failed to fetch expenses");
      }
      return Answer(Success, ExpenseList(CurrentExpenses(expenses, session.value, now)), "Expenses fetched successfully");
    }

    /** DELETE of the caller's expense `expenseId`, answering with the removed row. */
    method Delete(session: Option<UserId>, expenseId: Field, storeFails: bool) returns (r: Response<ExpenseData>)
      requires Valid()
      modifies this
      ensures Valid()
      ensures session.None? ==> r == Unauthorized() && expenses == old(expenses)
      ensures session.Some? ==>
                var k := FindExpense(old(expenses), session.value, expenseId);
                if storeFails || k.None? then
                  r == Failed("Failed to delete expense") && expenses == old(expenses)
                else
                  r == Answer(Success, ExpenseRow(old(expenses)[k.value]), "Expense deleted successfully")
                  && expenses == RemoveAt(old(expenses), k.value)
    {
      if session.None? {
        return Unauthorized();
      }
      var k := FindExpense(expenses, session.value, expenseId);
      if storeFails || k.None? {
        return Failed("Failed to delete expense");
      }
      var row := expenses[k.value];
      RemoveKeepsDistinct(expenses, ExpenseId, k.value);
      expenses := RemoveAt(expenses, k.value);
      return Answer(Success, ExpenseRow(row), "Expense deleted successfully");
    }
  }

  /** An expense created now is listed by a GET in the same period, and by no
      GET in any other period. */
  lemma CreatedListedThisPeriodOnly(es: seq<Expense>, e: Expense, userId: UserId, now: Period, later: Period)
    requires e.userId == userId && e.month == now.month && e.year == now.year
    ensures e in CurrentExpenses(es + [e], userId, now)
    ensures later != now ==> e !in CurrentExpenses(es + [e], userId, later)
  {
    assert e in es + [e];
    if later != now {
      assert later.month != now.month || later.year != now.year;
    }
  }

  /** The table an `update` writes lists, for every period a GET can ask for,
      the same rows in the same order as before, one of them possibly with the
      new amount: an update never moves an expense into or out of a month. */
  lemma UpdateKeepsPeriod(es: seq<Expense>, userId: UserId, expenseId: Field, amount: int, p: Period)
    requires FindExpense(es, userId, expenseId).Some?
    ensures var k := FindExpense(es, userId, expenseId).value;
            var before := CurrentExpenses(es, userId, p);
            var after := CurrentExpenses(es[k := es[k].(amount := amount)], userId, p);
            |after| == |before|
            && forall i :: 0 <= i < |before| ==> after[i] == before[i] || after[i] == before[i].(amount := amount)
  {
    var k := FindExpense(es, userId, expenseId).value;
    KeepReplace(es, (e: Expense) => e.userId == userId && e.month == p.month && e.year == p.year,
                k, es[k].(amount := amount));
  }
}
