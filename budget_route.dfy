/** The budget route: POST (`create`, `updateGoal`, `updateSavings`), GET in
    title order, and DELETE over the budget table. Updates and DELETE use a
    unique-key lookup, so a `(userId, budgetId)` that matches no row makes the
    store throw. */
module BudgetRoute {
  import opened Common
  import opened Records

  /** The fields POST destructures from the request body. */
  datatype BudgetBody = BudgetBody(action: Field, title: Field, goal: Field, updateGoalValue: Field,
                                   updatedSavingsValue: Field, budgetId: Field)

  datatype BudgetData = BudgetRow(budget: Budget) | BudgetList(budgets: seq<Budget>)

  /** The filter `{ userId, id: budgetId }`. */
  predicate Addressed(userId: UserId, budgetId: Field, b: Budget)
  {
    b.userId == userId && budgetId == Str(b.id)
  }

  /** The row `create` stores: title and goal from the body, saving at its
      default, owned by the session user. */
  function NewBudget(id: RecordId, userId: UserId, body: BudgetBody): (r: Option<Budget>)
    ensures r.Some? <==> body.title.Str? && IntColumn(body.goal, DefaultCount).Some?
    ensures r.Some? ==> r.value == Budget(id, userId, body.title.s, IntColumn(body.goal, DefaultCount).value, DefaultCount)
  {
    match (TextOf(body.title), IntColumn(body.goal, DefaultCount))
    case (Some(title), Some(goal)) => Some(Budget(id, userId, title, goal, DefaultCount))
    case _ => None
  }

  /** The row a unique-key `update` or `delete` on `(userId, budgetId)` finds. */
  function FindBudget(bs: seq<Budget>, userId: UserId, budgetId: Field): (k: Option<nat>)
    ensures k.Some? ==> k.value < |bs| && Addressed(userId, budgetId, bs[k.value])
    ensures k.None? <==> forall i :: 0 <= i < |bs| ==> !Addressed(userId, budgetId, bs[i])
  {
    FindWhere(bs, (b: Budget) => Addressed(userId, budgetId, b))
  }

  function OwnedBudgets(bs: seq<Budget>, userId: UserId): (r: seq<Budget>)
    ensures forall b :: b in r <==> b in bs && b.userId == userId
    ensures multiset(r) <= multiset(bs)
  {
    Keep(bs, (b: Budget) => b.userId == userId)
  }

  // ---------------------------------------------------------------------------
  // `orderBy: { title: "asc" }`, as code-point order on titles.

  /** `a` sorts no later than `b`. */
  predicate TitleNoLater(a: string, b: string)
  {
    a == [] || (b != [] && (a[0] < b[0] || (a[0] == b[0] && TitleNoLater(a[1..], b[1..]))))
  }

  lemma {:induction false} TitleTotal(a: string, b: string)
    ensures TitleNoLater(a, b) || TitleNoLater(b, a)
  {
    if a != [] && b != [] && a[0] == b[0] {
      TitleTotal(a[1..], b[1..]);
    }
  }

  lemma {:induction false} TitleTransitive(a: string, b: string, c: string)
    requires TitleNoLater(a, b) && TitleNoLater(b, c)
    ensures TitleNoLater(a, c)
  {
    if a != [] && a[0] == b[0] && b[0] == c[0] {
      TitleTransitive(a[1..], b[1..], c[1..]);
    }
  }

  lemma {:induction false} TitleReflexive(a: string)
    ensures TitleNoLater(a, a)
  {
    if a != [] {
      TitleReflexive(a[1..]);
    }
  }

  predicate SortedByTitle(bs: seq<Budget>)
  {
    forall i :: 0 <= i < |bs| - 1 ==> TitleNoLater(bs[i].title, bs[i + 1].title)
  }

  /** `b` placed before the first row whose title is later than its own. */
  function InsertByTitle(b: Budget, bs: seq<Budget>): (r: seq<Budget>)
    ensures multiset(r) == multiset(bs) + multiset{b}
    ensures |r| == |bs| + 1
  {
    if bs == [] then [b]
    else if TitleNoLater(b.title, bs[0].title) then [b] + bs
    else
      assert bs == [bs[0]] + bs[1..];
      [bs[0]] + InsertByTitle(b, bs[1..])
  }

  /** Inserting into a title-ordered list keeps it ordered; the new head is
      `b` or the old head. */
  lemma {:induction false} InsertKeepsSorted(b: Budget, bs: seq<Budget>)
    requires SortedByTitle(bs)
    ensures SortedByTitle(InsertByTitle(b, bs))
    ensures var r := InsertByTitle(b, bs); r[0] == b || (bs != [] && r[0] == bs[0])
  {
    if bs != [] && !TitleNoLater(b.title, bs[0].title) {
      TitleTotal(b.title, bs[0].title);
      SortedTail(bs);
      InsertKeepsSorted(b, bs[1..]);
      SortedCons(bs[0], InsertByTitle(b, bs[1..]));
    }
  }

  lemma SortedTail(bs: seq<Budget>)
    requires bs != [] && SortedByTitle(bs)
    ensures SortedByTitle(bs[1..])
  {
    forall i | 0 <= i < |bs| - 2
      ensures TitleNoLater(bs[1..][i].title, bs[1..][i + 1].title)
    {
      assert bs[1..][i] == bs[i + 1] && bs[1..][i + 1] == bs[i + 2];
    }
  }

  lemma SortedCons(x: Budget, rest: seq<Budget>)
    requires SortedByTitle(rest) && (rest == [] || TitleNoLater(x.title, rest[0].title))
    ensures SortedByTitle([x] + rest)
  {
    var r := [x] + rest;
    forall i | 0 <= i < |r| - 1
      ensures TitleNoLater(r[i].title, r[i + 1].title)
    {
      if i > 0 {
        assert r[i] == rest[i - 1] && r[i + 1] == rest[i];
      }
    }
  }

  /** The rows in ascending title order. */
  function ByTitle(bs: seq<Budget>): (r: seq<Budget>)
    ensures SortedByTitle(r)
    ensures multiset(r) == multiset(bs)
  {
    if bs == [] then []
    else
      assert bs == [bs[0]] + bs[1..];
      var rest := ByTitle(bs[1..]);
      InsertKeepsSorted(bs[0], rest);
      InsertByTitle(bs[0], rest)
  }

  /** Reordering keeps exactly the same rows. */
  lemma SameRows(a: seq<Budget>, b: seq<Budget>)
    requires multiset(a) == multiset(b)
    ensures forall x :: x in a <==> x in b
  {
    forall x
      ensures x in a <==> x in b
    {
      assert x in a <==> x in multiset(a);
      assert x in b <==> x in multiset(b);
    }
  }

  /** Title order holds between every two rows, not only neighbours. */
  lemma {:induction false} SortedAllPairs(bs: seq<Budget>)
    requires SortedByTitle(bs)
    ensures forall i, j :: 0 <= i < j < |bs| ==> TitleNoLater(bs[i].title, bs[j].title)
  {
    if |bs| > 1 {
      SortedAllPairs(bs[1..]);
      forall j | 1 < j < |bs|
        ensures TitleNoLater(bs[0].title, bs[j].title)
      {
        assert TitleNoLater(bs[1..][0].title, bs[1..][j - 1].title);
        TitleTransitive(bs[0].title, bs[1].title, bs[j].title);
      }
    }
  }

  class BudgetStore {
    var budgets: seq<Budget>

    ghost predicate Valid()
      reads this
    {
      UniqueBudgetIds(budgets)
    }

    constructor ()
      ensures Valid() && budgets == []
    {
      budgets := [];
    }

    /** POST. `updateSavings` replaces the saving; neither update compares
        saving with goal. */
    method Post(session: Option<UserId>, body: BudgetBody, newId: RecordId, storeFails: bool)
      returns (r: Response<BudgetData>)
      requires Valid()
      requires forall b :: b in budgets ==> b.id != newId
      modifies this
      ensures Valid()
      ensures session.None? ==> r == Unauthorized() && budgets == old(budgets)
      ensures session.Some? && body.action !in {Str("create"), Str("updateGoal"), Str("updateSavings")} ==>
                r == Rejected("Invalid action") && budgets == old(budgets)
      ensures session.Some? && body.action == Str("create") ==>
                var created := NewBudget(newId, session.value, body);
                if !Truthy(body.title) then
                  r == Rejected("Title is required to create a habit.") && budgets == old(budgets)
                else if storeFails || created.None? then
                  r == Failed("Failed to create budget tracker") && budgets == old(budgets)
                else
                  r == Answer(Success, BudgetRow(created.value), "Budget tracker created successfully")
                  && budgets == old(budgets) + [created.value]
      ensures session.Some? && body.action == Str("updateGoal") ==>
                var k := FindBudget(old(budgets), session.value, body.budgetId);
                if !Truthy(body.updateGoalValue) then
                  r == Rejected("Update goal value is required to update the goal.") && budgets == old(budgets)
                else if storeFails || k.None? || !body.updateGoalValue.Num? then
                  r == Failed("Failed to update budget tracker goal") && budgets == old(budgets)
                else
                  var row := old(budgets)[k.value].(goal := body.updateGoalValue.n);
                  r == Answer(Success, BudgetRow(row), "Budget tracker goal updated successfully")
                  && budgets == old(budgets)[k.value := row]
      ensures session.Some? && body.action == Str("updateSavings") ==>
                var k := FindBudget(old(budgets), session.value, body.budgetId);
                if !Truthy(body.updatedSavingsValue) then
                  r == Rejected("Increment savings value is required") && budgets == old(budgets)
                else if storeFails || k.None? || !body.updatedSavingsValue.Num? then
                  r == Failed("Failed to increment budget tracker savings") && budgets == old(budgets)
                else
                  var row := old(budgets)[k.value].(saving := body.updatedSavingsValue.n);
                  r == Answer(Success, BudgetRow(row), "Budget tracker savings incremented successfully")
                  && budgets == old(budgets)[k.value := row]
    {
      if session.None? {
        return Unauthorized();
      }
      if body.action == Str("create") {
        r := PostCreate(session.value, body, newId, storeFails);
      } else if body.action == Str("updateGoal") {
        r := PostUpdateGoal(session.value, body, storeFails);
      } else if body.action == Str("updateSavings") {
        r := PostUpdateSavings(session.value, body, storeFails);
      } else {
        r := Rejected("Invalid action");
      }
    }

    /** The `create` branch of POST: a budget with no saving yet. */
    method PostCreate(userId: UserId, body: BudgetBody, newId: RecordId, storeFails: bool)
      returns (r: Response<BudgetData>)
      requires Valid()
      requires forall b :: b in budgets ==> b.id != newId
      modifies this
      ensures Valid()
      ensures var created := NewBudget(newId, userId, body);
              if !Truthy(body.title) then
                r == Rejected("Title is required to create a habit.") && budgets == old(budgets)
              else if storeFails || created.None? then
                r == Failed("Failed to create budget tracker") && budgets == old(budgets)
              else
                r == Answer(Success, BudgetRow(created.value), "Budget tracker created successfully")
                && budgets == old(budgets) + [created.value]
    {
      if !Truthy(body.title) {
        return Rejected("Title is required to create a habit.");
      }
      var created := NewBudget(newId, userId, body);
      if storeFails || created.None? {
        return Failed("Failed to create budget tracker");
      }
      AppendKeepsDistinct(budgets, BudgetId, created.value);
      budgets := budgets + [created.value];
      return Answer(Success, BudgetRow(created.value), "Budget tracker created successfully");
    }

    /** The `updateGoal` branch of POST: the caller's budget gets the new goal. */
    method PostUpdateGoal(userId: UserId, body: BudgetBody, storeFails: bool) returns (r: Response<BudgetData>)
      requires Valid()
      modifies this
      ensures Valid()
      ensures var k := FindBudget(old(budgets), userId, body.budgetId);
              if !Truthy(body.updateGoalValue) then
                r == Rejected("Update goal value is required to update the goal.") && budgets == old(budgets)
              else if storeFails || k.None? || !body.updateGoalValue.Num? then
                r == Failed("Failed to update budget tracker goal") && budgets == old(budgets)
              else
                var row := old(budgets)[k.value].(goal := body.updateGoalValue.n);
                r == Answer(Success, BudgetRow(row), "Budget tracker goal updated successfully")
                && budgets == old(budgets)[k.value := row]
    {
      if !Truthy(body.updateGoalValue) {
        return Rejected("Update goal value is required to update the goal.");
      }
      var k := FindBudget(budgets, userId, body.budgetId);
      if storeFails || k.None? || !body.updateGoalValue.Num? {
        return Failed("Failed to update budget tracker goal");
      }
      var row := budgets[k.value].(goal := body.updateGoalValue.n);
      ReplaceKeepsDistinct(budgets, BudgetId, k.value, row);
      budgets := budgets[k.value := row];
      return Answer(Success, BudgetRow(row), "Budget tracker goal updated successfully");
    }

    /** The `updateSavings` branch of POST: the sent value replaces the saving. */
    method PostUpdateSavings(userId: UserId, body: BudgetBody, storeFails: bool) returns (r: Response<BudgetData>)
      requires Valid()
      modifies this
      ensures Valid()
      ensures var k := FindBudget(old(budgets), userId, body.budgetId);
              if !Truthy(body.updatedSavingsValue) then
                r == Rejected("Increment savings value is required") && budgets == old(budgets)
              else if storeFails || k.None? || !body.updatedSavingsValue.Num? then
                r == Failed("Failed to increment budget tracker savings") && budgets == old(budgets)
              else
                var row := old(budgets)[k.value].(saving := body.updatedSavingsValue.n);
                r == Answer(Success, BudgetRow(row), "Budget tracker savings incremented successfully")
                && budgets == old(budgets)[k.value := row]
    {
      if !Truthy(body.updatedSavingsValue) {
        return Rejected("Increment savings value is required");
      }
      var k := FindBudget(budgets, userId, body.budgetId);
      if storeFails || k.None? || !body.updatedSavingsValue.Num? {
        return Failed("Failed to increment budget tracker savings");
      }
      var row := budgets[k.value].(saving := body.updatedSavingsValue.n);
      ReplaceKeepsDistinct(budgets, BudgetId, k.value, row);
      budgets := budgets[k.value := row];
      return Answer(Success, BudgetRow(row), "Budget tracker savings incremented successfully");
    }

    /** GET: the caller's budgets, in ascending title order. */
    method Get(session: Option<UserId>, storeFails: bool) returns (r: Response<BudgetData>)
      ensures session.None? ==> r == Unauthorized()
      ensures session.Some? && storeFails ==> r == Failed("Failed to fetch budget trackers")
      ensures session.Some? && !storeFails ==>
                r.status == Success && r.message == "Budget trackers fetched successfully"
                && r.data.Some? && r.data.value.BudgetList?
                && SortedByTitle(r.data.value.budgets)
                && forall b :: b in r.data.value.budgets <==> b in budgets && b.userId == session.value
      ensures session.Some? && !storeFails ==>
                r == Answer(Success, BudgetList(ByTitle(OwnedBudgets(budgets, session.value))),
                            "Budget trackers fetched successfully")
    {
      if session.None? {
        return Unauthorized();
      }
      if storeFails {
        return Failed("Failed to fetch budget trackers");
      }
      var owned := OwnedBudgets(budgets, session.value);
      var rows := ByTitle(owned);
      SameRows(rows, owned);
      return Answer(Success, BudgetList(rows), "Budget trackers fetched successfully");
    }

    /** DELETE of the caller's budget `budgetId`, answering with the removed row. */
    method Delete(session: Option<UserId>, budgetId: Field, storeFails: bool) returns (r: Response<BudgetData>)
      requires Valid()
      modifies this
      ensures Valid()
      ensures session.None? ==> r == Unauthorized() && budgets == old(budgets)
      ensures session.Some? ==>
                var k := FindBudget(old(budgets), session.value, budgetId);
                if storeFails || k.None? then
                  r == Failed("Failed to delete budget tracker") && budgets == old(budgets)
                else
                  r == Answer(Success, BudgetRow(old(budgets)[k.value]), "Budget tracker deleted successfully")
                  && budgets == RemoveAt(old(budgets), k.value)
    {
      if session.None? {
        return Unauthorized();
      }
      var k := FindBudget(budgets, session.value, budgetId);
      if storeFails || k.None? {
        return Failed("Failed to delete budget tracker");
      }
      var row := budgets[k.value];
      RemoveKeepsDistinct(budgets, BudgetId, k.value);
      budgets := RemoveAt(budgets, k.value);
      return Answer(Success, BudgetRow(row), "Budget tracker deleted successfully");
    }
  }

  /** For a caller who owns no budget, any update or delete finds nothing, so
      the store throws and the table stands. */
  lemma ForeignBudgetUnreachable(bs: seq<Budget>, userId: UserId, budgetId: Field)
    requires forall b :: b in bs ==> b.userId != userId
    ensures FindBudget(bs, userId, budgetId).None?
  {
    assert forall i :: 0 <= i < |bs| ==> bs[i] in bs;
  }
}
