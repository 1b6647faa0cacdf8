/** The budget card: its capped percentage and the bodies its savings and
    goal dialogs post, whose values pass through JavaScript's `parseInt`. */
module BudgetCard {
  import opened Common
  import opened Records
  import opened BudgetRoute

  /** `min(saving / goal * 100, 100)`. */
  function BudgetPercentage(b: Budget): (p: real)
    requires b.goal > 0
    ensures p <= 100.0
    ensures b.saving >= b.goal ==> p == 100.0
    ensures b.saving <= b.goal ==> p * (b.goal as real) == (b.saving as real) * 100.0
    ensures 0 <= b.saving ==> 0.0 <= p
  {
    CappedPercent(b.saving, b.goal)
  }

  /** For a fixed goal, more saving never shows a smaller percentage. */
  lemma PercentageMonotone(b: Budget, saving: int)
    requires b.goal > 0 && b.saving <= saving
    ensures BudgetPercentage(b) <= BudgetPercentage(b.(saving := saving))
  {
    CappedPercentMonotone(b.saving, saving, b.goal);
  }

  // ---------------------------------------------------------------------------
  // `parseInt(s)`: leading white space, an optional sign, then the longest run
  // of decimal digits; no digit at all gives NaN, here `None`.

  predicate IsDigit(c: char) { '0' <= c <= '9' }

  predicate IsSpace(c: char) { c == ' ' || c == '\t' || c == '\n' || c == '\r' }

  predicate AllDigits(d: string)
  {
    forall i :: 0 <= i < |d| ==> IsDigit(d[i])
  }

  /** The number of white-space characters `s` starts with. */
  function LeadingSpaces(s: string): (n: nat)
    ensures n <= |s|
    ensures forall i :: 0 <= i < n ==> IsSpace(s[i])
    ensures n < |s| ==> !IsSpace(s[n])
  {
    if s != [] && IsSpace(s[0]) then 1 + LeadingSpaces(s[1..]) else 0
  }

  /** `trimStart`: `s` without its leading white space. */
  function TrimStart(s: string): (r: string)
    ensures |r| <= |s| && r == s[|s| - |r|..]
    ensures r == [] || !IsSpace(r[0])
    ensures forall i :: 0 <= i < |s| - |r| ==> IsSpace(s[i])
  {
    s[LeadingSpaces(s)..]
  }

  /** The length of the run of digits `s` starts with. */
  function DigitRun(s: string): (n: nat)
    ensures n <= |s| && AllDigits(s[..n])
    ensures n < |s| ==> !IsDigit(s[n])
  {
    if s != [] && IsDigit(s[0]) then 1 + DigitRun(s[1..]) else 0
  }

  function DigitValue(c: char): (v: nat)
    requires IsDigit(c)
    ensures v < 10
  {
    (c as int) - ('0' as int)
  }

  function DigitsValue(d: string): nat
    requires AllDigits(d)
  {
    if d == [] then 0 else DigitsValue(d[..|d| - 1]) * 10 + DigitValue(d[|d| - 1])
  }

  /** The value of the digit run `rest` starts with, if there is one. */
  function LeadingNumber(rest: string): (r: Option<nat>)
    ensures r.None? <==> rest == [] || !IsDigit(rest[0])
  {
    var n := DigitRun(rest);
    if n == 0 then None else Some(DigitsValue(rest[..n]))
  }

  /** `parseInt(s, 10)`: NaN exactly when no digit follows the trimmed text
      and its optional sign; otherwise that sign applied to the value of the
      longest digit run there, whatever follows it. */
  function ParseInt(s: string): (r: Option<int>)
    ensures var t := TrimStart(s);
            var signed := t != [] && (t[0] == '-' || t[0] == '+');
            var u := if signed then t[1..] else t;
            var n := DigitRun(u);
            (r.None? <==> n == 0)
            && (r.Some? ==> r.value == (if t != [] && t[0] == '-' then -1 else 1) * DigitsValue(u[..n]))
  {
    var t := TrimStart(s);
    if t != [] && t[0] == '-' then Negated(LeadingNumber(t[1..]))
    else if t != [] && t[0] == '+' then Widened(LeadingNumber(t[1..]))
    else Widened(LeadingNumber(t))
  }

  function Negated(v: Option<nat>): Option<int>
  {
    match v
    case None => None
    case Some(n) => Some(-(n as int))
  }

  function Widened(v: Option<nat>): Option<int>
  {
    match v
    case None => None
    case Some(n) => Some(n)
  }

  /** The decimal digits of `n`, most significant first. */
  function Natural(n: nat): (d: string)
    ensures |d| >= 1 && AllDigits(d)
  {
    if n < 10 then [('0' as int + n) as char]
    else Natural(n / 10) + [('0' as int + n % 10) as char]
  }

  /** How an integer amount is typed into the dialog. */
  function Decimal(n: int): (d: string)
    ensures d != [] && (IsDigit(d[0]) || d[0] == '-')
  {
    if n < 0 then "-" + Natural(-n) else Natural(n)
  }

  lemma {:induction false} NaturalValue(n: nat)
    ensures DigitsValue(Natural(n)) == n
  {
    if n >= 10 {
      var d := Natural(n);
      assert d[..|d| - 1] == Natural(n / 10);
      NaturalValue(n / 10);
    }
  }

  lemma {:induction false} DigitRunStops(d: string, suffix: string)
    requires AllDigits(d) && (suffix == [] || !IsDigit(suffix[0]))
    ensures DigitRun(d + suffix) == |d|
  {
    if d != [] {
      assert (d + suffix)[1..] == d[1..] + suffix;
      DigitRunStops(d[1..], suffix);
    }
  }

  lemma LeadingNatural(m: nat, suffix: string)
    requires suffix == [] || !IsDigit(suffix[0])
    ensures LeadingNumber(Natural(m) + suffix) == Some(m)
  {
    var digits := Natural(m);
    DigitRunStops(digits, suffix);
    assert (digits + suffix)[..|digits|] == digits;
    NaturalValue(m);
  }

  /** `parseInt` reads back any integer typed in decimal, and stops at the
      first character that is not a digit, so `"12.5"` gives 12. */
  lemma ParseIntDecimal(n: int, suffix: string)
    requires suffix == [] || !IsDigit(suffix[0])
    ensures ParseInt(Decimal(n) + suffix) == Some(n)
  {
    if n < 0 {
      ParseNegative(n, suffix);
    } else {
      ParseNonNegative(n, suffix);
    }
  }

  lemma ParseNegative(n: int, suffix: string)
    requires n < 0 && (suffix == [] || !IsDigit(suffix[0]))
    ensures ParseInt(Decimal(n) + suffix) == Some(n)
  {
    var m: nat := -n;
    var rest := Natural(m) + suffix;
    assert Decimal(n) == "-" + Natural(m);
    assert Decimal(n) + suffix == "-" + rest;
    LeadingNatural(m, suffix);
    ParseMinus(rest, m);
  }

  lemma ParseNonNegative(n: nat, suffix: string)
    requires suffix == [] || !IsDigit(suffix[0])
    ensures ParseInt(Decimal(n) + suffix) == Some(n)
  {
    var s := Natural(n) + suffix;
    assert Decimal(n) == Natural(n);
    assert s[0] == Natural(n)[0];
    LeadingNatural(n, suffix);
    ParseUnsigned(s, n);
  }

  /** A minus sign before a digit run reads as the negated run. */
  lemma ParseMinus(rest: string, v: nat)
    requires LeadingNumber(rest) == Some(v)
    ensures ParseInt("-" + rest) == Some(-(v as int))
  {
    var s := "-" + rest;
    assert LeadingSpaces(s) == 0;
    assert s[0] == '-' && s[1..] == rest;
  }

  /** A string that starts with a digit reads as its digit run. */
  lemma ParseUnsigned(s: string, v: nat)
    requires s != [] && IsDigit(s[0]) && LeadingNumber(s) == Some(v)
    ensures ParseInt(s) == Some(v)
  {
    assert LeadingSpaces(s) == 0;
  }

  /** `JSON.stringify` writes NaN as `null`, which is falsy in the route. */
  function Serialized(v: Option<int>): (f: Field)
    ensures v.None? ==> f == Null && !Truthy(f)
    ensures v.Some? ==> f == Num(v.value)
  {
    match v
    case None => Null
    case Some(n) => Num(n)
  }

  /** The savings dialog: the parsed input as `updatedSavingsValue`. */
  function SavingsRequest(b: Budget, input: string): (q: BudgetBody)
    ensures q.action == Str("updateSavings") && q.budgetId == Str(b.id)
    ensures q.updatedSavingsValue == Serialized(ParseInt(input))
    ensures q.updateGoalValue == Absent
  {
    BudgetBody(Str("updateSavings"), Absent, Absent, Absent, Serialized(ParseInt(input)), Str(b.id))
  }

  /** The goal dialog: the parsed input as `updateGoalValue`. */
  function GoalRequest(b: Budget, input: string): (q: BudgetBody)
    ensures q.action == Str("updateGoal") && q.budgetId == Str(b.id)
    ensures q.updateGoalValue == Serialized(ParseInt(input))
    ensures q.updatedSavingsValue == Absent
  {
    BudgetBody(Str("updateGoal"), Absent, Absent, Serialized(ParseInt(input)), Absent, Str(b.id))
  }

  /** The savings dialog sends the typed amount itself, not a difference from
      the current saving. */
  lemma SavingsRequestReplaces(b: Budget, n: int)
    requires n != 0
    ensures var q := SavingsRequest(b, Decimal(n));
            Truthy(q.updatedSavingsValue) && q.updatedSavingsValue == Num(n)
  {
    ParseIntDecimal(n, "");
    assert Decimal(n) + "" == Decimal(n);
  }

  /** A goal typed as an integer reaches the route as that integer. */
  lemma GoalRequestSendsValue(b: Budget, n: int)
    requires n != 0
    ensures var q := GoalRequest(b, Decimal(n));
            Truthy(q.updateGoalValue) && q.updateGoalValue == Num(n)
  {
    ParseIntDecimal(n, "");
    assert Decimal(n) + "" == Decimal(n);
  }

  /** Typing a nonzero n into the savings dialog of a budget the caller owns:
      the row `BudgetStore.PostUpdateSavings` writes on success holds saving n
      with every other column kept, and no other row changes. */
  lemma SavingsRequestStored(bs: seq<Budget>, b: Budget, n: int)
    requires n != 0 && FindBudget(bs, b.userId, Str(b.id)).Some?
    ensures var q := SavingsRequest(b, Decimal(n));
            var k := FindBudget(bs, b.userId, q.budgetId).value;
            var after := bs[k := bs[k].(saving := q.updatedSavingsValue.n)];
            Truthy(q.updatedSavingsValue) && q.updatedSavingsValue.Num?
            && bs[k].id == b.id && after[k] == bs[k].(saving := n)
            && forall i :: 0 <= i < |bs| && i != k ==> after[i] == bs[i]
  {
    SavingsRequestReplaces(b, n);
  }

  /** Typing a nonzero n into the goal dialog: the row
      `BudgetStore.PostUpdateGoal` writes on success holds goal n with every
      other column kept, and no other row changes. */
  lemma GoalRequestStored(bs: seq<Budget>, b: Budget, n: int)
    requires n != 0 && FindBudget(bs, b.userId, Str(b.id)).Some?
    ensures var q := GoalRequest(b, Decimal(n));
            var k := FindBudget(bs, b.userId, q.budgetId).value;
            var after := bs[k := bs[k].(goal := q.updateGoalValue.n)];
            Truthy(q.updateGoalValue) && q.updateGoalValue.Num?
            && bs[k].id == b.id && after[k] == bs[k].(goal := n)
            && forall i :: 0 <= i < |bs| && i != k ==> after[i] == bs[i]
  {
    GoalRequestSendsValue(b, n);
  }

  /** An input with no leading digits, or the value 0, reaches the route as a
      falsy field, which the route answers with 400: saving is never set to 0
      from the card. */
  lemma FalsyInputsRejected(b: Budget, input: string)
    requires ParseInt(input).None? || ParseInt(input) == Some(0)
    ensures !Truthy(SavingsRequest(b, input).updatedSavingsValue)
    ensures !Truthy(GoalRequest(b, input).updateGoalValue)
  {
  }

  /** A budget created with goal 1000 starts with saving 0; after savings of
      2000 it shows 100 percent. */
  lemma TripScenario(id: RecordId, userId: UserId)
    ensures var created := NewBudget(id, userId, BudgetBody(Str("create"), Str("Trip"), Num(1000), Absent, Absent, Absent));
            created.Some? && created.value.saving == 0 && created.value.goal == 1000
            && BudgetPercentage(created.value.(saving := 2000)) == 100.0
  {
  }
}
