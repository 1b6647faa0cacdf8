/** Values shared by every route handler and card: request-body fields and their
    JavaScript truthiness, the status codes, the response envelope, the server
    clock, the table operations the store performs, and percentage arithmetic. */
module Common {

  datatype Option<+T> = None | Some(value: T)

  type UserId = string
  type RecordId = string

  /** One field of a parsed JSON request body: missing (`undefined`), a JSON
      `null`, or a value. The two differ for the store: a missing create field
      leaves the column default, a `null` one is refused. */
  datatype Field = Absent | Null | Num(n: int) | Str(s: string) | Bool(b: bool)

  /** JavaScript truthiness: `if (!x)` rejects exactly the falsy fields, so a
      numeric 0 is refused like a missing field. */
  predicate Truthy(f: Field)
  {
    match f
    case Absent => false
    case Null => false
    case Num(n) => n != 0
    case Str(s) => s != ""
    case Bool(b) => b
  }

  lemma FalsyFields(f: Field)
    ensures !Truthy(f) <==> f == Absent || f == Null || f == Num(0) || f == Str("") || f == Bool(false)
  {
  }

  /** An id filter value the store's validation refuses: `null`, a number or a
      boolean compared with a non-nullable text id column. An absent id is a
      dropped filter, not a refusal, and a string is compared as it is. */
  predicate IdRefused(f: Field)
  {
    f.Null? || f.Num? || f.Bool?
  }

  // The status codes of the response envelope.
  const Success := 200
  const Create := 201
  const BadRequest := 400
  const UnauthorizedAccess := 401
  const NotFound := 404
  const InternalServerError := 500
  const NoContent := 204

  /** The `error` member of the envelope: absent, `{}`, the caught store
      exception, or `{ details }`. */
  datatype ErrorField = NoErrorKey | EmptyError | Caught | Details(details: string)

  /** The envelope `{ status, data, message, error }`; `data: {}` is `None`. */
  datatype Response<D> = Response(status: int, data: Option<D>, message: string, error: ErrorField)

  function Unauthorized<D>(): Response<D>
  {
    Response(UnauthorizedAccess, None, "Unauthorized access", EmptyError)
  }

  function Rejected<D>(message: string): Response<D>
  {
    Response(BadRequest, None, message, EmptyError)
  }

  function Failed<D>(message: string): Response<D>
  {
    Response(InternalServerError, None, message, Caught)
  }

  function Answer<D>(status: int, data: D, message: string): Response<D>
  {
    Response(status, Some(data), message, EmptyError)
  }

  /** The server clock as `getMonth()` (0-based) and `getFullYear()` read it. */
  type Month = m: int | 0 <= m < 12
  datatype Period = Period(month: Month, year: int)

  /** The value a create writes into an integer column: an absent field leaves
      the column default, and the store refuses anything but a number, `null`
      included, since the columns are not nullable. */
  function IntColumn(f: Field, default: int): (r: Option<int>)
    ensures r.Some? <==> f.Absent? || f.Num?
    ensures f.Absent? ==> r == Some(default)
    ensures f.Num? ==> r == Some(f.n)
  {
    match f
    case Absent => Some(default)
    case Num(n) => Some(n)
    case _ => None
  }

  /** The value an update writes into an integer column. */
  function NumberOf(f: Field): Option<int>
  {
    if f.Num? then Some(f.n) else None
  }

  /** The value a create writes into a text column. */
  function TextOf(f: Field): Option<string>
  {
    if f.Str? then Some(f.s) else None
  }

  // ---------------------------------------------------------------------------
  // Table operations: the shapes of `findMany`, `updateMany`, `update` and
  // `delete` over a table held as a sequence of rows.

  /** The rows a `where` filter selects, in table order. */
  function Keep<T>(rows: seq<T>, p: T -> bool): (r: seq<T>)
    ensures |r| <= |rows|
    ensures forall i :: 0 <= i < |r| ==> r[i] in rows && p(r[i])
    ensures forall i :: 0 <= i < |rows| && p(rows[i]) ==> rows[i] in r
    ensures multiset(r) <= multiset(rows)
  {
    if rows == [] then []
    else
      assert rows == [rows[0]] + rows[1..];
      if p(rows[0]) then [rows[0]] + Keep(rows[1..], p)
      else Keep(rows[1..], p)
  }

  /** `updateMany`: every row the filter selects is rewritten, the rest stay. */
  function MapWhere<T>(rows: seq<T>, p: T -> bool, f: T -> T): (r: seq<T>)
    ensures |r| == |rows|
    ensures forall i :: 0 <= i < |rows| ==> r[i] == if p(rows[i]) then f(rows[i]) else rows[i]
  {
    if rows == [] then []
    else [if p(rows[0]) then f(rows[0]) else rows[0]] + MapWhere(rows[1..], p, f)
  }

  /** The number of rows a filter selects (the `count` of a batch update). */
  function CountWhere<T>(rows: seq<T>, p: T -> bool): (n: nat)
    ensures n <= |rows|
    ensures n == 0 <==> forall i :: 0 <= i < |rows| ==> !p(rows[i])
    ensures n == |Keep(rows, p)|
  {
    if rows == [] then 0
    else (if p(rows[0]) then 1 else 0) + CountWhere(rows[1..], p)
  }

  /** The position of the first row the filter selects, as a unique-key lookup
      (`update`, `delete`, `find`) finds it. */
  function FindWhere<T>(rows: seq<T>, p: T -> bool): (r: Option<nat>)
    ensures r.Some? ==> r.value < |rows| && p(rows[r.value])
    ensures r.Some? ==> forall j :: 0 <= j < r.value ==> !p(rows[j])
    ensures r.None? <==> forall j :: 0 <= j < |rows| ==> !p(rows[j])
  {
    if rows == [] then None
    else if p(rows[0]) then Some(0)
    else match FindWhere(rows[1..], p)
      case None => None
      case Some(k) => Some(k + 1)
  }

  /** The table once the row at `i` is deleted. */
  function RemoveAt<T>(rows: seq<T>, i: nat): (r: seq<T>)
    requires i < |rows|
    ensures |r| == |rows| - 1
    ensures forall j :: 0 <= j < i ==> r[j] == rows[j]
    ensures forall j :: i <= j < |r| ==> r[j] == rows[j + 1]
    ensures multiset(r) + multiset{rows[i]} == multiset(rows)
  {
    assert rows == rows[..i] + [rows[i]] + rows[i + 1..];
    rows[..i] + rows[i + 1..]
  }

  /** Rewriting row `k` with a value the filter judges as it judged the old
      row keeps the filtered list row for row: each row in it is kept, or is
      the old row `k` replaced by the new one. */
  lemma {:induction false} KeepReplace<T>(rows: seq<T>, p: T -> bool, k: nat, x: T)
    requires k < |rows| && p(x) == p(rows[k])
    ensures var before, after := Keep(rows, p), Keep(rows[k := x], p);
            |after| == |before|
            && forall i :: 0 <= i < |before| ==> after[i] == before[i] || (before[i] == rows[k] && after[i] == x)
  {
    var r := rows[k := x];
    assert r[1..] == if k == 0 then rows[1..] else rows[1..][k - 1 := x];
    if k > 0 {
      KeepReplace(rows[1..], p, k - 1, x);
    }
  }

  /** No two rows share a key: the primary-key constraint of a table. */
  predicate DistinctKeys<T>(rows: seq<T>, key: T -> RecordId)
  {
    forall i, j :: 0 <= i < j < |rows| ==> key(rows[i]) != key(rows[j])
  }

  /** A create with an unused key keeps the keys distinct. */
  lemma AppendKeepsDistinct<T>(rows: seq<T>, key: T -> RecordId, row: T)
    requires DistinctKeys(rows, key) && forall x :: x in rows ==> key(x) != key(row)
    ensures DistinctKeys(rows + [row], key)
  {
    var r := rows + [row];
    forall i, j | 0 <= i < j < |r|
      ensures key(r[i]) != key(r[j])
    {
      if j == |rows| {
        assert r[i] in rows;
      }
    }
  }

  /** An update that keeps the row's key keeps the keys distinct. */
  lemma ReplaceKeepsDistinct<T>(rows: seq<T>, key: T -> RecordId, k: nat, row: T)
    requires k < |rows| && DistinctKeys(rows, key) && key(row) == key(rows[k])
    ensures DistinctKeys(rows[k := row], key)
  {
    var r := rows[k := row];
    assert forall i :: 0 <= i < |r| ==> key(r[i]) == key(rows[i]);
  }

  /** A delete keeps the keys distinct. */
  lemma RemoveKeepsDistinct<T>(rows: seq<T>, key: T -> RecordId, k: nat)
    requires k < |rows| && DistinctKeys(rows, key)
    ensures DistinctKeys(RemoveAt(rows, k), key)
  {
    var r := RemoveAt(rows, k);
    forall i, j | 0 <= i < j < |r|
      ensures key(r[i]) != key(r[j])
    {
      var i', j' := if i < k then i else i + 1, if j < k then j else j + 1;
      assert r[i] == rows[i'] && r[j] == rows[j'] && i' < j';
    }
  }

  /** A filter that selects nothing leaves a batch update without effect. */
  lemma MapWhereNoMatch<T>(rows: seq<T>, p: T -> bool, f: T -> T)
    requires forall i :: 0 <= i < |rows| ==> !p(rows[i])
    ensures MapWhere(rows, p, f) == rows
  {
    var r := MapWhere(rows, p, f);
    assert forall i :: 0 <= i < |rows| ==> r[i] == rows[i];
  }

  // ---------------------------------------------------------------------------
  // Percentages as the cards compute them, `(n / d) * 100`, over the reals.

  function Min(a: real, b: real): real
  {
    if a <= b then a else b
  }

  function Percent(n: int, d: int): (p: real)
    requires d > 0
    ensures p * (d as real) == (n as real) * 100.0
    ensures n <= d ==> p <= 100.0
    ensures n >= d ==> p >= 100.0
    ensures 0 <= n ==> 0.0 <= p
  {
    PercentScaled(n, d);
    (n as real) / (d as real) * 100.0
  }

  lemma PercentScaled(n: int, d: int)
    requires d > 0
    ensures ((n as real) / (d as real) * 100.0) * (d as real) == (n as real) * 100.0
    ensures n <= d ==> (n as real) / (d as real) * 100.0 <= 100.0
    ensures n >= d ==> (n as real) / (d as real) * 100.0 >= 100.0
    ensures 0 <= n ==> 0.0 <= (n as real) / (d as real) * 100.0
  {
    var q, dr := (n as real) / (d as real), d as real;
    assert q * dr == n as real;
    ScaleMonotone(q, 1.0, dr);
    ScaleMonotone(1.0, q, dr);
    ScaleMonotone(q, 0.0, dr);
  }

  /** Multiplying by a positive factor keeps strict order. */
  lemma ScaleMonotone(a: real, b: real, c: real)
    requires c > 0.0
    ensures a < b ==> a * c < b * c
  {
  }

  /** `Math.min((n / d) * 100, 100)`. */
  function CappedPercent(n: int, d: int): (p: real)
    requires d > 0
    ensures p <= 100.0
    ensures n >= d ==> p == 100.0
    ensures n <= d ==> p == Percent(n, d)
  {
    Min(Percent(n, d), 100.0)
  }

  lemma PercentMonotone(a: int, b: int, d: int)
    requires d > 0 && a <= b
    ensures Percent(a, d) <= Percent(b, d)
  {
    var pa, pb, dr := Percent(a, d), Percent(b, d), d as real;
    assert pa * dr == (a as real) * 100.0;
    assert pb * dr == (b as real) * 100.0;
    assert (a as real) * 100.0 <= (b as real) * 100.0;
  }

  lemma CappedPercentMonotone(a: int, b: int, d: int)
    requires d > 0 && a <= b
    ensures CappedPercent(a, d) <= CappedPercent(b, d)
  {
    PercentMonotone(a, b, d);
  }
}
