/**
 The ledger as the page sees it: the rows of the `transactions` table, the
 query that fetches one user's rows, and the income and expense totals the
 page derives from them by filtering on the type and summing the amounts.
 Amounts are integer cents.
 */
module Ledger {

  const Income := "income"
  const Expense := "expense"

  /** One row of the `transactions` table. `kind` is the `type` column; it is
      whatever the edge function inserted, so it is not restricted here. */
  datatype Row = Row(
    id: string,
    userId: string,
    kind: string,
    amount: int,
    category: string,
    description: string,
    createdAt: int)

  /** `rows.filter(t => t.type === kind)`: the rows of that type, in order. */
  function OfKind(rows: seq<Row>, kind: string): (r: seq<Row>)
    ensures |r| <= |rows|
    ensures forall i :: 0 <= i < |r| ==> r[i].kind == kind
    ensures forall x :: x in r <==> x in rows && x.kind == kind
  {
    if |rows| == 0 then []
    else
      var last := rows[|rows| - 1];
      OfKind(rows[..|rows| - 1], kind) + (if last.kind == kind then [last] else [])
  }

  /** Every row of the type is kept as many times as it occurs, and no
      other row is kept. */
  lemma {:induction false} OfKindCounts(rows: seq<Row>, kind: string)
    ensures forall x :: multiset(OfKind(rows, kind))[x] == (if x.kind == kind then multiset(rows)[x] else 0)
    decreases |rows|
  {
    if |rows| > 0 {
      var prefix, last := rows[..|rows| - 1], rows[|rows| - 1];
      assert rows == prefix + [last];
      OfKindCounts(prefix, kind);
    }
  }

  /** A single row is kept exactly when its type matches. */
  lemma OfKindSingle(x: Row, kind: string)
    ensures OfKind([x], kind) == (if x.kind == kind then [x] else [])
  {
    assert [x][..0] == [];
  }

  /** `rows.reduce((sum, t) => sum + Number(t.amount), 0)`: a left fold. */
  function SumAmounts(rows: seq<Row>): int
  {
    if |rows| == 0 then 0 else SumAmounts(rows[..|rows| - 1]) + rows[|rows| - 1].amount
  }

  /** Filter-and-sum over one type. */
  function Total(rows: seq<Row>, kind: string): int
  {
    SumAmounts(OfKind(rows, kind))
  }

  function TotalIncome(rows: seq<Row>): int
  {
    Total(rows, Income)
  }

  function TotalExpense(rows: seq<Row>): int
  {
    Total(rows, Expense)
  }

  /** What one row adds to the total of a type. */
  function Share(r: Row, kind: string): int
  {
    if r.kind == kind then r.amount else 0
  }

  /** Filtering one more row appends it exactly when its type matches. */
  lemma OfKindSnoc(s: seq<Row>, x: Row, kind: string)
    ensures OfKind(s + [x], kind) == OfKind(s, kind) + (if x.kind == kind then [x] else [])
  {
    assert (s + [x])[..|s|] == s;
  }

  /** Filtering distributes over concatenation, so it keeps the order. */
  lemma {:induction false} OfKindAppend(a: seq<Row>, b: seq<Row>, kind: string)
    ensures OfKind(a + b, kind) == OfKind(a, kind) + OfKind(b, kind)
    decreases |b|
  {
    if |b| > 0 {
      var b', last := b[..|b| - 1], b[|b| - 1];
      assert b == b' + [last];
      assert a + b == (a + b') + [last];
      OfKindSnoc(a + b', last, kind);
      OfKindSnoc(b', last, kind);
      OfKindAppend(a, b', kind);
    } else {
      assert a + b == a;
    }
  }

  lemma {:induction false} SumAppend(a: seq<Row>, b: seq<Row>)
    ensures SumAmounts(a + b) == SumAmounts(a) + SumAmounts(b)
    decreases |b|
  {
    if |b| > 0 {
      var b' := b[..|b| - 1];
      assert (a + b)[..|a + b| - 1] == a + b';
      assert (a + b)[|a + b| - 1] == b[|b| - 1];
      SumAppend(a, b');
    } else {
      assert a + b == a;
    }
  }

  /** The total of a concatenation is the sum of the totals. */
  lemma TotalAppend(a: seq<Row>, b: seq<Row>, kind: string)
    ensures Total(a + b, kind) == Total(a, kind) + Total(b, kind)
  {
    OfKindAppend(a, b, kind);
    SumAppend(OfKind(a, kind), OfKind(b, kind));
  }

  /** Adding one row changes the total of a type by exactly that row's
      share: its amount when the type matches, nothing otherwise. */
  lemma TotalSnoc(rows: seq<Row>, r: Row, kind: string)
    ensures Total(rows + [r], kind) == Total(rows, kind) + Share(r, kind)
  {
    TotalAppend(rows, [r], kind);
    TotalSingle(r, kind);
  }

  lemma TotalCons(r: Row, rows: seq<Row>, kind: string)
    ensures Total([r] + rows, kind) == Share(r, kind) + Total(rows, kind)
  {
    TotalAppend([r], rows, kind);
    TotalSingle(r, kind);
  }

  lemma TotalSingle(r: Row, kind: string)
    ensures Total([r], kind) == Share(r, kind)
  {
    assert [r][..0] == [];
    var f := OfKind([r], kind);
    assert f == (if r.kind == kind then [r] else []);
    if r.kind == kind {
      assert f[..0] == [];
      assert SumAmounts(f) == SumAmounts([]) + r.amount;
    }
  }

  /** A row whose type is neither "income" nor "expense" counts toward
      neither total. */
  lemma OtherKindsIgnored(rows: seq<Row>, r: Row)
    requires r.kind != Income && r.kind != Expense
    ensures TotalIncome(rows + [r]) == TotalIncome(rows)
    ensures TotalExpense(rows + [r]) == TotalExpense(rows)
  {
    TotalSnoc(rows, r, Income);
    TotalSnoc(rows, r, Expense);
  }

  /** The totals of an empty (or `null`, read as empty) result are zero. */
  lemma EmptyTotals()
    ensures TotalIncome([]) == 0 && TotalExpense([]) == 0
  {
  }

  /** The totals do not depend on the order of the rows. */
  lemma {:induction false} TotalPermutation(a: seq<Row>, b: seq<Row>, kind: string)
    requires multiset(a) == multiset(b)
    ensures Total(a, kind) == Total(b, kind)
    decreases |a|
  {
    if |a| == 0 {
      assert |b| == |multiset(b)| == 0;
    } else {
      var x, a' := a[|a| - 1], a[..|a| - 1];
      var k := PeelLast(a, b);
      TotalPermutation(a', Without(b, k), kind);
      TotalLast(a, kind);
      TotalWithout(b, k, kind);
    }
  }

  /** The total of a non-empty list is that of all but its last row plus
      the last row's share. */
  lemma TotalLast(a: seq<Row>, kind: string)
    requires |a| > 0
    ensures Total(a, kind) == Total(a[..|a| - 1], kind) + Share(a[|a| - 1], kind)
  {
    assert a == a[..|a| - 1] + [a[|a| - 1]];
    TotalSnoc(a[..|a| - 1], a[|a| - 1], kind);
  }

  /** The last row of `a` sits at some position `k` of its permutation `b`,
      and what remains of each is again a permutation. */
  lemma PeelLast(a: seq<Row>, b: seq<Row>) returns (k: nat)
    requires |a| > 0 && multiset(a) == multiset(b)
    ensures k < |b| && b[k] == a[|a| - 1]
    ensures multiset(a[..|a| - 1]) == multiset(Without(b, k))
  {
    var x := a[|a| - 1];
    assert a == a[..|a| - 1] + [x];
    assert x in multiset(b);
    k :| 0 <= k < |b| && b[k] == x;
  }

  /** `s` without its element at `k`. */
  function Without(s: seq<Row>, k: nat): (r: seq<Row>)
    requires k < |s|
    ensures multiset(r) == multiset(s) - multiset{s[k]}
  {
    assert s == s[..k] + [s[k]] + s[k + 1..];
    s[..k] + s[k + 1..]
  }

  /** Taking one row out lowers a total by that row's share. */
  lemma TotalWithout(s: seq<Row>, k: nat, kind: string)
    requires k < |s|
    ensures Total(s, kind) == Total(Without(s, k), kind) + Share(s[k], kind)
  {
    assert s == (s[..k] + [s[k]]) + s[k + 1..];
    TotalAppend(s[..k] + [s[k]], s[k + 1..], kind);
    TotalSnoc(s[..k], s[k], kind);
    TotalAppend(s[..k], s[k + 1..], kind);
  }

  /** With non-negative amounts the totals are non-negative. Nothing in the
      edge function enforces this: the amount is whatever the AI returned. */
  lemma {:induction false} TotalNonNegative(rows: seq<Row>, kind: string)
    requires forall i :: 0 <= i < |rows| ==> rows[i].amount >= 0
    ensures Total(rows, kind) >= 0
    decreases |rows|
  {
    if |rows| > 0 {
      TotalNonNegative(rows[..|rows| - 1], kind);
      TotalSnoc(rows[..|rows| - 1], rows[|rows| - 1], kind);
      assert rows == rows[..|rows| - 1] + [rows[|rows| - 1]];
    }
  }

  /** Both totals in one pass over the rows. */
  method Summarize(rows: seq<Row>) returns (income: int, expense: int)
    ensures income == TotalIncome(rows) && expense == TotalExpense(rows)
  {
    income, expense := 0, 0;
    var i := 0;
    while i < |rows|
      invariant 0 <= i <= |rows|
      invariant income == TotalIncome(rows[..i])
      invariant expense == TotalExpense(rows[..i])
    {
      PrefixStep(rows, i);
      if rows[i].kind == Income {
        income := income + rows[i].amount;
      } else if rows[i].kind == Expense {
        expense := expense + rows[i].amount;
      }
      i := i + 1;
    }
    assert rows[..i] == rows;
  }

  /** Extending a prefix by one row adds that row's shares. */
  lemma PrefixStep(rows: seq<Row>, i: nat)
    requires i < |rows|
    ensures TotalIncome(rows[..i + 1]) == TotalIncome(rows[..i]) + Share(rows[i], Income)
    ensures TotalExpense(rows[..i + 1]) == TotalExpense(rows[..i]) + Share(rows[i], Expense)
  {
    assert rows[..i + 1] == rows[..i] + [rows[i]];
    TotalSnoc(rows[..i], rows[i], Income);
    TotalSnoc(rows[..i], rows[i], Expense);
  }

  // ---------------------------------------------------------------------
  // The page's query over an append-only table

  /** The table in insertion order: `created_at` never decreases. */
  predicate Chronological(table: seq<Row>) {
    forall i, j :: 0 <= i < j < |table| ==> table[i].createdAt <= table[j].createdAt
  }

  /** Ordered by `created_at`, newest first. */
  predicate NewestFirst(rows: seq<Row>) {
    forall i, j :: 0 <= i < j < |rows| ==> rows[i].createdAt >= rows[j].createdAt
  }

  /** `select * from transactions where user_id = uid order by created_at
      desc`, over a table kept in insertion order. */
  function Select(table: seq<Row>, uid: string): (r: seq<Row>)
    ensures forall i :: 0 <= i < |r| ==> r[i].userId == uid
    ensures forall x :: x in r <==> x in table && x.userId == uid
  {
    if |table| == 0 then []
    else
      var last := table[|table| - 1];
      (if last.userId == uid then [last] else []) + Select(table[..|table| - 1], uid)
  }

  /** Each of the user's rows is listed as many times as it is stored, and
      no other row is listed. */
  lemma {:induction false} SelectCounts(table: seq<Row>, uid: string)
    ensures forall x :: multiset(Select(table, uid))[x] == (if x.userId == uid then multiset(table)[x] else 0)
    decreases |table|
  {
    if |table| > 0 {
      var prefix, last := table[..|table| - 1], table[|table| - 1];
      assert table == prefix + [last];
      SelectCounts(prefix, uid);
    }
  }

  /** Over a table in insertion order the listing is newest first. */
  lemma {:induction false} SelectNewestFirst(table: seq<Row>, uid: string)
    requires Chronological(table)
    ensures NewestFirst(Select(table, uid))
    decreases |table|
  {
    if |table| > 0 {
      var last := table[|table| - 1];
      var prefix := table[..|table| - 1];
      var rest := Select(prefix, uid);
      assert Chronological(prefix);
      SelectNewestFirst(prefix, uid);
      if last.userId == uid {
        forall x | x in rest
          ensures x.createdAt <= last.createdAt
        {
          var k :| 0 <= k < |prefix| && prefix[k] == x;
          assert table[k] == x;
        }
        NewestFirstCons(last, rest);
      }
    }
  }

  /** A row no older than any row of a newest-first list may head it. */
  lemma NewestFirstCons(x: Row, rest: seq<Row>)
    requires NewestFirst(rest)
    requires forall y :: y in rest ==> y.createdAt <= x.createdAt
    ensures NewestFirst([x] + rest)
  {
    var r := [x] + rest;
    forall i, j | 0 <= i < j < |r|
      ensures r[i].createdAt >= r[j].createdAt
    {
      assert r[j] == rest[j - 1];
      if i > 0 {
        assert r[i] == rest[i - 1];
      }
    }
  }

  /** Inserting a row for the user puts it at the head of the user's
      listing, once, and leaves every other user's listing as it was. */
  lemma SelectAfterInsert(table: seq<Row>, r: Row, uid: string)
    ensures r.userId == uid ==> Select(table + [r], uid) == [r] + Select(table, uid)
    ensures r.userId != uid ==> Select(table + [r], uid) == Select(table, uid)
  {
    assert (table + [r])[..|table|] == table;
  }

  /** After an insert for the user, the re-fetched totals grow by exactly the
      new row's share; an "income" of 2000 raises income, and so the balance,
      by 2000. */
  lemma TotalsAfterInsert(table: seq<Row>, r: Row)
    ensures TotalIncome(Select(table + [r], r.userId)) == TotalIncome(Select(table, r.userId)) + Share(r, Income)
    ensures TotalExpense(Select(table + [r], r.userId)) == TotalExpense(Select(table, r.userId)) + Share(r, Expense)
  {
    SelectAfterInsert(table, r, r.userId);
    TotalCons(r, Select(table, r.userId), Income);
    TotalCons(r, Select(table, r.userId), Expense);
  }
}
