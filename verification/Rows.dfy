/** Rows of a SCORING message and the order ScoringMessage::createMessage sorts them in
    (the-great-approximator/msg_parser.cpp:366-371): by player id, then by score. */
module Rows {
  datatype Row = Row(id: string, score: int)

  predicate StringLess(a: string, b: string) {
    b != [] && (a == [] || a[0] < b[0] || (a[0] == b[0] && StringLess(a[1..], b[1..])))
  }

  predicate AtMost(a: Row, b: Row) {
    StringLess(a.id, b.id) || (a.id == b.id && a.score <= b.score)
  }

  lemma {:induction false} StringsOrdered(a: string, b: string)
    ensures StringLess(a, b) || a == b || StringLess(b, a)
  {
    if a != [] && b != [] && a[0] == b[0] {
      StringsOrdered(a[1..], b[1..]);
      if a[1..] == b[1..] {
        assert a == [a[0]] + a[1..] && b == [b[0]] + b[1..];
      }
    }
  }

  /** Strings are compared as std::string compares them: a proper prefix comes first, otherwise
      the characters at the first difference decide. */
  ghost predicate ComesFirst(a: string, b: string) {
    || (|a| < |b| && a == b[..|a|])
    || exists k :: 0 <= k < |a| && k < |b| && a[..k] == b[..k] && a[k] < b[k]
  }

  lemma {:induction false} StringOrder(a: string, b: string)
    ensures StringLess(a, b) <==> ComesFirst(a, b)
    decreases |a|
  {
    if a != [] && b != [] && a[0] == b[0] {
      StringOrder(a[1..], b[1..]);
      OrderOfRest(a, b);
    } else if a != [] && b != [] {
      if a[0] < b[0] {
        assert a[..0] == b[..0];
      }
    }
  }

  lemma OrderOfRest(a: string, b: string)
    requires a != [] && b != [] && a[0] == b[0]
    ensures ComesFirst(a[1..], b[1..]) <==> ComesFirst(a, b)
  {
    var x, y := a[1..], b[1..];
    assert a == [a[0]] + x && b == [a[0]] + y;
    if k :| 0 <= k < |x| && k < |y| && x[..k] == y[..k] && x[k] < y[k] {
      assert a[..k + 1] == [a[0]] + x[..k] == [a[0]] + y[..k] == b[..k + 1];
      assert a[k + 1] < b[k + 1];
    }
    if k :| 0 <= k < |a| && k < |b| && a[..k] == b[..k] && a[k] < b[k] {
      assert x[..k - 1] == a[..k][1..] == b[..k][1..] == y[..k - 1];
      assert x[k - 1] < y[k - 1];
    }
    if |a| < |b| && a == b[..|a|] {
      assert x == a[1..] == b[..|a|][1..] == y[..|x|];
    }
    if |x| < |y| && x == y[..|x|] {
      assert a == [a[0]] + x == [a[0]] + y[..|x|] == b[..|a|];
    }
  }

  lemma {:induction false} StringLessTransitive(a: string, b: string, c: string)
    requires StringLess(a, b) && StringLess(b, c)
    ensures StringLess(a, c)
    decreases |a|
  {
    if a != [] && a[0] == b[0] == c[0] {
      StringLessTransitive(a[1..], b[1..], c[1..]);
    }
  }

  ghost predicate Sorted(rows: seq<Row>) {
    forall i, j :: 0 <= i < j < |rows| ==> AtMost(rows[i], rows[j])
  }

  /** Rows are in order of their ids, rows of one id in order of their scores. */
  ghost predicate InOrder(rows: seq<Row>) {
    forall i, j :: 0 <= i < j < |rows| ==>
      if rows[i].id == rows[j].id then rows[i].score <= rows[j].score else ComesFirst(rows[i].id, rows[j].id)
  }

  lemma SortedInOrder(rows: seq<Row>)
    ensures Sorted(rows) <==> InOrder(rows)
  {
    forall i, j | 0 <= i < j < |rows|
      ensures AtMost(rows[i], rows[j]) <==>
              if rows[i].id == rows[j].id then rows[i].score <= rows[j].score else ComesFirst(rows[i].id, rows[j].id)
    {
      StringOrder(rows[i].id, rows[j].id);
      StringOrder(rows[i].id, rows[i].id);
    }
  }

  function InsertRow(rows: seq<Row>, r: Row): seq<Row> {
    if rows == [] || AtMost(r, rows[0]) then [r] + rows
    else [rows[0]] + InsertRow(rows[1..], r)
  }

  function Sort(rows: seq<Row>): (sorted: seq<Row>)
    ensures |sorted| == |rows|
    ensures multiset(sorted) == multiset(rows)
  {
    if rows == [] then []
    else
      InsertKeepsRows(Sort(rows[1..]), rows[0]);
      assert rows == [rows[0]] + rows[1..];
      InsertRow(Sort(rows[1..]), rows[0])
  }

  lemma {:induction false} InsertKeepsRows(rows: seq<Row>, r: Row)
    ensures multiset(InsertRow(rows, r)) == multiset(rows) + multiset{r}
    ensures |InsertRow(rows, r)| == |rows| + 1
  {
    if !(rows == [] || AtMost(r, rows[0])) {
      InsertKeepsRows(rows[1..], r);
      assert rows == [rows[0]] + rows[1..];
    }
  }

  lemma AtMostTransitive(a: Row, b: Row, c: Row)
    requires AtMost(a, b) && AtMost(b, c)
    ensures AtMost(a, c)
  {
    if StringLess(a.id, b.id) && StringLess(b.id, c.id) {
      StringLessTransitive(a.id, b.id, c.id);
    }
  }

  lemma {:induction false} InsertSorted(rows: seq<Row>, r: Row)
    requires Sorted(rows)
    ensures Sorted(InsertRow(rows, r))
  {
    if rows != [] {
      if AtMost(r, rows[0]) {
        forall j | 0 < j < |rows|
          ensures AtMost(r, rows[j])
        {
          AtMostTransitive(r, rows[0], rows[j]);
        }
      } else {
        StringsOrdered(r.id, rows[0].id);
        InsertSorted(rows[1..], r);
        InsertKeepsRows(rows[1..], r);
        var tail := InsertRow(rows[1..], r);
        forall j | 0 <= j < |tail|
          ensures AtMost(rows[0], tail[j])
        {
          assert tail[j] in multiset(tail);
          if tail[j] != r {
            assert tail[j] in multiset(rows[1..]);
          }
        }
      }
    }
  }

  lemma {:induction false} SortOrders(rows: seq<Row>)
    ensures Sorted(Sort(rows))
  {
    if rows != [] {
      SortOrders(rows[1..]);
      InsertSorted(Sort(rows[1..]), rows[0]);
    }
  }

  /** Sorting yields the ordered permutation of the rows. */
  lemma SortSorts(rows: seq<Row>)
    ensures Sorted(Sort(rows)) && InOrder(Sort(rows)) && multiset(Sort(rows)) == multiset(rows)
  {
    SortOrders(rows);
    SortedInOrder(Sort(rows));
  }
}
