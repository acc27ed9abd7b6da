/**
 Relational tables with an autoincrement row id, shared by all sessions: the statements the SQLite backend issues,
 and what they mean for the rows of one session in query order.
 */
module Tables {
  import opened Wrappers
  import opened ProviderModel

  /** A row: its id, its session, the leading ORDER BY column (0 where queries order by id alone), and its other columns. */
  datatype Row<R> = Row(rowId: nat, session: SessionId, position: nat, value: R)

  /** The rows in id order, and the id the next insertion takes. */
  datatype Table<R> = Table(rows: seq<Row<R>>, next: nat)

  // ---- statements ----

  /** `INSERT`. */
  function Insert<R>(t: Table<R>, session: SessionId, position: nat, value: R): Table<R> {
    Table(t.rows + [Row(t.next, session, position, value)], t.next + 1)
  }

  /** The rows a `WHERE session_id = ?` clause picks. */
  function Of<R>(rows: seq<Row<R>>, session: SessionId): seq<Row<R>> {
    if rows == [] then [] else (if rows[0].session == session then [rows[0]] else []) + Of(rows[1..], session)
  }

  function Without<R>(rows: seq<Row<R>>, session: SessionId): seq<Row<R>> {
    if rows == [] then [] else (if rows[0].session == session then [] else [rows[0]]) + Without(rows[1..], session)
  }

  /** `DELETE ... WHERE session_id = ?`; row ids are never reused. */
  function DeleteWhere<R>(t: Table<R>, session: SessionId): Table<R> {
    Table(Without(t.rows, session), t.next)
  }

  /** `UPDATE ... WHERE id = ?`. */
  function SetWhereId<R>(rows: seq<Row<R>>, rowId: nat, change: R -> R): (updated: seq<Row<R>>)
    ensures |updated| == |rows|
    ensures forall i :: 0 <= i < |rows| ==>
      updated[i] == if rows[i].rowId == rowId then rows[i].(value := change(rows[i].value)) else rows[i]
  {
    seq(|rows|, i requires 0 <= i < |rows| =>
      if rows[i].rowId == rowId then rows[i].(value := change(rows[i].value)) else rows[i])
  }

  function Update<R>(t: Table<R>, rowId: nat, change: R -> R): Table<R> {
    Table(SetWhereId(t.rows, rowId, change), t.next)
  }

  predicate Before<R>(a: Row<R>, b: Row<R>) {
    a.position < b.position || (a.position == b.position && a.rowId < b.rowId)
  }

  /** `ORDER BY position ASC, id ASC`. */
  function OrderBy<R>(rows: seq<Row<R>>): seq<Row<R>> {
    if rows == [] then [] else Place(rows[0], OrderBy(rows[1..]))
  }

  function Place<R>(row: Row<R>, sorted: seq<Row<R>>): seq<Row<R>> {
    if sorted == [] || !Before(sorted[0], row) then [row] + sorted else [sorted[0]] + Place(row, sorted[1..])
  }

  function Columns<R>(rows: seq<Row<R>>): (values: seq<R>)
    ensures |values| == |rows| && forall i :: 0 <= i < |rows| ==> values[i] == rows[i].value
  {
    seq(|rows|, i requires 0 <= i < |rows| => rows[i].value)
  }

  /** `SELECT ... WHERE session_id = ? ORDER BY ...`. */
  function Select<R>(t: Table<R>, session: SessionId): seq<R> {
    Columns(OrderBy(Of(t.rows, session)))
  }

  // ---- invariant ----

  ghost predicate InOrder<R>(rows: seq<Row<R>>) {
    forall i, j :: 0 <= i < j < |rows| ==> Before(rows[i], rows[j])
  }

  ghost predicate IdsAscend<R>(rows: seq<Row<R>>) {
    forall i, j :: 0 <= i < j < |rows| ==> rows[i].rowId < rows[j].rowId
  }

  /** Row ids ascend and stay below the counter; each session's rows come in query order. */
  ghost predicate Sound<R>(t: Table<R>) {
    && IdsAscend(t.rows)
    && (forall i :: 0 <= i < |t.rows| ==> t.rows[i].rowId < t.next)
    && (forall s :: InOrder(Of(t.rows, s)))
  }

  lemma {:induction false} OrderByIsIdentity<R>(rows: seq<Row<R>>)
    requires InOrder(rows)
    ensures OrderBy(rows) == rows
  {
    if rows != [] {
      OrderByIsIdentity(rows[1..]);
      if |rows| > 1 { assert Before(rows[0], rows[1]); }
    }
  }

  lemma {:induction false} OfAppend<R>(a: seq<Row<R>>, b: seq<Row<R>>, s: SessionId)
    ensures Of(a + b, s) == Of(a, s) + Of(b, s)
  {
    if a == [] {
      assert a + b == b;
    } else {
      assert (a + b)[1..] == a[1..] + b;
      OfAppend(a[1..], b, s);
      var head, middle, tail := if a[0].session == s then [a[0]] else [], Of(a[1..], s), Of(b, s);
      assert head + (middle + tail) == (head + middle) + tail;
    }
  }

  lemma {:induction false} OfWithout<R>(rows: seq<Row<R>>, gone: SessionId, s: SessionId)
    ensures Of(Without(rows, gone), s) == if s == gone then [] else Of(rows, s)
  {
    if rows != [] {
      OfWithout(rows[1..], gone, s);
      var head, tail := if rows[0].session == gone then [] else [rows[0]], Without(rows[1..], gone);
      OfAppend(head, tail, s);
    }
  }

  /** A row of the selection is a row of the table. */
  lemma {:induction false} OfFrom<R>(rows: seq<Row<R>>, s: SessionId, i: nat) returns (k: nat)
    requires i < |Of(rows, s)|
    ensures k < |rows| && rows[k] == Of(rows, s)[i] && rows[k].session == s
  {
    if rows[0].session == s && i == 0 {
      k := 0;
    } else {
      k := OfFrom(rows[1..], s, if rows[0].session == s then i - 1 else i);
      k := k + 1;
    }
  }

  lemma {:induction false} WithoutFrom<R>(rows: seq<Row<R>>, s: SessionId, i: nat) returns (k: nat)
    requires i < |Without(rows, s)|
    ensures k < |rows| && rows[k] == Without(rows, s)[i]
  {
    if rows[0].session != s && i == 0 {
      k := 0;
    } else {
      k := WithoutFrom(rows[1..], s, if rows[0].session != s then i - 1 else i);
      k := k + 1;
    }
  }

  lemma AscendCons<R>(first: Row<R>, rest: seq<Row<R>>)
    requires IdsAscend(rest) && forall i :: 0 <= i < |rest| ==> first.rowId < rest[i].rowId
    ensures IdsAscend([first] + rest)
  {
  }

  lemma {:induction false} WithoutAscends<R>(rows: seq<Row<R>>, s: SessionId)
    requires IdsAscend(rows)
    ensures IdsAscend(Without(rows, s))
  {
    if rows != [] {
      WithoutAscends(rows[1..], s);
      var rest := Without(rows[1..], s);
      forall i | 0 <= i < |rest| ensures rows[0].rowId < rest[i].rowId {
        var k := WithoutFrom(rows[1..], s, i);
        assert rows[k + 1] == rest[i];
      }
      AscendCons(rows[0], rest);
    }
  }

  lemma {:induction false} OfAscends<R>(rows: seq<Row<R>>, s: SessionId)
    requires IdsAscend(rows)
    ensures IdsAscend(Of(rows, s))
  {
    if rows != [] {
      OfAscends(rows[1..], s);
      var rest := Of(rows[1..], s);
      forall i | 0 <= i < |rest| ensures rows[0].rowId < rest[i].rowId {
        var k := OfFrom(rows[1..], s, i);
        assert rows[k + 1] == rest[i];
      }
      AscendCons(rows[0], rest);
    }
  }

  // ---- what the statements mean for one session ----

  lemma SelectIsOf<R>(t: Table<R>, s: SessionId)
    requires Sound(t)
    ensures Select(t, s) == Columns(Of(t.rows, s))
  {
    OrderByIsIdentity(Of(t.rows, s));
  }

  lemma InsertAppends<R>(t: Table<R>, session: SessionId, position: nat, value: R)
    requires Sound(t)
    requires forall i :: 0 <= i < |Of(t.rows, session)| ==> Of(t.rows, session)[i].position <= position
    ensures var t' := Insert(t, session, position, value);
      && Sound(t')
      && (forall s :: Select(t', s) == Select(t, s) + if s == session then [value] else [])
      && Of(t'.rows, session) == Of(t.rows, session) + [Row(t.next, session, position, value)]
  {
    var t', row := Insert(t, session, position, value), Row(t.next, session, position, value);
    forall s ensures Of(t'.rows, s) == Of(t.rows, s) + if s == session then [row] else [] {
      OfAppend(t.rows, [row], s);
      assert [row][1..] == [];
    }
    forall s ensures InOrder(Of(t'.rows, s)) {
      var mine := Of(t.rows, s);
      forall i | 0 <= i < |mine| ensures mine[i].rowId < t.next {
        var k := OfFrom(t.rows, s, i);
      }
      assert InOrder(mine);
      assert s == session ==> forall i :: 0 <= i < |mine| ==> Before(mine[i], row);
    }
    forall s ensures Select(t', s) == Select(t, s) + if s == session then [value] else [] {
      SelectIsOf(t, s);
      SelectIsOf(t', s);
    }
  }

  lemma DeleteEmpties<R>(t: Table<R>, session: SessionId)
    requires Sound(t)
    ensures var t' := DeleteWhere(t, session);
      && Sound(t')
      && (forall s :: Select(t', s) == if s == session then [] else Select(t, s))
      && Of(t'.rows, session) == []
  {
    var t' := DeleteWhere(t, session);
    forall s ensures Of(t'.rows, s) == if s == session then [] else Of(t.rows, s) {
      OfWithout(t.rows, session, s);
    }
    WithoutAscends(t.rows, session);
    forall i | 0 <= i < |t'.rows| ensures t'.rows[i].rowId < t'.next {
      var k := WithoutFrom(t.rows, session, i);
    }
  }

  lemma {:induction false} OfUpdate<R>(rows: seq<Row<R>>, rowId: nat, change: R -> R, s: SessionId)
    ensures Of(SetWhereId(rows, rowId, change), s) == SetWhereId(Of(rows, s), rowId, change)
  {
    if rows != [] {
      OfUpdate(rows[1..], rowId, change, s);
      assert SetWhereId(rows, rowId, change)[1..] == SetWhereId(rows[1..], rowId, change);
    }
  }

  /** Updating the row at index `i` of a session's rows changes that value alone, in no other session. */
  lemma UpdateChangesOne<R>(t: Table<R>, session: SessionId, i: nat, change: R -> R)
    requires Sound(t) && i < |Of(t.rows, session)|
    ensures var t' := Update(t, Of(t.rows, session)[i].rowId, change);
      && Sound(t')
      && |Select(t, session)| == |Of(t.rows, session)|
      && Select(t', session) == Select(t, session)[i := change(Select(t, session)[i])]
      && (forall s :: s != session ==> Select(t', s) == Select(t, s))
  {
    var mine := Of(t.rows, session);
    var rowId := mine[i].rowId;
    var t' := Update(t, rowId, change);
    forall s ensures Of(t'.rows, s) == SetWhereId(Of(t.rows, s), rowId, change) && InOrder(Of(t'.rows, s)) {
      OfUpdate(t.rows, rowId, change, s);
      assert InOrder(Of(t.rows, s));
    }
    OfAscends(t.rows, session);
    forall j | 0 <= j < |mine| && j != i ensures mine[j].rowId != rowId {
    }
    SelectIsOf(t, session);
    SelectIsOf(t', session);
    forall s | s != session ensures Select(t', s) == Select(t, s) {
      OthersKeepIds(t, session, i, s);
      SelectIsOf(t, s);
      SelectIsOf(t', s);
    }
  }

  lemma OthersKeepIds<R>(t: Table<R>, session: SessionId, i: nat, other: SessionId)
    requires Sound(t) && i < |Of(t.rows, session)| && other != session
    ensures forall j :: 0 <= j < |Of(t.rows, other)| ==> Of(t.rows, other)[j].rowId != Of(t.rows, session)[i].rowId
  {
    var k := OfFrom(t.rows, session, i);
    forall j | 0 <= j < |Of(t.rows, other)| ensures Of(t.rows, other)[j].rowId != Of(t.rows, session)[i].rowId {
      var l := OfFrom(t.rows, other, j);
    }
  }
}
