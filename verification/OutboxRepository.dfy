/**
 Rows of auth_outbox_messages and the statements on them in
 internal/repository/outboxmessages/repository.go. Times are milliseconds on one clock.
 */
module OutboxRepository {
  import opened Wrappers

  type Id = int

  datatype Status = Pending | Processing | Sent | Failed

  datatype Row = Row(
    status: Status, attempts: nat, lastError: string, publishedAt: Option<int>, nextAt: Option<int>,
    createdAt: int, updatedAt: int)

  const LEASE: int := 300_000

  function Created(now: int): Row {
    Row(Pending, 0, "", None, None, now, now)
  }

  function AsProcessing(r: Row, now: int): Row {
    r.(status := Processing, updatedAt := now, nextAt := None)
  }

  function AsSent(r: Row, now: int): Row {
    r.(status := Sent, publishedAt := Some(now), updatedAt := now, lastError := "", nextAt := None)
  }

  function AsFailed(r: Row, error: string, now: int, nextAt: int): Row {
    r.(status := Failed, lastError := error, attempts := r.attempts + 1, updatedAt := now, nextAt := Some(nextAt))
  }

  // The WHERE clause of PickPending.
  predicate Eligible(r: Row, now: int) {
    || r.status == Pending
    || (r.status == Failed && (r.nextAt.None? || r.nextAt.value <= now))
    || (r.status == Processing && r.updatedAt <= now - LEASE)
  }

  // ORDER BY next_attempt_at ASC (nulls last), created_at ASC.
  predicate Before(a: Row, b: Row) {
    if a.nextAt.Some? && b.nextAt.Some? && a.nextAt != b.nextAt then a.nextAt.value < b.nextAt.value
    else if a.nextAt.Some? != b.nextAt.Some? then a.nextAt.Some?
    else a.createdAt < b.createdAt
  }

  // What FOR UPDATE SKIP LOCKED LIMIT may return while others lock `locked`.
  ghost predicate IsPick(rows: map<Id, Row>, locked: set<Id>, now: int, limit: nat, picked: seq<Id>) {
    && |picked| <= limit
    && (forall i, j :: 0 <= i < j < |picked| ==> picked[i] != picked[j])
    && (forall i :: 0 <= i < |picked| ==> picked[i] in rows && picked[i] !in locked && Eligible(rows[picked[i]], now))
    && (forall i, j :: 0 <= i < j < |picked| ==> !Before(rows[picked[j]], rows[picked[i]]))
    && (forall id <- rows :: id !in locked && Eligible(rows[id], now) && id !in picked ==>
          |picked| == limit && forall i :: 0 <= i < |picked| ==> !Before(rows[id], rows[picked[i]]))
  }

  // The moment from which PickPending accepts a row that is not sent.
  function EligibleFrom(r: Row): int
    requires r.status != Sent
  {
    match r.status
    case Pending => r.createdAt
    case Failed => if r.nextAt.None? then r.updatedAt else r.nextAt.value
    case Processing => r.updatedAt + LEASE
  }

  datatype Error = NoAffectedRows | QueryError

  // UPDATE by primary key: the statement fails, finds no row, or rewrites the row it finds.
  function Updated(rows: map<Id, Row>, id: Id, ok: bool, row: Row -> Row): Result<map<Id, Row>, Error> {
    if !ok then Failure(QueryError)
    else if id !in rows then Failure(NoAffectedRows)
    else Success(rows[id := row(rows[id])])
  }

  // An update needs its row, changes no other, and a missing one is an error of its own.
  lemma UpdateNeedsRow(rows: map<Id, Row>, id: Id, ok: bool, row: Row -> Row)
    ensures var r := Updated(rows, id, ok, row);
            && (r.Success? <==> ok && id in rows)
            && (r.Success? ==> r.value.Keys == rows.Keys && r.value[id] == row(rows[id]) && r.value - {id} == rows - {id})
            && (r.Failure? ==> r.error == if ok then NoAffectedRows else QueryError)
  {
  }

  predicate AllIn(ids: seq<Id>, rows: map<Id, Row>) {
    forall i :: 0 <= i < |ids| ==> ids[i] in rows
  }

  // What a worker keeps of a picked row: the pointer's fields it reads later.
  datatype Message = Message(id: Id, attempts: nat)

  /** The repository inside one transaction, on the rows that transaction sees. */
  class Repository {
    var rows: map<Id, Row>

    constructor (rows: map<Id, Row>)
      ensures this.rows == rows
    {
      this.rows := rows;
    }

    // `selected` is the database's answer to the query, None an error.
    method PickPending(selected: Option<seq<Id>>) returns (r: Result<seq<Message>, Error>)
      requires selected.Some? ==> AllIn(selected.value, rows)
      ensures r == if selected.None? then Failure(QueryError) else Success(Copies(rows, selected.value))
    {
      if selected.None? {
        return Failure(QueryError);
      }
      var result: seq<Message> := [];
      for i := 0 to |selected.value|
        invariant |result| == i
        invariant forall j :: 0 <= j < i ==> result[j] == Message(selected.value[j], rows[selected.value[j]].attempts)
      {
        result := result + [Message(selected.value[i], rows[selected.value[i]].attempts)];
      }
      assert result == Copies(rows, selected.value);
      return Success(result);
    }

    method MarkProcessing(id: Id, now: int, ok: bool) returns (err: Option<Error>)
      modifies this
      ensures var r := Updated(old(rows), id, ok, row => AsProcessing(row, now));
              rows == (if r.Success? then r.value else old(rows)) && err == (if r.Success? then None else Some(r.error))
    {
      if !ok { return Some(QueryError); }
      if id !in rows { return Some(NoAffectedRows); }
      rows := rows[id := rows[id].(status := Processing, updatedAt := now, nextAt := None)];
      return None;
    }

    method MarkSent(id: Id, now: int, ok: bool) returns (err: Option<Error>)
      modifies this
      ensures var r := Updated(old(rows), id, ok, row => AsSent(row, now));
              rows == (if r.Success? then r.value else old(rows)) && err == (if r.Success? then None else Some(r.error))
    {
      if !ok { return Some(QueryError); }
      if id !in rows { return Some(NoAffectedRows); }
      rows := rows[id := rows[id].(status := Sent, publishedAt := Some(now), updatedAt := now, lastError := "", nextAt := None)];
      return None;
    }

    method MarkFailed(id: Id, error: string, now: int, nextAt: int, ok: bool) returns (err: Option<Error>)
      modifies this
      ensures var r := Updated(old(rows), id, ok, row => AsFailed(row, error, now, nextAt));
              rows == (if r.Success? then r.value else old(rows)) && err == (if r.Success? then None else Some(r.error))
    {
      if !ok { return Some(QueryError); }
      if id !in rows { return Some(NoAffectedRows); }
      rows := rows[id := rows[id].(
        status := Failed, lastError := error, attempts := rows[id].attempts + 1, updatedAt := now, nextAt := Some(nextAt))];
      return None;
    }
  }

  function Copies(rows: map<Id, Row>, ids: seq<Id>): (ms: seq<Message>)
    requires AllIn(ids, rows)
    ensures |ms| == |ids|
    ensures forall i :: 0 <= i < |ids| ==> ms[i] == Message(ids[i], rows[ids[i]].attempts)
  {
    seq(|ids|, i requires 0 <= i < |ids| => Message(ids[i], rows[ids[i]].attempts))
  }
}
