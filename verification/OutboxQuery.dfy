/**
 The query of PickPending in internal/repository/outboxmessages/repository.go: a way to answer it,
 and what its order and limit mean for one row.
 */
module OutboxQuery {
  import opened OutboxRepository

  // The rows the query may lock.
  function Due(rows: map<Id, Row>, locked: set<Id>, now: int): set<Id> {
    set id <- rows.Keys | id !in locked && Eligible(rows[id], now)
  }

  predicate Known(rows: map<Id, Row>, ids: set<Id>) { ids <= rows.Keys }

  // Those ordered before the row, and those not ordered after it (ties included).
  function InFront(rows: map<Id, Row>, due: set<Id>, id: Id): set<Id>
    requires Known(rows, due) && id in rows
  {
    set k <- due | Before(rows[k], rows[id])
  }

  function NotBehind(rows: map<Id, Row>, due: set<Id>, id: Id): set<Id>
    requires Known(rows, due) && id in rows
  {
    set k <- due | k != id && !Before(rows[id], rows[k])
  }

  // The order of the query is a weak one: being not after is transitive.
  lemma NotAfterIsTransitive(a: Row, b: Row, c: Row)
    requires !Before(b, a) && !Before(c, b)
    ensures !Before(c, a) && !Before(a, a)
  {
  }

  function Elements(ids: seq<Id>): set<Id> { set i | 0 <= i < |ids| :: ids[i] }

  lemma {:induction false} DistinctSize(ids: seq<Id>)
    requires forall i, j :: 0 <= i < j < |ids| ==> ids[i] != ids[j]
    ensures |Elements(ids)| == |ids|
  {
    if ids != [] {
      var init, last := ids[..|ids| - 1], ids[|ids| - 1];
      DistinctSize(init);
      assert Elements(ids) == Elements(init) + {last};
      assert last !in Elements(init);
    }
  }

  lemma {:induction false} SubsetSize<T>(a: set<T>, b: set<T>)
    requires a <= b
    ensures |a| <= |b|
  {
    if |a| > 0 {
      var x :| x in a;
      SubsetSize(a - {x}, b - {x});
    }
  }

  // A row that is due is picked if fewer than `limit` due rows are not ordered after it, and only
  // if fewer than `limit` are ordered before it; between the two lie the ties.
  lemma PickedUnlessCrowdedOut(rows: map<Id, Row>, locked: set<Id>, now: int, limit: nat, picked: seq<Id>, id: Id)
    requires IsPick(rows, locked, now, limit, picked)
    requires id in Due(rows, locked, now)
    ensures |NotBehind(rows, Due(rows, locked, now), id)| < limit ==> id in picked
    ensures id in picked ==> |InFront(rows, Due(rows, locked, now), id)| < limit
  {
    var due := Due(rows, locked, now);
    if id in picked {
      var i :| 0 <= i < |picked| && picked[i] == id;
      forall k | k in InFront(rows, due, id) ensures k in Elements(picked[..i]) {
        var j :| 0 <= j < |picked| && picked[j] == k;
        NotAfterIsTransitive(rows[id], rows[id], rows[id]);
        assert picked[..i][j] == k;
      }
      DistinctSize(picked[..i]);
      SubsetSize(InFront(rows, due, id), Elements(picked[..i]));
    } else {
      DistinctSize(picked);
      SubsetSize(Elements(picked), NotBehind(rows, due, id));
    }
  }

  // The earlier next attempt comes first and a row without one comes last; among equal ones the
  // row created earlier comes first.
  predicate InOrder(a: Row, b: Row) {
    && (b.nextAt.Some? ==> a.nextAt.Some? && a.nextAt.value <= b.nextAt.value)
    && (a.nextAt == b.nextAt ==> a.createdAt <= b.createdAt)
  }

  // A pick is in order, and every due row it passes over comes in order after all of it.
  lemma PickIsInOrder(rows: map<Id, Row>, locked: set<Id>, now: int, limit: nat, picked: seq<Id>)
    requires IsPick(rows, locked, now, limit, picked)
    ensures forall i, j :: 0 <= i < j < |picked| ==> InOrder(rows[picked[i]], rows[picked[j]])
    ensures forall i, id :: 0 <= i < |picked| && id in Due(rows, locked, now) && id !in picked ==> InOrder(rows[picked[i]], rows[id])
  {
  }

  // A pick takes as many rows as are due, up to the limit, and each was due.
  lemma PickIsFull(rows: map<Id, Row>, locked: set<Id>, now: int, limit: nat, picked: seq<Id>)
    requires IsPick(rows, locked, now, limit, picked)
    ensures Elements(picked) <= Due(rows, locked, now)
    ensures |picked| == if |Due(rows, locked, now)| < limit then |Due(rows, locked, now)| else limit
  {
    var due := Due(rows, locked, now);
    DistinctSize(picked);
    SubsetSize(Elements(picked), due);
    if |picked| < limit {
      assert due <= Elements(picked) by {
        forall id | id in due ensures id in Elements(picked) {
          var i :| 0 <= i < |picked| && picked[i] == id;
        }
      }
      SubsetSize(due, Elements(picked));
    }
  }

  method AnyOf<T(==)>(s: set<T>) returns (x: T)
    requires |s| > 0
    ensures x in s
  {
    x :| x in s;
  }

  // A due row no other precedes.
  method Earliest(rows: map<Id, Row>, due: set<Id>) returns (id: Id)
    requires Known(rows, due) && |due| > 0
    ensures id in due && forall k <- due :: !Before(rows[k], rows[id])
  {
    id := AnyOf(due);
    var left := due - {id};
    while |left| > 0
      invariant id in due && left <= due
      invariant forall k <- due - left :: !Before(rows[k], rows[id])
      decreases |left|
    {
      var k := AnyOf(left);
      left := left - {k};
      if Before(rows[k], rows[id]) {
        forall x | x in due - left ensures !Before(rows[x], rows[k]) {
          if x != k { NotAfterIsTransitive(rows[k], rows[id], rows[x]); }
        }
        id := k;
      }
    }
  }

  // An answer of the query: whatever the table, the locks and the limit, there is one.
  method SelectForLock(rows: map<Id, Row>, locked: set<Id>, now: int, limit: nat) returns (picked: seq<Id>)
    ensures IsPick(rows, locked, now, limit, picked)
  {
    picked := [];
    var left := Due(rows, locked, now);
    while |picked| < limit && |left| > 0
      invariant |picked| <= limit && left <= Due(rows, locked, now)
      invariant forall i :: 0 <= i < |picked| ==> picked[i] in Due(rows, locked, now) && picked[i] !in left
      invariant forall id <- Due(rows, locked, now) :: id in left || id in picked
      invariant forall i, j :: 0 <= i < j < |picked| ==> picked[i] != picked[j]
      invariant forall i, j :: 0 <= i < j < |picked| ==> !Before(rows[picked[j]], rows[picked[i]])
      invariant forall i, id :: 0 <= i < |picked| && id in left ==> !Before(rows[id], rows[picked[i]])
      decreases |left|
    {
      var id := Earliest(rows, left);
      picked := picked + [id];
      left := left - {id};
    }
  }
}
