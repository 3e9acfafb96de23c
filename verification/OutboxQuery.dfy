/** What `SELECT ... ORDER BY ... LIMIT ... FOR UPDATE SKIP LOCKED` over the
    outbox may return. */
module OutboxQuery {
  import opened Entities

  predicate Due(row: Row, now: real) {
    row.status == RowPending && row.nextAttemptAt <= now
  }

  /** Strict order by (next_attempt_at, created_at); rows may tie. */
  predicate Before(a: Row, b: Row) {
    a.nextAttemptAt < b.nextAttemptAt || (a.nextAttemptAt == b.nextAttemptAt && a.createdAt < b.createdAt)
  }

  function Candidates(table: map<RowId, Row>, locked: set<RowId>, now: real): set<RowId> {
    set r | r in table && r !in locked && Due(table[r], now)
  }

  ghost predicate Distinct(rows: seq<RowId>) {
    forall i, j | 0 <= i < j < |rows| :: rows[i] != rows[j]
  }

  ghost predicate Ordered(table: map<RowId, Row>, rows: seq<RowId>)
    requires forall r | r in rows :: r in table
  {
    forall i, j | 0 <= i < j < |rows| :: !Before(table[rows[j]], table[rows[i]])
  }

  /** `rows` is a possible answer: eligible unlocked rows in order, none twice,
      no more than the limit, and an eligible row is left out only when the
      answer is full and nothing returned orders after it. */
  ghost predicate IsFetch(table: map<RowId, Row>, locked: set<RowId>, now: real, limit: nat, rows: seq<RowId>) {
    && Distinct(rows)
    && |rows| <= limit
    && (forall r | r in rows :: r in Candidates(table, locked, now))
    && Ordered(table, rows)
    && (forall r | r in Candidates(table, locked, now) && r !in rows ::
          |rows| == limit && forall q | q in rows :: !Before(table[r], table[q]))
  }

  /** In the table's own columns: an answer holds each row once, only pending
      rows that are due and unlocked, by next attempt and then by creation. A row
      is left out only when the answer is full, and never for one that comes later. */
  lemma FetchInColumns(table: map<RowId, Row>, locked: set<RowId>, now: real, limit: nat, rows: seq<RowId>)
    requires IsFetch(table, locked, now, limit, rows)
    ensures |rows| <= limit && forall i, j | 0 <= i < j < |rows| :: rows[i] != rows[j]
    ensures forall r | r in rows :: r in table && r !in locked && table[r].status == RowPending
                                    && table[r].nextAttemptAt <= now
    ensures forall i, j | 0 <= i < j < |rows| ::
              || table[rows[i]].nextAttemptAt < table[rows[j]].nextAttemptAt
              || (table[rows[i]].nextAttemptAt == table[rows[j]].nextAttemptAt
                  && table[rows[i]].createdAt <= table[rows[j]].createdAt)
    ensures forall r, q | r in table && r !in locked && table[r].status == RowPending && table[r].nextAttemptAt <= now
                          && r !in rows && q in rows ::
              || table[q].nextAttemptAt < table[r].nextAttemptAt
              || (table[q].nextAttemptAt == table[r].nextAttemptAt && table[q].createdAt <= table[r].createdAt)
    ensures forall r | r in table && r !in locked && table[r].status == RowPending && table[r].nextAttemptAt <= now
                       && r !in rows :: |rows| == limit
  {
    forall r | r in table && r !in locked && table[r].status == RowPending && table[r].nextAttemptAt <= now && r !in rows
      ensures |rows| == limit && forall q | q in rows :: !Before(table[r], table[q])
    {
      assert r in Candidates(table, locked, now);
    }
  }

  function Elements(rows: seq<RowId>): set<RowId> {
    set r | r in rows
  }

  lemma {:induction false} DistinctCardinality(rows: seq<RowId>)
    requires Distinct(rows)
    ensures |Elements(rows)| == |rows|
  {
    if rows != [] {
      var last := |rows| - 1;
      DistinctCardinality(rows[..last]);
      assert Elements(rows) == Elements(rows[..last]) + {rows[last]};
      assert rows[last] !in rows[..last];
    }
  }

  /** The answer has as many rows as the limit allows. */
  lemma FetchSize(table: map<RowId, Row>, locked: set<RowId>, now: real, limit: nat, rows: seq<RowId>)
    requires IsFetch(table, locked, now, limit, rows)
    ensures |rows| == if |Candidates(table, locked, now)| < limit then |Candidates(table, locked, now)| else limit
  {
    var all := Candidates(table, locked, now);
    DistinctCardinality(rows);
    assert Elements(rows) <= all;
    CardinalitySubset(Elements(rows), all);
    if |rows| < limit {
      assert Elements(rows) == all;
    }
  }

  lemma {:induction false} CardinalitySubset<T>(a: set<T>, b: set<T>)
    requires a <= b
    ensures |a| <= |b|
    ensures |a| == |b| ==> a == b
  {
    if a != {} {
      var x :| x in a;
      CardinalitySubset(a - {x}, b - {x});
    } else if |b| == 0 {
      assert b == {};
    }
  }

  /** The specification leaves no freedom but the choice among ties: any two
      answers have the same length and agree on the sort key at every place. */
  lemma FetchIsDeterminedUpToTies(table: map<RowId, Row>, locked: set<RowId>, now: real, limit: nat,
                                  one: seq<RowId>, other: seq<RowId>, k: nat)
    requires IsFetch(table, locked, now, limit, one) && IsFetch(table, locked, now, limit, other)
    requires k < |one|
    ensures |one| == |other| && one[k] in table && other[k] in table
    ensures table[one[k]].nextAttemptAt == table[other[k]].nextAttemptAt
    ensures table[one[k]].createdAt == table[other[k]].createdAt
  {
    assert one[k] in one;
    FetchSize(table, locked, now, limit, one);
    FetchSize(table, locked, now, limit, other);
    assert other[k] in other;
    if Before(table[one[k]], table[other[k]]) {
      NoEarlierRank(table, locked, now, limit, one, other, k);
    }
    if Before(table[other[k]], table[one[k]]) {
      NoEarlierRank(table, locked, now, limit, other, one, k);
    }
  }

  /** Everything `one` returns up to place `k` orders before `other[k]`, so
      `other` would have to return all of it in its first `k` places. */
  lemma NoEarlierRank(table: map<RowId, Row>, locked: set<RowId>, now: real, limit: nat,
                      one: seq<RowId>, other: seq<RowId>, k: nat)
    requires IsFetch(table, locked, now, limit, one) && IsFetch(table, locked, now, limit, other)
    requires k < |one| && k < |other|
    ensures one[k] in one && other[k] in other
    ensures !Before(table[one[k]], table[other[k]])
  {
    assert one[k] in one && other[k] in other;
    if Before(table[one[k]], table[other[k]]) {
      var early := Elements(one[..k + 1]);
      forall r | r in early ensures r in Elements(other[..k]) {
        var i :| 0 <= i <= k && one[i] == r;
        assert !Before(table[one[k]], table[r]);
        assert Before(table[r], table[other[k]]);
        assert r in other;
        var j :| 0 <= j < |other| && other[j] == r;
        assert j < k;
        assert other[..k][j] == r;
      }
      DistinctCardinality(one[..k + 1]);
      DistinctCardinality(other[..k]);
      CardinalitySubset(early, Elements(other[..k]));
    }
  }

  // ---- Answers exist

  /** A complete answer stays one when the limit is raised. */
  lemma FetchComplete(table: map<RowId, Row>, locked: set<RowId>, now: real, limit: nat, rows: seq<RowId>)
    requires limit > 0 && IsFetch(table, locked, now, limit - 1, rows)
    requires |rows| < limit - 1 || Candidates(table, locked, now) <= Elements(rows)
    ensures IsFetch(table, locked, now, limit, rows)
  {
    forall r | r in Candidates(table, locked, now) ensures r in rows {
      assert |rows| == limit - 1 ==> r in Elements(rows);
    }
  }

  /** Some answer of the query exists. */
  lemma {:induction false} FetchExists(table: map<RowId, Row>, locked: set<RowId>, now: real, limit: nat)
    returns (rows: seq<RowId>)
    ensures IsFetch(table, locked, now, limit, rows)
    decreases limit
  {
    if limit == 0 {
      rows := [];
    } else {
      rows := FetchExists(table, locked, now, limit - 1);
      var rest := Candidates(table, locked, now) - Elements(rows);
      if |rows| == limit - 1 && rest != {} {
        var next := Earliest(table, rest);
        FetchOneMore(table, locked, now, limit, rows, next);
        rows := rows + [next];
      } else {
        assert Candidates(table, locked, now) <= Elements(rows) + rest;
        FetchComplete(table, locked, now, limit, rows);
      }
    }
  }

  lemma {:induction false} Earliest(table: map<RowId, Row>, rest: set<RowId>) returns (next: RowId)
    requires rest != {} && rest <= table.Keys
    ensures next in rest && forall r | r in rest :: !Before(table[r], table[next])
    decreases |rest|
  {
    next :| next in rest;
    var others := rest - {next};
    assert rest == others + {next};
    if others != {} {
      var best := Earliest(table, others);
      var some := next;
      next := if Before(table[some], table[best]) then some else best;
      forall r | r in rest ensures !Before(table[r], table[next]) {
        assert r == some || r in others;
      }
    }
  }

  /** Appending the earliest of the rest extends an answer by one. */
  lemma FetchOneMore(table: map<RowId, Row>, locked: set<RowId>, now: real, limit: nat, rows: seq<RowId>, next: RowId)
    requires limit > 0 && IsFetch(table, locked, now, limit - 1, rows) && |rows| == limit - 1
    requires next in Candidates(table, locked, now) - Elements(rows)
    requires forall r | r in Candidates(table, locked, now) - Elements(rows) :: !Before(table[r], table[next])
    ensures IsFetch(table, locked, now, limit, rows + [next])
  {
    var more := rows + [next];
    OneMoreOrdered(table, rows, next);
    forall r | r in Candidates(table, locked, now) && r !in more
      ensures |more| == limit && forall q | q in more :: !Before(table[r], table[q]) {
      assert r in Candidates(table, locked, now) - Elements(rows);
      forall q | q in more ensures !Before(table[r], table[q]) {
        assert q == next || q in rows;
      }
    }
  }

  lemma OneMoreOrdered(table: map<RowId, Row>, rows: seq<RowId>, next: RowId)
    requires next in table && forall r | r in rows :: r in table && r != next && !Before(table[next], table[r])
    requires Distinct(rows) && Ordered(table, rows)
    ensures (forall r | r in rows + [next] :: r in table)
    ensures Distinct(rows + [next]) && Ordered(table, rows + [next])
  {
    var more := rows + [next];
    forall r | r in more ensures r in table {
      assert r == next || r in rows;
    }
    forall i, j | 0 <= i < j < |more| ensures more[i] != more[j] && !Before(table[more[j]], table[more[i]]) {
      assert more[i] in rows;
    }
  }
}
