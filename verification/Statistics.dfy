/** The usage queries: aggregates over usage_logs, and how the per-token figures
    add up to the global ones. */
module Statistics {
  import opened Prelude
  import opened Database
  import opened Integrity

  datatype Stats = Stats(input: int, output: int, cacheCreation: int, cacheRead: int, requests: int)

  function Zero(): Stats { Stats(0, 0, 0, 0, 0) }

  function Add(a: Stats, b: Stats): Stats {
    Stats(a.input + b.input, a.output + b.output, a.cacheCreation + b.cacheCreation,
          a.cacheRead + b.cacheRead, a.requests + b.requests)
  }

  function OfLog(l: UsageLog): Stats {
    Stats(l.input, l.output, l.cacheCreation, l.cacheRead, 1)
  }

  /** The WHERE clauses of the three wrappers. */
  datatype Where = Since(since: Time) | SinceFor(column: Column, id: Id, since: Time)

  predicate Matches(w: Where, r: LogRow) {
    r.createdAt >= w.since && (w.SinceFor? ==> LogKey(w.column, r.log) == w.id)
  }

  /** What one row adds to a query. */
  function Counted(w: Where, r: LogRow): Stats {
    if Matches(w, r) then OfLog(r.log) else Zero()
  }

  /** The SELECT of queryUsageStats. */
  function Query(rows: seq<LogRow>, w: Where): Stats {
    if rows == [] then Zero() else Add(Counted(w, rows[0]), Query(rows[1..], w))
  }

  /** The selected expressions: the sum of a column, or a count. */
  datatype Selected = Input | Output | CacheCreation | CacheRead | Requests

  function Cell(e: Selected, l: UsageLog): int {
    match e
    case Input => l.input
    case Output => l.output
    case CacheCreation => l.cacheCreation
    case CacheRead => l.cacheRead
    case Requests => 1
  }

  /** One SUM over the rows that match. */
  function SumOf(rows: seq<LogRow>, w: Where, e: Selected): int {
    if rows == [] then 0
    else (if Matches(w, rows[0]) then Cell(e, rows[0].log) else 0) + SumOf(rows[1..], w, e)
  }

  function Figure(s: Stats, e: Selected): int {
    match e
    case Input => s.input
    case Output => s.output
    case CacheCreation => s.cacheCreation
    case CacheRead => s.cacheRead
    case Requests => s.requests
  }

  lemma FigureAdds(w: Where, r: LogRow, rest: Stats, e: Selected)
    ensures Figure(Zero(), e) == 0
    ensures Figure(Add(Counted(w, r), rest), e) == (if Matches(w, r) then Cell(e, r.log) else 0) + Figure(rest, e)
  {
  }

  /** Each figure is the SUM of its own column, and the last is COUNT(*). */
  lemma {:induction false} FigureIsSum(rows: seq<LogRow>, w: Where, e: Selected)
    ensures Figure(Query(rows, w), e) == SumOf(rows, w, e)
  {
    if rows == [] {
      assert Query(rows, w) == Zero();
    } else {
      FigureIsSum(rows[1..], w, e);
      FigureAdds(w, rows[0], Query(rows[1..], w), e);
      assert Query(rows, w) == Add(Counted(w, rows[0]), Query(rows[1..], w));
    }
  }

  function GlobalStats(db: Database, since: Time): Stats {
    Query(db.logs, Since(since))
  }

  function TokenStats(db: Database, c: Column, id: Id, since: Time): Stats {
    Query(db.logs, SinceFor(c, id, since))
  }

  /** The sum of the per-token figures over a listing of tokens. */
  function SumOver(rows: seq<LogRow>, c: Column, ids: seq<Id>, since: Time): Stats {
    if ids == [] then Zero()
    else Add(Query(rows, SinceFor(c, ids[0], since)), SumOver(rows, c, ids[1..], since))
  }

  ghost predicate Distinct(ids: seq<Id>) {
    ids == [] || (ids[0] !in ids[1..] && Distinct(ids[1..]))
  }

  /** A listing of a table: every key once, in any order. */
  ghost predicate Lists(ids: seq<Id>, keys: set<Id>) {
    Distinct(ids) && forall id :: id in ids <==> id in keys
  }

  lemma {:induction false} SumOfNoRows(c: Column, ids: seq<Id>, since: Time)
    ensures SumOver([], c, ids, since) == Zero()
  {
    if ids != [] {
      SumOfNoRows(c, ids[1..], since);
    }
  }

  /** What one row adds to the figures of the listed tokens together. */
  function Share(r: LogRow, c: Column, ids: seq<Id>, since: Time): Stats {
    if LogKey(c, r.log) in ids && r.createdAt >= since then OfLog(r.log) else Zero()
  }

  lemma ShareSplits(r: LogRow, c: Column, ids: seq<Id>, since: Time)
    requires ids != [] && Distinct(ids)
    ensures Share(r, c, ids, since) ==
      Add(Counted(SinceFor(c, ids[0], since), r), Share(r, c, ids[1..], since))
  {
    assert LogKey(c, r.log) in ids <==> LogKey(c, r.log) == ids[0] || LogKey(c, r.log) in ids[1..] by {
      assert ids == [ids[0]] + ids[1..];
    }
  }

  lemma AddInterchange(a: Stats, b: Stats, c: Stats, d: Stats)
    ensures Add(Add(a, b), Add(c, d)) == Add(Add(a, c), Add(b, d))
  {
  }

  /** The first row is counted for exactly one listed token, or for none. */
  lemma {:induction false} SumPeelsRow(rows: seq<LogRow>, c: Column, ids: seq<Id>, since: Time)
    requires rows != [] && Distinct(ids)
    ensures SumOver(rows, c, ids, since) == Add(Share(rows[0], c, ids, since), SumOver(rows[1..], c, ids, since))
  {
    if ids != [] {
      var tail, rest, w := rows[1..], ids[1..], SinceFor(c, ids[0], since);
      SumPeelsRow(rows, c, rest, since);
      ShareSplits(rows[0], c, ids, since);
      AddInterchange(Counted(w, rows[0]), Query(tail, w),
                     Share(rows[0], c, rest, since), SumOver(tail, c, rest, since));
      assert SumOver(rows, c, ids, since) == Add(Query(rows, w), SumOver(rows, c, rest, since));
      assert SumOver(tail, c, ids, since) == Add(Query(tail, w), SumOver(tail, c, rest, since));
    } else {
      assert SumOver(rows, c, ids, since) == Zero();
      assert SumOver(rows[1..], c, ids, since) == Zero();
      assert Share(rows[0], c, ids, since) == Zero();
    }
  }

  /** A row of a listed token is counted as often as the global query counts it. */
  lemma ListedShare(r: LogRow, c: Column, ids: seq<Id>, since: Time)
    requires LogKey(c, r.log) in ids
    ensures Share(r, c, ids, since) == Counted(Since(since), r)
  {
  }

  lemma {:induction false} RowsPartition(rows: seq<LogRow>, c: Column, ids: seq<Id>, since: Time)
    requires Distinct(ids)
    requires forall i :: 0 <= i < |rows| ==> LogKey(c, rows[i].log) in ids
    ensures SumOver(rows, c, ids, since) == Query(rows, Since(since))
  {
    if rows == [] {
      SumOfNoRows(c, ids, since);
      assert Query(rows, Since(since)) == Zero();
    } else {
      var tail := rows[1..];
      SumPeelsRow(rows, c, ids, since);
      ListedShare(rows[0], c, ids, since);
      forall i | 0 <= i < |tail|
        ensures LogKey(c, tail[i].log) in ids
      {
        assert tail[i] == rows[i + 1];
      }
      RowsPartition(tail, c, ids, since);
    }
  }

  /** In every reachable database, for either kind of token, any cut-off and any
      listing order, the per-token figures add up to the global ones in all five fields. */
  lemma StatisticsPartition(ops: seq<Op>, c: Column, ids: seq<Id>, since: Time)
    requires Lists(ids, TableKeys(Run(Empty(), ops), c))
    ensures SumOver(Run(Empty(), ops).logs, c, ids, since) == GlobalStats(Run(Empty(), ops), since)
  {
    RunKeepsIntegrity(Empty(), ops);
    var db := Run(Empty(), ops);
    forall i | 0 <= i < |db.logs|
      ensures LogKey(c, db.logs[i].log) in ids
    {
      assert References(db, db.logs[i].log);
    }
    RowsPartition(db.logs, c, ids, since);
  }

  // ------------------------------------------------------- what a batch adds, and when

  /** The entries of one token. */
  function EntriesFor(ls: seq<UsageLog>, c: Column, id: Id): seq<UsageLog> {
    if ls == [] then []
    else (if LogKey(c, ls[0]) == id then [ls[0]] else []) + EntriesFor(ls[1..], c, id)
  }

  /** What entries amount to: the sums of their columns, and how many they are. */
  function Amounts(ls: seq<UsageLog>): Stats {
    if ls == [] then Zero() else Add(OfLog(ls[0]), Amounts(ls[1..]))
  }

  lemma {:induction false} AmountsCount(ls: seq<UsageLog>)
    ensures Amounts(ls).requests == |ls|
  {
    if ls != [] {
      AmountsCount(ls[1..]);
    }
  }

  /** The entries that a query selects. */
  function Matching(rows: seq<LogRow>, w: Where): seq<UsageLog> {
    if rows == [] then []
    else (if Matches(w, rows[0]) then [rows[0].log] else []) + Matching(rows[1..], w)
  }

  lemma AmountsCons(l: UsageLog, rest: seq<UsageLog>)
    ensures Amounts([l] + rest) == Add(OfLog(l), Amounts(rest))
  {
    assert ([l] + rest)[1..] == rest;
  }

  lemma ZeroAdds(a: Stats)
    ensures Add(Zero(), a) == a && Add(a, Zero()) == a
  {
  }

  lemma QueryPeels(rows: seq<LogRow>, w: Where)
    requires rows != []
    ensures Query(rows, w) == Add(Counted(w, rows[0]), Query(rows[1..], w))
  {
  }

  lemma MatchingPeels(rows: seq<LogRow>, w: Where)
    requires rows != []
    ensures Matching(rows, w) == if Matches(w, rows[0]) then [rows[0].log] + Matching(rows[1..], w)
                                 else Matching(rows[1..], w)
  {
  }

  lemma OneMoreMatches(w: Where, r: LogRow, sum: Stats, rest: seq<UsageLog>)
    requires sum == Amounts(rest)
    ensures Add(Counted(w, r), sum) == Amounts(if Matches(w, r) then [r.log] + rest else rest)
  {
    AmountsCons(r.log, rest);
    ZeroAdds(sum);
  }

  lemma {:induction false} MatchingAmounts(rows: seq<LogRow>, w: Where)
    ensures Query(rows, w) == Amounts(Matching(rows, w))
  {
    if rows == [] {
      assert Query(rows, w) == Zero() && Matching(rows, w) == [] && Amounts([]) == Zero();
    } else {
      var sum, rest := Query(rows[1..], w), Matching(rows[1..], w);
      MatchingAmounts(rows[1..], w);
      QueryPeels(rows, w);
      MatchingPeels(rows, w);
      OneMoreMatches(w, rows[0], sum, rest);
    }
  }

  lemma AddLaws(a: Stats, b: Stats, c: Stats)
    ensures Add(Zero(), a) == a == Add(a, Zero()) && Add(a, Add(b, c)) == Add(Add(a, b), c)
  {
  }

  lemma {:induction false} QueryAppend(a: seq<LogRow>, b: seq<LogRow>, w: Where)
    ensures Query(a + b, w) == Add(Query(a, w), Query(b, w))
  {
    if a == [] {
      assert a + b == b;
      AddLaws(Query(b, w), Zero(), Zero());
    } else {
      AppendPeels(a, b);
      QueryAppend(a[1..], b, w);
      AddLaws(Counted(w, a[0]), Query(a[1..], w), Query(b, w));
    }
  }

  /** The rows hold these entries, and were inserted at this time. */
  ghost predicate InsertedAt(rows: seq<LogRow>, ls: seq<UsageLog>, now: Time) {
    |rows| == |ls| && forall i :: 0 <= i < |ls| ==> rows[i].log == ls[i] && rows[i].createdAt == now
  }

  lemma InsertedRest(rows: seq<LogRow>, ls: seq<UsageLog>, now: Time)
    requires InsertedAt(rows, ls, now) && rows != []
    ensures InsertedAt(rows[1..], ls[1..], now)
  {
    forall i | 0 <= i < |ls[1..]|
      ensures rows[1..][i].log == ls[1..][i] && rows[1..][i].createdAt == now
    {
      assert rows[1..][i] == rows[i + 1] && ls[1..][i] == ls[i + 1];
    }
  }

  lemma {:induction false} InsertedRowsMatch(rows: seq<LogRow>, ls: seq<UsageLog>, now: Time, since: Time)
    requires InsertedAt(rows, ls, now)
    ensures Matching(rows, Since(since)) == if since <= now then ls else []
  {
    if rows != [] {
      InsertedRest(rows, ls, now);
      InsertedRowsMatch(rows[1..], ls[1..], now, since);
    }
  }

  lemma {:induction false} InsertedRowsMatchFor(rows: seq<LogRow>, ls: seq<UsageLog>, now: Time,
                                                c: Column, id: Id, since: Time)
    requires InsertedAt(rows, ls, now)
    ensures Matching(rows, SinceFor(c, id, since)) == if since <= now then EntriesFor(ls, c, id) else []
  {
    if rows != [] {
      InsertedRest(rows, ls, now);
      InsertedRowsMatchFor(rows[1..], ls[1..], now, c, id, since);
    }
  }

  /** A committed batch counts from the moment of its insertion: for every cut-off up to then it
      adds its own sums and |ls| requests to the global figures, its entries of one token to the
      figures of that token, and for every later cut-off nothing. */
  lemma BatchCountsFromItsInsertion(db: Database, ls: seq<UsageLog>, now: Time, since: Time, c: Column, id: Id)
    requires AllReference(db, ls)
    ensures var db' := Apply(db, InsertBatchOp(ls, now, false));
      && GlobalStats(db', since) ==
           (if since <= now then Add(GlobalStats(db, since), Amounts(ls)) else GlobalStats(db, since))
      && TokenStats(db', c, id, since) ==
           (if since <= now then Add(TokenStats(db, c, id, since), Amounts(EntriesFor(ls, c, id)))
            else TokenStats(db, c, id, since))
    ensures Amounts(ls).requests == |ls|
  {
    var db' := Apply(db, InsertBatchOp(ls, now, false));
    var rows := db'.logs[|db.logs|..];
    assert db'.logs == db.logs + rows && InsertedAt(rows, ls, now);
    QueryAppend(db.logs, rows, Since(since));
    QueryAppend(db.logs, rows, SinceFor(c, id, since));
    InsertedRowsMatch(rows, ls, now, since);
    InsertedRowsMatchFor(rows, ls, now, c, id, since);
    MatchingAmounts(rows, Since(since));
    MatchingAmounts(rows, SinceFor(c, id, since));
    AddLaws(GlobalStats(db, since), Zero(), Zero());
    AddLaws(TokenStats(db, c, id, since), Zero(), Zero());
    AmountsCount(ls);
  }
}
