/** Per-token totals: grouping a batch before updating leaves the same totals as updating
    once per entry. */
module UsageLedger {
  import opened Prelude
  import opened Database

  datatype Usage = Usage(input: int, output: int)

  function Plus(a: Usage, b: Usage): Usage {
    Usage(a.input + b.input, a.output + b.output)
  }

  function Nothing(): Usage { Usage(0, 0) }

  /** What one entry adds to the token. */
  function Portion(l: UsageLog, c: Column, id: Id): Usage {
    if LogKey(c, l) == id then Usage(l.input, l.output) else Nothing()
  }

  /** What the entries of one token amount to. */
  function SumFor(ls: seq<UsageLog>, c: Column, id: Id): Usage {
    if ls == [] then Nothing() else Plus(Portion(ls[0], c, id), SumFor(ls[1..], c, id))
  }

  function KeysIn(ls: seq<UsageLog>, c: Column): set<Id> {
    set i | 0 <= i < |ls| :: LogKey(c, ls[i])
  }

  /** The aggregation maps of flush. */
  function Group(ls: seq<UsageLog>, c: Column): map<Id, Usage> {
    map id | id in KeysIn(ls, c) :: SumFor(ls, c, id)
  }

  function AddUsage(db: Database, c: Column, id: Id, u: Usage): Database {
    if c.GateTokenId? then AddGateUsage(db, id, u.input, u.output) else AddRealUsage(db, id, u.input, u.output)
  }

  function TokenTotals(db: Database, c: Column, id: Id): Usage
    requires id in TableKeys(db, c)
  {
    if c.GateTokenId? then Usage(db.gates[id].totalInput, db.gates[id].totalOutput)
    else Usage(db.reals[id].totalInput, db.reals[id].totalOutput)
  }

  /** Every token of the map updated once; the order cannot be seen. */
  function AddAll(db: Database, c: Column, agg: map<Id, Usage>): Database {
    if c.GateTokenId? then
      db.(gates := map id | id in db.gates ::
            if id in agg then db.gates[id].(totalInput := db.gates[id].totalInput + agg[id].input,
                                            totalOutput := db.gates[id].totalOutput + agg[id].output)
            else db.gates[id])
    else
      db.(reals := map id | id in db.reals ::
            if id in agg then db.reals[id].(totalInput := db.reals[id].totalInput + agg[id].input,
                                            totalOutput := db.reals[id].totalOutput + agg[id].output)
            else db.reals[id])
  }

  /** The simple form: one update of each total per entry. */
  function OneByOne(db: Database, ls: seq<UsageLog>): Database
    decreases |ls|
  {
    if ls == [] then db
    else
      var u := Usage(ls[0].input, ls[0].output);
      OneByOne(AddUsage(AddUsage(db, GateTokenId, ls[0].gateId, u), RealTokenId, ls[0].realId, u), ls[1..])
  }

  // ------------------------------------------- grouping refines one at a time

  lemma PlusLaws(a: Usage, b: Usage, c: Usage)
    ensures Plus(Nothing(), a) == a && Plus(a, Nothing()) == a
    ensures Plus(a, Plus(b, c)) == Plus(Plus(a, b), c) == Plus(b, Plus(a, c))
  {
  }

  lemma {:induction false} SumForAppend(a: seq<UsageLog>, b: seq<UsageLog>, c: Column, id: Id)
    ensures SumFor(a + b, c, id) == Plus(SumFor(a, c, id), SumFor(b, c, id))
  {
    if a == [] {
      assert a + b == b;
    } else {
      AppendPeels(a, b);
      SumForAppend(a[1..], b, c, id);
      PlusLaws(Portion(a[0], c, id), SumFor(a[1..], c, id), SumFor(b, c, id));
    }
  }

  lemma {:induction false} SumForAbsent(ls: seq<UsageLog>, c: Column, id: Id)
    requires id !in KeysIn(ls, c)
    ensures SumFor(ls, c, id) == Nothing()
  {
    if ls != [] {
      assert LogKey(c, ls[0]) in KeysIn(ls, c);
      forall i | 0 <= i < |ls[1..]|
        ensures LogKey(c, ls[1..][i]) in KeysIn(ls, c)
      {
        assert ls[1..][i] == ls[i + 1];
      }
      SumForAbsent(ls[1..], c, id);
    }
  }

  ghost predicate SameGate(a: GateToken, b: GateToken) {
    b == a.(totalInput := b.totalInput, totalOutput := b.totalOutput)
  }

  ghost predicate SameReal(a: RealToken, b: RealToken) {
    b == a.(totalInput := b.totalInput, totalOutput := b.totalOutput)
  }

  /** Same rows apart from the totals. */
  ghost predicate SameButTotals(a: Database, b: Database) {
    && a.gates.Keys == b.gates.Keys && a.reals.Keys == b.reals.Keys
    && (forall id :: id in a.gates ==> SameGate(a.gates[id], b.gates[id]))
    && (forall id :: id in a.reals ==> SameReal(a.reals[id], b.reals[id]))
    && a.logs == b.logs && a.sticky == b.sticky && a.nextLogId == b.nextLogId
  }

  ghost predicate TotalsGrew(a: Database, b: Database, ls: seq<UsageLog>) {
    && SameButTotals(a, b)
    && forall c: Column, id: Id :: id in TableKeys(a, c) ==>
         TokenTotals(b, c, id) == Plus(TokenTotals(a, c, id), SumFor(ls, c, id))
  }

  lemma SameButTotalsComposes(a: Database, b: Database, c: Database)
    requires SameButTotals(a, b) && SameButTotals(b, c)
    ensures SameButTotals(a, c)
  {
  }

  /** One update changes one total of one token. */
  lemma AddUsageEffect(db: Database, c: Column, id: Id, u: Usage)
    ensures SameButTotals(db, AddUsage(db, c, id, u))
    ensures forall k: Column, i: Id :: i in TableKeys(db, k) ==>
      TokenTotals(AddUsage(db, c, id, u), k, i) ==
        if k == c && i == id then Plus(TokenTotals(db, k, i), u) else TokenTotals(db, k, i)
  {
  }

  lemma SumForOne(l: UsageLog, c: Column, id: Id)
    ensures SumFor([l], c, id) == Portion(l, c, id)
  {
    var rest := [l][1..];
    assert rest == [];
  }

  lemma EntryGrows(db: Database, l: UsageLog)
    ensures var u := Usage(l.input, l.output);
      TotalsGrew(db, AddUsage(AddUsage(db, GateTokenId, l.gateId, u), RealTokenId, l.realId, u), [l])
  {
    var u := Usage(l.input, l.output);
    var mid := AddUsage(db, GateTokenId, l.gateId, u);
    var last := AddUsage(mid, RealTokenId, l.realId, u);
    AddUsageEffect(db, GateTokenId, l.gateId, u);
    AddUsageEffect(mid, RealTokenId, l.realId, u);
    SameButTotalsComposes(db, mid, last);
    forall c: Column, id: Id | id in TableKeys(db, c)
      ensures TokenTotals(last, c, id) == Plus(TokenTotals(db, c, id), SumFor([l], c, id))
    {
      SumForOne(l, c, id);
      var a, b, z := TokenTotals(db, c, id), TokenTotals(mid, c, id), TokenTotals(last, c, id);
      assert b == if c == GateTokenId && id == l.gateId then Plus(a, u) else a;
      assert z == if c == RealTokenId && id == l.realId then Plus(b, u) else b;
    }
  }

  lemma GrowthComposes(a: Database, b: Database, c: Database, ls: seq<UsageLog>, more: seq<UsageLog>)
    requires TotalsGrew(a, b, ls) && TotalsGrew(b, c, more)
    ensures TotalsGrew(a, c, ls + more)
  {
    SameButTotalsComposes(a, b, c);
    forall col: Column, id: Id | id in TableKeys(a, col)
      ensures TokenTotals(c, col, id) == Plus(TokenTotals(a, col, id), SumFor(ls + more, col, id))
    {
      SumForAppend(ls, more, col, id);
      assert TokenTotals(b, col, id) == Plus(TokenTotals(a, col, id), SumFor(ls, col, id));
      assert TokenTotals(c, col, id) == Plus(TokenTotals(b, col, id), SumFor(more, col, id));
    }
  }

  lemma {:induction false} OneByOneGrows(db: Database, ls: seq<UsageLog>)
    ensures TotalsGrew(db, OneByOne(db, ls), ls)
    decreases |ls|
  {
    if ls != [] {
      var u := Usage(ls[0].input, ls[0].output);
      var first := AddUsage(AddUsage(db, GateTokenId, ls[0].gateId, u), RealTokenId, ls[0].realId, u);
      EntryGrows(db, ls[0]);
      OneByOneGrows(first, ls[1..]);
      GrowthComposes(db, first, OneByOne(db, ls), [ls[0]], ls[1..]);
      assert [ls[0]] + ls[1..] == ls;
    }
  }

  function Grouped(db: Database, ls: seq<UsageLog>): Database {
    AddAll(AddAll(db, GateTokenId, Group(ls, GateTokenId)), RealTokenId, Group(ls, RealTokenId))
  }

  lemma GroupedGrows(db: Database, ls: seq<UsageLog>)
    ensures TotalsGrew(db, Grouped(db, ls), ls)
  {
    forall c: Column, id: Id | id in TableKeys(db, c)
      ensures TokenTotals(Grouped(db, ls), c, id) == Plus(TokenTotals(db, c, id), SumFor(ls, c, id))
    {
      if id !in KeysIn(ls, c) {
        SumForAbsent(ls, c, id);
      }
    }
  }

  lemma GrownAlike(db: Database, a: Database, b: Database, ls: seq<UsageLog>)
    requires TotalsGrew(db, a, ls) && TotalsGrew(db, b, ls)
    ensures a == b
  {
    forall id | id in db.gates
      ensures a.gates[id] == b.gates[id]
    {
      assert TokenTotals(a, GateTokenId, id) == TokenTotals(b, GateTokenId, id);
    }
    forall id | id in db.reals
      ensures a.reals[id] == b.reals[id]
    {
      assert TokenTotals(a, RealTokenId, id) == TokenTotals(b, RealTokenId, id);
    }
    assert a.gates == b.gates && a.reals == b.reals;
  }

  lemma AddAllSnoc(db: Database, c: Column, agg: map<Id, Usage>, id: Id, u: Usage)
    requires id !in agg
    ensures AddUsage(AddAll(db, c, agg), c, id, u) == AddAll(db, c, agg[id := u])
  {
    var a, b := AddUsage(AddAll(db, c, agg), c, id, u), AddAll(db, c, agg[id := u]);
    assert a.gates == b.gates && a.reals == b.reals;
  }

  /** For every batch and every database, entries of deleted tokens included, the grouped
      updates leave exactly the database that one update per entry would. */
  lemma GroupedIsOneByOne(db: Database, ls: seq<UsageLog>)
    ensures Grouped(db, ls) == OneByOne(db, ls)
  {
    GroupedGrows(db, ls);
    OneByOneGrows(db, ls);
    GrownAlike(db, Grouped(db, ls), OneByOne(db, ls), ls);
  }
}
