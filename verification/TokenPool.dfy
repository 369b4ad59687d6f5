/** The TokenPool object: a cached listing swapped by Refresh, an atomic 64-bit counter, and
    the loops of Select and GetByID. */
module TokenPoolObject {
  import opened Prelude
  import opened Database
  import opened StoreObject
  import opened RoundRobin

  type Row = (Id, RealToken)

  /** excludeIDs: nil, or a map from id to bool. */
  predicate IsExcluded(exclude: Option<map<Id, bool>>, id: Id) {
    exclude.Some? && id in exclude.value && exclude.value[id]
  }

  function Marks(tokens: seq<Row>, exclude: Option<map<Id, bool>>): seq<bool> {
    seq(|tokens|, i requires 0 <= i < |tokens| => IsExcluded(exclude, tokens[i].0))
  }

  /** The first cached token with the id. */
  function Find(tokens: seq<Row>, id: Id): (r: Option<Row>)
    ensures r.None? <==> forall i :: 0 <= i < |tokens| ==> tokens[i].0 != id
    ensures r.Some? ==> r.value in tokens && r.value.0 == id
  {
    if tokens == [] then None
    else if tokens[0].0 == id then Some(tokens[0])
    else Find(tokens[1..], id)
  }

  /** Select(nil): the token at the ticket's slot. */
  function RoundRobinChoice(tokens: seq<Row>, counter: nat): Row
    requires tokens != []
  {
    tokens[Slot(counter, 0, |tokens|)]
  }

  /** With no exclusions a non-empty pool always yields the token at the ticket's slot. */
  lemma SelectWithoutExclusions(tokens: seq<Row>, start: nat)
    requires tokens != []
    ensures Search(start, 0, Marks(tokens, None)) == Some(Slot(start, 0, |tokens|))
  {
  }

  lemma NoneMeansAllExcluded(tokens: seq<Row>, exclude: Option<map<Id, bool>>, start: nat)
    requires start < TWO_64 && 0 < |tokens| <= TWO_64 && Aligned(start, |tokens|)
    requires Search(start, 0, Marks(tokens, exclude)).None?
    ensures forall i :: 0 <= i < |tokens| ==>
      exclude.Some? && tokens[i].0 in exclude.value && exclude.value[tokens[i].0]
  {
    var marks := Marks(tokens, exclude);
    SearchCompleteIff(start, |tokens|);
    forall i | 0 <= i < |tokens|
      ensures IsExcluded(exclude, tokens[i].0)
    {
      assert marks[i];
    }
  }

  class TokenPool {
    const store: Store
    const maxFailures: int
    var tokens: seq<Row>
    var counter: nat

    ghost predicate Valid()
      reads this
    {
      counter < TWO_64
    }

    constructor (store: Store, maxFailures: int)
      ensures Valid() && this.store == store && this.maxFailures == maxFailures
      ensures tokens == [] && counter == 0
    {
      this.store, this.maxFailures, tokens, counter := store, maxFailures, [], 0;
    }

    /** Refresh: a failed query leaves the cached list as it is. */
    method Refresh(faulty: bool) returns (ok: bool)
      modifies this`tokens
      ensures ok == !faulty
      ensures if ok then ListsActive(tokens, store.db, maxFailures) else tokens == old(tokens)
    {
      if faulty {
        return false;
      }
      tokens := store.ListActiveRealTokens(maxFailures);
      return true;
    }

    /** Takes a ticket unless the pool is empty, and returns what the search from it finds. */
    method Select(exclude: Option<map<Id, bool>>) returns (r: Option<Row>)
      requires Valid()
      modifies this`counter
      ensures Valid()
      ensures counter == if tokens == [] then old(counter) else (old(counter) + 1) % TWO_64
      ensures r == (match Search(old(counter), 0, Marks(tokens, exclude))
                    case None => None
                    case Some(k) => Some(tokens[k]))
      ensures r.Some? ==> r.value in tokens
      ensures r.Some? ==> exclude.None? || r.value.0 !in exclude.value || !exclude.value[r.value.0]
      ensures exclude.None? ==> r == if tokens == [] then None else Some(RoundRobinChoice(tokens, old(counter)))
      ensures |tokens| <= TWO_64 && (tokens == [] || Aligned(old(counter), |tokens|)) && r.None? ==>
        forall i :: 0 <= i < |tokens| ==>
          exclude.Some? && tokens[i].0 in exclude.value && exclude.value[tokens[i].0]
    {
      var n := |tokens|;
      if n == 0 {
        return None;
      }
      var start := counter;
      counter := (counter + 1) % TWO_64;
      ghost var marks := Marks(tokens, exclude);
      SelectWithoutExclusions(tokens, start);
      for i := 0 to n
        invariant Search(start, 0, marks) == Search(start, i, marks)
      {
        var k := Slot(start, i, n);
        if !IsExcluded(exclude, tokens[k].0) {
          return Some(tokens[k]);
        }
      }
      if n <= TWO_64 && Aligned(start, n) {
        NoneMeansAllExcluded(tokens, exclude, start);
      }
      return None;
    }

    method GetByID(id: Id) returns (r: Option<Row>)
      ensures r == Find(tokens, id)
    {
      for i := 0 to |tokens|
        invariant Find(tokens, id) == Find(tokens[i..], id)
      {
        if tokens[i].0 == id {
          return Some(tokens[i]);
        }
        assert tokens[i..][1..] == tokens[i + 1..];
      }
      return None;
    }
  }
}
