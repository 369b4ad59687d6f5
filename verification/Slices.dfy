/** Go slices over shared backing arrays.  A slice is nil, or a window into an array
    whose capacity reaches to the array's end. */
module Slices {

  datatype Slice<T> = Nil | Slice(mem: array<T>, lo: nat, len: nat) {

    ghost predicate Valid() {
      Slice? ==> lo + len <= mem.Length
    }

    /** The backing array, as a frame. */
    ghost function Memory(): set<array<T>> {
      if Nil? then {} else {mem}
    }

    function Len(): nat {
      if Nil? then 0 else len
    }

    function Contents(): seq<T>
      requires Valid()
      reads Memory()
    {
      if Nil? then [] else mem[lo..lo + len]
    }

    /** s[:0] */
    function Emptied(): (r: Slice<T>) {
      if Nil? then Nil else Slice(mem, lo, 0)
    }

    /** s[from:to] */
    function Sub(from: nat, to: nat): (r: Slice<T>)
      requires Valid() && from <= to <= Len()
      reads Memory()
      ensures r.Valid() && r.Memory() == Memory() && r.Contents() == Contents()[from..to]
    {
      if Nil? then Nil else Slice(mem, lo + from, to - from)
    }
  }

  /** append(s, xs...): in place when the capacity allows, into a larger array otherwise.
      Appending nothing returns s. */
  method Append<T(0)>(s: Slice<T>, xs: seq<T>) returns (r: Slice<T>)
    requires s.Valid()
    modifies s.Memory()
    ensures r.Valid() && r.Contents() == old(s.Contents()) + xs
    ensures r.Nil? <==> s.Nil? && xs == []
    ensures xs == [] ==> r == s
    ensures r.Memory() == s.Memory() || fresh(r.Memory())
    ensures s.Nil? ==> fresh(r.Memory())
  {
    if |xs| == 0 {
      return s;
    }
    if s.Slice? && s.lo + s.len + |xs| <= s.mem.Length {
      var end := s.lo + s.len;
      forall i | 0 <= i < |xs| {
        s.mem[end + i] := xs[i];
      }
      r := Slice(s.mem, s.lo, s.len + |xs|);
      assert r.Contents() == old(s.Contents()) + xs;
      return;
    }
    var have := s.Len();
    var extra: nat :| true;                    // the growth policy is the runtime's
    var grown := new T[have + |xs| + extra];
    if s.Slice? {
      forall i | 0 <= i < have {
        grown[i] := s.mem[s.lo + i];
      }
    }
    forall i | 0 <= i < |xs| {
      grown[have + i] := xs[i];
    }
    r := Slice(grown, 0, have + |xs|);
    assert r.Contents() == old(s.Contents()) + xs;
  }
}
