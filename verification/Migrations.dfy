/** Schema migrations: versions are applied in order, each in its own transaction, and a
    run that fails is resumed by the next one. */
module Migrations {
  import opened Prelude

  datatype Migration = Migration(version: int, script: string)

  /** The table schema_migrations, and the scripts committed so far, oldest first. */
  datatype Schema = Schema(versions: set<int>, committed: seq<Migration>)

  predicate Increasing(ms: seq<Migration>) {
    forall i, j :: 0 <= i < j < |ms| ==> ms[i].version < ms[j].version
  }

  predicate DistinctVersions(ms: seq<Migration>) {
    forall i, j :: 0 <= i < j < |ms| ==> ms[i].version != ms[j].version
  }

  function Versions(ms: seq<Migration>): set<int> {
    set i | 0 <= i < |ms| :: ms[i].version
  }

  function Insert(m: Migration, ms: seq<Migration>): (r: seq<Migration>)
    ensures multiset(r) == multiset(ms) + multiset{m} && |r| == |ms| + 1
  {
    if ms == [] then [m]
    else if m.version <= ms[0].version then
      assert multiset([m] + ms) == multiset(ms) + multiset{m};
      [m] + ms
    else
      assert ms == [ms[0]] + ms[1..];
      [ms[0]] + Insert(m, ms[1..])
  }

  /** sort.Slice by version. */
  function Sorted(ms: seq<Migration>): (r: seq<Migration>)
    ensures multiset(r) == multiset(ms) && |r| == |ms|
  {
    if ms == [] then []
    else
      assert ms == [ms[0]] + ms[1..];
      Insert(ms[0], Sorted(ms[1..]))
  }

  lemma {:induction false} InsertIncreasing(m: Migration, ms: seq<Migration>)
    requires Increasing(ms) && forall x :: x in ms ==> x.version != m.version
    ensures Increasing(Insert(m, ms))
  {
    if ms != [] && m.version > ms[0].version {
      var rest := Insert(m, ms[1..]);
      forall x | x in ms[1..]
        ensures x in ms
      {
      }
      InsertIncreasing(m, ms[1..]);
      forall i | 0 <= i < |rest|
        ensures ms[0].version < rest[i].version
      {
        assert rest[i] in multiset(rest);
        assert rest[i] == m || rest[i] in ms[1..];
      }
    }
  }

  lemma {:induction false} SortedIncreasing(ms: seq<Migration>)
    requires DistinctVersions(ms)
    ensures Increasing(Sorted(ms))
  {
    if ms != [] {
      var rest := Sorted(ms[1..]);
      SortedIncreasing(ms[1..]);
      forall x | x in rest
        ensures x.version != ms[0].version
      {
        assert x in multiset(rest);
        assert x in ms[1..];
      }
      InsertIncreasing(ms[0], rest);
    }
  }

  /** What is left to apply from file i on, in the given order. */
  function Pending(ms: seq<Migration>, i: nat, applied: set<int>): seq<Migration>
    requires i <= |ms|
    decreases |ms| - i
  {
    if i == |ms| then []
    else if ms[i].version in applied then Pending(ms, i + 1, applied)
    else [ms[i]] + Pending(ms, i + 1, applied)
  }

  /** One run of migrate.  It does not see the versions of `unread`, because the loop that reads
      schema_migrations ends early on an error; its transaction numbered `failAt` fails. */
  datatype Attempt = Attempt(unread: set<int>, failAt: nat)

  datatype Outcome = Outcome(schema: Schema, ok: bool)

  /** The transactions of one run: each commits a script with its record, and the first that
      fails, of itself or because the version is recorded already, ends the run. */
  function Replay(todo: seq<Migration>, s: Schema, failAt: nat): Outcome
    decreases |todo|
  {
    if todo == [] then Outcome(s, true)
    else if failAt == 0 || todo[0].version in s.versions then Outcome(s, false)
    else Replay(todo[1..], Schema(s.versions + {todo[0].version}, s.committed + [todo[0]]), failAt - 1)
  }

  function MigrateOnce(ms: seq<Migration>, s: Schema, a: Attempt): Outcome {
    Replay(Pending(Sorted(ms), 0, s.versions - a.unread), s, a.failAt)
  }

  function MigrateRuns(ms: seq<Migration>, s: Schema, runs: seq<Attempt>): Schema
    decreases |runs|
  {
    if runs == [] then s else MigrateRuns(ms, MigrateOnce(ms, s, runs[0]).schema, runs[1..])
  }

  class Migrator {
    var versions: set<int>               // schema_migrations; version is its primary key
    ghost var committed: seq<Migration>

    constructor ()
      ensures View() == Schema({}, [])
    {
      versions, committed := {}, [];
    }

    ghost function View(): Schema
      reads this
    {
      Schema(versions, committed)
    }

    /** migrate: the loop over the sorted files, one transaction each. */
    method Migrate(files: seq<Migration>, a: Attempt) returns (ok: bool)
      modifies this
      ensures Outcome(View(), ok) == MigrateOnce(files, old(View()), a)
    {
      var applied := versions - a.unread;
      var migrations := Sorted(files);
      ghost var goal := MigrateOnce(files, View(), a);
      var left := a.failAt;
      for i := 0 to |migrations|
        invariant Replay(Pending(migrations, i, applied), View(), left) == goal
      {
        ok, left := OneFile(migrations, i, applied, left, goal);
        if !ok {
          return;
        }
      }
      return true;
    }

    /** One turn of the loop: an applied version is skipped; at most `left` more transactions succeed. */
    method OneFile(ms: seq<Migration>, i: nat, applied: set<int>, left: nat, ghost goal: Outcome)
      returns (ok: bool, rest: nat)
      requires i < |ms| && Replay(Pending(ms, i, applied), View(), left) == goal
      modifies this
      ensures ok ==> Replay(Pending(ms, i + 1, applied), View(), rest) == goal
      ensures !ok ==> goal == Outcome(View(), false)
    {
      ghost var todo := Pending(ms, i + 1, applied);
      if ms[i].version in applied {
        return true, left;
      }
      assert ([ms[i]] + todo)[1..] == todo;
      ok := left > 0 && CanRecord(ms[i]);
      rest := left;
      if ok {
        versions := versions + {ms[i].version};
        committed := committed + [ms[i]];
        rest := left - 1;
      }
    }

    /** The primary key admits the record of the script. */
    predicate CanRecord(m: Migration)
      reads this
    {
      m.version !in versions
    }
  }

  lemma VersionsSnoc(ms: seq<Migration>, m: Migration)
    ensures Versions(ms + [m]) == Versions(ms) + {m.version}
  {
    var all := ms + [m];
    assert all[|ms|] == m;
    forall i | 0 <= i < |ms|
      ensures ms[i].version in Versions(all)
    {
      assert all[i] == ms[i];
    }
  }

  // ------------------------------------------------------------------ over runs

  /** The committed scripts are a prefix of the sorted files, and the table records them. */
  ghost predicate IsPrefix(s: Schema, sorted: seq<Migration>) {
    && |s.committed| <= |sorted| && s.committed == sorted[..|s.committed|]
    && s.versions == Versions(s.committed)
  }

  lemma PrefixVersions(ms: seq<Migration>, i: nat, k: nat)
    requires Increasing(ms) && i < |ms| && k <= |ms|
    ensures ms[i].version in Versions(ms[..k]) <==> i < k
  {
    var prefix := ms[..k];
    if i < k {
      assert prefix[i] == ms[i];
    }
  }

  lemma {:induction false} PendingIsRest(ms: seq<Migration>, i: nat, k: nat, applied: set<int>)
    requires i <= |ms| && k <= |ms|
    requires forall j :: 0 <= j < |ms| ==> (ms[j].version in applied <==> j < k)
    ensures Pending(ms, i, applied) == if i < k then ms[k..] else ms[i..]
    decreases |ms| - i
  {
    if i == |ms| {
      assert ms[i..] == [];
    } else {
      PendingIsRest(ms, i + 1, k, applied);
      if i >= k {
        HeadAndTail(ms, i);
      }
    }
  }

  lemma PendingAfterPrefix(ms: seq<Migration>, k: nat)
    requires Increasing(ms) && k <= |ms|
    ensures Pending(ms, 0, Versions(ms[..k])) == ms[k..]
  {
    forall j | 0 <= j < |ms|
      ensures ms[j].version in Versions(ms[..k]) <==> j < k
    {
      PrefixVersions(ms, j, k);
    }
    PendingIsRest(ms, 0, k, Versions(ms[..k]));
  }

  /** A run that overlooks a recorded version starts with a script of the prefix. */
  lemma {:induction false} OverlookedComesFirst(ms: seq<Migration>, i: nat, j: nat, k: nat, seen: set<int>)
    requires i <= j < k <= |ms| && ms[j].version !in seen
    ensures var todo := Pending(ms, i, seen);
      todo != [] && todo[0].version in Versions(ms[..k])
    decreases j - i
  {
    assert ms[..k][i] == ms[i];
    if i < j && ms[i].version in seen {
      OverlookedComesFirst(ms, i + 1, j, k, seen);
    }
  }

  function Min(a: nat, b: nat): nat {
    if a <= b then a else b
  }

  /** From a prefix of k scripts the transactions extend it until one fails. */
  lemma {:induction false} ReplayExtends(ms: seq<Migration>, k: nat, failAt: nat)
    requires Increasing(ms) && k <= |ms|
    ensures var d := Min(k + failAt, |ms|);
      Replay(ms[k..], Schema(Versions(ms[..k]), ms[..k]), failAt) ==
        Outcome(Schema(Versions(ms[..d]), ms[..d]), k + failAt >= |ms|)
    decreases |ms| - k
  {
    if k < |ms| && failAt > 0 {
      OneMoves([], ms, k);
      assert [] + ms[..k] == ms[..k] && [] + ms[..k + 1] == ms[..k + 1];
      VersionsSnoc(ms[..k], ms[k]);
      PrefixVersions(ms, k, k);
      ReplayExtends(ms, k + 1, failAt - 1);
    } else {
      assert k == |ms| ==> ms[k..] == [];
    }
  }

  /** A run that reads the whole table extends the prefix by as many scripts as it commits,
      and succeeds exactly when that completes it; one that overlooks a version commits nothing. */
  lemma RunExtendsPrefix(files: seq<Migration>, s: Schema, a: Attempt)
    requires DistinctVersions(files) && IsPrefix(s, Sorted(files))
    ensures var o := MigrateOnce(files, s, a);
      && IsPrefix(o.schema, Sorted(files))
      && (a.unread !! s.versions ==> |o.schema.committed| == Min(|s.committed| + a.failAt, |files|))
      && (!(a.unread !! s.versions) ==> o.schema == s)
      && (o.ok <==> a.unread !! s.versions && |s.committed| + a.failAt >= |files|)
  {
    var sorted, k := Sorted(files), |s.committed|;
    SortedIncreasing(files);
    assert sorted[0..] == sorted;
    if a.unread !! s.versions {
      assert s.versions - a.unread == s.versions;
      PendingAfterPrefix(sorted, k);
      ReplayExtends(sorted, k, a.failAt);
    } else {
      var v :| v in a.unread && v in s.versions;
      var j :| 0 <= j < |s.committed| && s.committed[j].version == v;
      OverlookedComesFirst(sorted, 0, j, k, s.versions - a.unread);
    }
  }

  lemma {:induction false} RunsExtendPrefix(files: seq<Migration>, s: Schema, runs: seq<Attempt>)
    requires DistinctVersions(files) && IsPrefix(s, Sorted(files))
    ensures IsPrefix(MigrateRuns(files, s, runs), Sorted(files))
    decreases |runs|
  {
    if runs == [] {
      assert MigrateRuns(files, s, runs) == s;
    } else {
      var s' := MigrateOnce(files, s, runs[0]).schema;
      RunExtendsPrefix(files, s, runs[0]);
      RunsExtendPrefix(files, s', runs[1..]);
      assert MigrateRuns(files, s, runs) == MigrateRuns(files, s', runs[1..]);
    }
  }

  /** Resume: after any sequence of runs, each failing anywhere or reading the table only in
      part, the committed scripts are a prefix of the version-sorted list, none twice, the table
      is exactly that prefix, and a run reports success exactly when it completes the list. */
  lemma MigrationsResume(files: seq<Migration>, runs: seq<Attempt>, last: Attempt)
    requires DistinctVersions(files)
    ensures var s := MigrateRuns(files, Schema({}, []), runs);
      && s.committed <= Sorted(files) && Increasing(s.committed)
      && s.versions == Versions(s.committed)
      && (MigrateOnce(files, s, last).ok ==> MigrateOnce(files, s, last).schema.committed == Sorted(files))
      && (last.unread == {} && last.failAt >= |files| ==> MigrateOnce(files, s, last).ok)
  {
    var s := MigrateRuns(files, Schema({}, []), runs);
    RunsExtendPrefix(files, Schema({}, []), runs);
    SortedIncreasing(files);
    RunExtendsPrefix(files, s, last);
  }

  // ------------------------------------------------ files that share a version

  /** What every run keeps, whatever the files are: the table records the committed scripts,
      and no two of them have one version. */
  ghost predicate Recorded(s: Schema) {
    s.versions == Versions(s.committed) && DistinctVersions(s.committed)
  }

  lemma RecordOne(s: Schema, m: Migration)
    requires Recorded(s) && m.version !in s.versions
    ensures Recorded(Schema(s.versions + {m.version}, s.committed + [m]))
  {
    VersionsSnoc(s.committed, m);
    forall i | 0 <= i < |s.committed|
      ensures s.committed[i].version != m.version
    {
      assert s.committed[i].version in s.versions;
    }
  }

  lemma {:induction false} ReplayKeepsRecorded(todo: seq<Migration>, s: Schema, failAt: nat)
    requires Recorded(s)
    ensures Recorded(Replay(todo, s, failAt).schema)
    decreases |todo|
  {
    if todo != [] && failAt > 0 && todo[0].version !in s.versions {
      RecordOne(s, todo[0]);
      ReplayKeepsRecorded(todo[1..], Schema(s.versions + {todo[0].version}, s.committed + [todo[0]]), failAt - 1);
    }
  }

  lemma {:induction false} RunsKeepRecorded(files: seq<Migration>, s: Schema, runs: seq<Attempt>)
    requires Recorded(s)
    ensures Recorded(MigrateRuns(files, s, runs))
    decreases |runs|
  {
    if runs != [] {
      ReplayKeepsRecorded(Pending(Sorted(files), 0, s.versions - runs[0].unread), s, runs[0].failAt);
      RunsKeepRecorded(files, MigrateOnce(files, s, runs[0]).schema, runs[1..]);
    }
  }

  /** Of two different scripts with one version at most one is ever committed, by any runs. */
  lemma SharedVersionRunsOnce(files: seq<Migration>, runs: seq<Attempt>, a: Migration, b: Migration)
    requires a != b
    ensures var s := MigrateRuns(files, Schema({}, []), runs);
      a in s.committed && b in s.committed ==> a.version != b.version
  {
    RunsKeepRecorded(files, Schema({}, []), runs);
  }

  /** These runs commit every file. */
  ghost predicate Complete(files: seq<Migration>, runs: seq<Attempt>) {
    forall f :: f in files ==> f in MigrateRuns(files, Schema({}, []), runs).committed
  }

  lemma DistinctFilesComplete(files: seq<Migration>)
    requires DistinctVersions(files)
    ensures Complete(files, [Attempt({}, |files|)])
  {
    var empty, run := Schema({}, []), Attempt({}, |files|);
    MigrationsResume(files, [], run);
    assert MigrateRuns(files, empty, []) == empty;
    assert [run][1..] == [];
    assert MigrateRuns(files, empty, [run]) == MigrateOnce(files, empty, run).schema;
    forall f | f in files
      ensures f in Sorted(files)
    {
      assert f in multiset(Sorted(files));
    }
  }

  lemma CompleteFilesAreDistinct(files: seq<Migration>, runs: seq<Attempt>)
    requires forall i, j :: 0 <= i < j < |files| ==> files[i] != files[j]
    requires Complete(files, runs)
    ensures DistinctVersions(files)
  {
    forall i, j | 0 <= i < j < |files|
      ensures files[i].version != files[j].version
    {
      SharedVersionRunsOnce(files, runs, files[i], files[j]);
    }
  }

  /** Some runs commit every file exactly when no two of the files share a version, and then a
      single undisturbed run does. */
  lemma AllFilesRunIff(files: seq<Migration>)
    requires forall i, j :: 0 <= i < j < |files| ==> files[i] != files[j]
    ensures (exists runs :: Complete(files, runs)) <==> DistinctVersions(files)
    ensures DistinctVersions(files) ==> Complete(files, [Attempt({}, |files|)])
  {
    if DistinctVersions(files) {
      DistinctFilesComplete(files);
    } else if runs :| Complete(files, runs) {
      CompleteFilesAreDistinct(files, runs);
    }
  }

  lemma {:induction false} NothingPending(ms: seq<Migration>, i: nat, applied: set<int>)
    requires i <= |ms| && forall j :: 0 <= j < |ms| ==> ms[j].version in applied
    ensures Pending(ms, i, applied) == []
    decreases |ms| - i
  {
    if i < |ms| {
      NothingPending(ms, i + 1, applied);
    }
  }

  /** And no error says so: once every version is recorded, each run that reads the whole table
      reports success and commits nothing, whichever scripts have run. */
  lemma RecordedVersionsSucceed(files: seq<Migration>, s: Schema, failAt: nat)
    requires Versions(files) <= s.versions
    ensures MigrateOnce(files, s, Attempt({}, failAt)) == Outcome(s, true)
  {
    var sorted := Sorted(files);
    assert s.versions - {} == s.versions;
    forall j | 0 <= j < |sorted|
      ensures sorted[j].version in s.versions
    {
      assert sorted[j] in multiset(sorted);
      var i :| 0 <= i < |files| && files[i] == sorted[j];
      assert files[i].version in Versions(files);
    }
    NothingPending(sorted, 0, s.versions);
  }

  /** The shortest case: the first run fails at the second of two files, the next one takes both
      for applied and reports success.  Which of the two runs first is up to sort.Slice, which
      does not promise to be stable; Sorted is. */
  lemma DuplicateVersionIsSkipped(first: Migration, second: Migration, failAt: nat)
    requires first.version == second.version && failAt >= 2
    ensures var files, run := [first, second], Attempt({}, failAt);
      var o := MigrateOnce(files, Schema({}, []), run);
      && !o.ok && o.schema == Schema({first.version}, [first])
      && MigrateOnce(files, o.schema, run) == Outcome(o.schema, true)
  {
    var files, v := [first, second], first.version;
    assert files[1..] == [second] && [second][1..] == [];
    assert Sorted([second]) == [second] && Sorted(files) == files;
    assert Pending(files, 0, {}) == [first] + ([second] + Pending(files, 2, {})) == files;
    var after := Schema({v}, [first]);
    assert Replay(files, Schema({}, []), failAt) == Replay([second], after, failAt - 1) == Outcome(after, false) by {
      assert {} + {v} == {v} && [] + [first] == [first];
    }
    assert Pending(files, 0, {v}) == Pending(files, 1, {v}) == Pending(files, 2, {v}) == [];
    var none: set<int> := {};
    assert none - none == none && {v} - none == {v};
  }
}
