/**
  The per-rank pattern store of patterns.go: `Data` owns the buckets
  (`CallData` objects) discovered so far, in discovery order, plus three
  topology views holding references to some of those same objects and a list
  of buckets for calls that exchange no data. Because the views hold
  references, a bucket's count and call list seen through a view are those
  of the bucket itself, including calls merged after it was classified.
 */
module PatternStore {
  import opened Wrappers
  import opened Patterns
  import opened Counts

  class CallData {
    const Send: map<int, int>
    const Recv: map<int, int>
    var Count: int
    var Calls: seq<int>

    constructor (send: map<int, int>, recv: map<int, int>, count: int, calls: seq<int>)
      ensures Send == send && Recv == recv && Count == count && Calls == calls
    {
      Send, Recv, Count, Calls := send, recv, count, calls;
    }

    function Value(): Pattern
      reads this
    {
      Pattern(Send, Recv, Count, Calls)
    }
  }

  /** The values of a list of buckets, read in the current heap. */
  function Values(s: seq<CallData>): (r: seq<Pattern>)
    reads set b | b in s
    ensures |r| == |s| && forall i :: 0 <= i < |s| ==> r[i] == s[i].Value()
  {
    if s == [] then [] else Values(s[..|s| - 1]) + [s[|s| - 1].Value()]
  }

  /** A topology view as the classification of each new bucket leaves it:
      for every bucket, in discovery order, one reference per send entry
      that earns tag `t`. Send shapes never change, so neither does this. */
  function View(s: seq<CallData>, t: Topology): seq<CallData> {
    if s == [] then [] else View(s[..|s| - 1], t) + Repeat(s[|s| - 1], NumTagged(s[|s| - 1].Send, t))
  }

  lemma {:induction false} ViewElements(s: seq<CallData>, t: Topology, b: CallData)
    requires b in View(s, t)
    ensures b in s && exists k :: k in b.Send && Classify(k, b.Send[k]) == Some(t)
  {
    var n := |s| - 1;
    if b in View(s[..n], t) {
      ViewElements(s[..n], t, b);
    } else {
      assert b == s[n];
      assert TaggedKeys(b.Send, b.Send.Keys, t) != {};
      var k :| k in TaggedKeys(b.Send, b.Send.Keys, t);
    }
  }

  lemma {:induction false} ViewEmpty(s: seq<CallData>, t: Topology)
    ensures View(s, t) == [] <==> forall i, k :: 0 <= i < |s| && k in s[i].Send ==> Classify(k, s[i].Send[k]) != Some(t)
  {
    if s != [] {
      var n := |s| - 1;
      ViewEmpty(s[..n], t);
      if NumTagged(s[n].Send, t) == 0 {
        assert TaggedKeys(s[n].Send, s[n].Send.Keys, t) == {};
        forall k | k in s[n].Send ensures Classify(k, s[n].Send[k]) != Some(t) {
          assert k !in TaggedKeys(s[n].Send, s[n].Send.Keys, t);
        }
      } else {
        var k :| k in TaggedKeys(s[n].Send, s[n].Send.Keys, t);
        assert Classify(k, s[n].Send[k]) == Some(t);
      }
      assert forall i :: 0 <= i < n ==> s[..n][i] == s[i];
    }
  }

  class Data {
    var AllPatterns: seq<CallData>
    var OneToN: seq<CallData>
    var NToN: seq<CallData>
    var NToOne: seq<CallData>
    var Empty: seq<CallData>

    /** The values of AllPatterns and of Empty, kept beside them for the proofs. */
    ghost var Buckets: seq<Pattern>
    ghost var EmptyBuckets: seq<Pattern>

    /** Go's zero value: no buckets at all. */
    constructor ()
      ensures Valid()
      ensures AllPatterns == [] && OneToN == [] && NToN == [] && NToOne == [] && Empty == []
      ensures Buckets == [] && EmptyBuckets == []
    {
      AllPatterns, OneToN, NToN, NToOne, Empty := [], [], [], [], [];
      Buckets, EmptyBuckets := [], [];
    }

    /** What addPattern maintains: the buckets have distinct shape pairs and
        each count is the length of its call list, the views are the
        classification of the buckets in discovery order, and the all-zero
        list shares no object with the buckets. */
    ghost predicate Valid()
      reads this, set b | b in AllPatterns, set e | e in Empty
    {
      && |Buckets| == |AllPatterns|
      && (forall i :: 0 <= i < |AllPatterns| ==> AllPatterns[i].Value() == Buckets[i])
      && NoDuplicates(Buckets)
      && CountsMatchCalls(Buckets)
      && OneToN == View(AllPatterns, OneToMany)
      && NToN == View(AllPatterns, ManyToMany)
      && NToOne == View(AllPatterns, ManyToOne)
      && |EmptyBuckets| == |Empty|
      && (forall i :: 0 <= i < |Empty| ==> Empty[i].Value() == EmptyBuckets[i])
      && (forall e :: e in Empty ==> e !in AllPatterns)
    }

    /** The buckets and the all-zero list, read through their objects, are
        the values kept beside them. */
    lemma ValuesAreBuckets()
      requires Valid()
      ensures Values(AllPatterns) == Buckets && Values(Empty) == EmptyBuckets
    {
    }

    /** Every reference in a view is one of the buckets, so a view sees the
        bucket's current count and calls. */
    lemma ViewsHoldBuckets(b: CallData)
      requires Valid()
      requires b in OneToN || b in NToN || b in NToOne
      ensures b in AllPatterns
      ensures exists k :: k in b.Send && Classify(k, b.Send[k]).Some?
    {
      if b in OneToN {
        ViewElements(AllPatterns, OneToMany, b);
      } else if b in NToN {
        ViewElements(AllPatterns, ManyToMany, b);
      } else {
        ViewElements(AllPatterns, ManyToOne, b);
      }
    }

    /** NoSummary holds exactly when no send entry of any bucket earns a tag. */
    lemma NoSummaryIff()
      requires Valid()
      ensures NoSummary(Snapshot()) <==>
        forall i, k :: 0 <= i < |Buckets| && k in Buckets[i].send ==> Classify(k, Buckets[i].send[k]).None?
    {
      ViewEmpty(AllPatterns, OneToMany);
      ViewEmpty(AllPatterns, ManyToMany);
      ViewEmpty(AllPatterns, ManyToOne);
      assert forall i :: 0 <= i < |Buckets| ==> Buckets[i].send == AllPatterns[i].Send;
    }

    function Snapshot(): Snapshot
      reads this, set b | b in AllPatterns, set b | b in OneToN, set b | b in NToN, set b | b in NToOne, set b | b in Empty
    {
      Patterns.Snapshot(Values(AllPatterns), Values(OneToN), Values(NToN), Values(NToOne), Values(Empty))
    }

    /** addPattern: merge the call into the first bucket with equal shapes,
        or append a new bucket and classify it by its send shape. The
        all-zero list is not touched. */
    method AddPattern(callNum: int, sendPatterns: map<int, int>, recvPatterns: map<int, int>)
      requires Valid()
      modifies this, set b | b in AllPatterns
      ensures Valid()
      ensures Buckets == AddOrMerge(old(Buckets), callNum, sendPatterns, recvPatterns)
      ensures Empty == old(Empty) && EmptyBuckets == old(EmptyBuckets)
      ensures old(AllPatterns) <= AllPatterns
      ensures forall b :: b in AllPatterns ==> b in old(AllPatterns) || fresh(b)
    {
      var idx := 0;
      while idx < |AllPatterns|
        invariant 0 <= idx <= |AllPatterns|
        invariant forall j :: 0 <= j < idx ==> !Matches(Buckets[j], sendPatterns, recvPatterns)
      {
        var x := AllPatterns[idx];
        if CompareCallPatterns(x.Send, sendPatterns) && CompareCallPatterns(x.Recv, recvPatterns) {
          FirstMatchIs(Buckets, sendPatterns, recvPatterns, idx);
          MergeInto(idx, callNum);
          return;
        }
        idx := idx + 1;
      }
      AppendNew(callNum, sendPatterns, recvPatterns);
    }

    /** The merge branch: one more call for the bucket at `idx`. */
    method MergeInto(idx: nat, callNum: int)
      requires Valid() && idx < |AllPatterns|
      modifies this, AllPatterns[idx]
      ensures Valid()
      ensures Buckets == old(Buckets)[idx := Bumped(old(Buckets)[idx], callNum)]
      ensures AllPatterns == old(AllPatterns) && Empty == old(Empty) && EmptyBuckets == old(EmptyBuckets)
    {
      var x := AllPatterns[idx];
      assert forall j :: 0 <= j < |AllPatterns| && j != idx ==> AllPatterns[j] != x by {
        assert NoDuplicates(Buckets);
      }
      assert x !in Empty;
      x.Count := x.Count + 1;
      x.Calls := x.Calls + [callNum];
      Buckets := Buckets[idx := Bumped(Buckets[idx], callNum)];
    }

    /** The new-bucket branch: append a bucket that has seen only this call,
        then classify it. */
    method AppendNew(callNum: int, sendPatterns: map<int, int>, recvPatterns: map<int, int>)
      requires Valid()
      requires FirstMatch(Buckets, sendPatterns, recvPatterns).None?
      modifies this
      ensures Valid()
      ensures Buckets == old(Buckets) + [Pattern(sendPatterns, recvPatterns, 1, [callNum])]
      ensures Empty == old(Empty) && EmptyBuckets == old(EmptyBuckets) && old(AllPatterns) <= AllPatterns
      ensures forall b :: b in AllPatterns ==> b in old(AllPatterns) || fresh(b)
    {
      var newCp := new CallData(sendPatterns, recvPatterns, 1, [callNum]);
      AppendView(AllPatterns, newCp, OneToMany);
      AppendView(AllPatterns, newCp, ManyToMany);
      AppendView(AllPatterns, newCp, ManyToOne);
      AddOrMergeInvariants(Buckets, callNum, sendPatterns, recvPatterns);
      assert newCp !in Empty;
      AllPatterns := AllPatterns + [newCp];
      Buckets := Buckets + [newCp.Value()];
      ClassifyNew(newCp);
    }

    /** One iteration of ParseFiles: add the call to the buckets and, when it
        exchanged no data, to the all-zero list as well. */
    method AddCall(callNum: int, sendPatterns: map<int, int>, recvPatterns: map<int, int>, zero: bool)
      requires Valid()
      modifies this, set b | b in AllPatterns
      ensures Valid()
      ensures Buckets == AddOrMerge(old(Buckets), callNum, sendPatterns, recvPatterns)
      ensures EmptyBuckets == old(EmptyBuckets) + (if zero then [Pattern(map[], map[], 1, [callNum])] else [])
      ensures forall b :: b in AllPatterns ==> b in old(AllPatterns) || fresh(b)
    {
      AddPattern(callNum, sendPatterns, recvPatterns);
      if zero {
        AppendEmpty(callNum);
      }
    }

    /** Record an all-zero call: a fresh bucket with no shapes that has
        seen only this call. */
    method AppendEmpty(callNum: int)
      requires Valid()
      modifies this
      ensures Valid()
      ensures EmptyBuckets == old(EmptyBuckets) + [Pattern(map[], map[], 1, [callNum])]
      ensures AllPatterns == old(AllPatterns) && Buckets == old(Buckets)
    {
      var emptyPattern := new CallData(map[], map[], 1, [callNum]);
      Empty := Empty + [emptyPattern];
      EmptyBuckets := EmptyBuckets + [emptyPattern.Value()];
    }

    /** The classification loop of a new bucket: one reference to it in a
        view per send entry that earns that view's tag, the entries visited
        in any order. */
    method ClassifyNew(newCp: CallData)
      modifies this
      ensures AllPatterns == old(AllPatterns) && Empty == old(Empty) && Buckets == old(Buckets) && EmptyBuckets == old(EmptyBuckets)
      ensures OneToN == old(OneToN) + Repeat(newCp, NumTagged(newCp.Send, OneToMany))
      ensures NToN == old(NToN) + Repeat(newCp, NumTagged(newCp.Send, ManyToMany))
      ensures NToOne == old(NToOne) + Repeat(newCp, NumTagged(newCp.Send, ManyToOne))
    {
      var sendPatterns := newCp.Send;
      ghost var oneToN0, nToN0, nToOne0 := OneToN, NToN, NToOne;
      ghost var all0, empty0, buckets0, emptyBuckets0 := AllPatterns, Empty, Buckets, EmptyBuckets;
      var rest := sendPatterns.Keys;
      ghost var done: set<int> := {};
      while rest != {}
        invariant rest + done == sendPatterns.Keys && rest !! done
        invariant AllPatterns == all0 && Empty == empty0 && Buckets == buckets0 && EmptyBuckets == emptyBuckets0
        invariant OneToN == oneToN0 + Repeat(newCp, |TaggedKeys(sendPatterns, done, OneToMany)|)
        invariant NToN == nToN0 + Repeat(newCp, |TaggedKeys(sendPatterns, done, ManyToMany)|)
        invariant NToOne == nToOne0 + Repeat(newCp, |TaggedKeys(sendPatterns, done, ManyToOne)|)
        decreases rest
      {
        NonEmptySet(rest);
        var sendTo :| sendTo in rest;
        ClassifyEntry(newCp, sendTo, done, oneToN0, nToN0, nToOne0);
        rest := rest - {sendTo};
        done := done + {sendTo};
      }
      assert TaggedKeys(sendPatterns, done, OneToMany) == TaggedKeys(sendPatterns, sendPatterns.Keys, OneToMany);
      assert TaggedKeys(sendPatterns, done, ManyToMany) == TaggedKeys(sendPatterns, sendPatterns.Keys, ManyToMany);
      assert TaggedKeys(sendPatterns, done, ManyToOne) == TaggedKeys(sendPatterns, sendPatterns.Keys, ManyToOne);
    }

    /** One step of the classification loop: the entry for `sendTo` earns
        at most one tag, and the view of that tag one more reference. */
    method ClassifyEntry(newCp: CallData, sendTo: int, ghost done: set<int>,
                         ghost oneToN0: seq<CallData>, ghost nToN0: seq<CallData>, ghost nToOne0: seq<CallData>)
      requires sendTo in newCp.Send && sendTo !in done
      requires OneToN == oneToN0 + Repeat(newCp, |TaggedKeys(newCp.Send, done, OneToMany)|)
      requires NToN == nToN0 + Repeat(newCp, |TaggedKeys(newCp.Send, done, ManyToMany)|)
      requires NToOne == nToOne0 + Repeat(newCp, |TaggedKeys(newCp.Send, done, ManyToOne)|)
      modifies this
      ensures AllPatterns == old(AllPatterns) && Empty == old(Empty) && Buckets == old(Buckets) && EmptyBuckets == old(EmptyBuckets)
      ensures OneToN == oneToN0 + Repeat(newCp, |TaggedKeys(newCp.Send, done + {sendTo}, OneToMany)|)
      ensures NToN == nToN0 + Repeat(newCp, |TaggedKeys(newCp.Send, done + {sendTo}, ManyToMany)|)
      ensures NToOne == nToOne0 + Repeat(newCp, |TaggedKeys(newCp.Send, done + {sendTo}, ManyToOne)|)
    {
      var n := newCp.Send[sendTo];
      TaggedKeysStep(newCp.Send, done, sendTo, OneToMany);
      TaggedKeysStep(newCp.Send, done, sendTo, ManyToMany);
      TaggedKeysStep(newCp.Send, done, sendTo, ManyToOne);
      if sendTo > n * 100 {
        OneToN := OneToN + [newCp];
      } else if sendTo == n {
        NToN := NToN + [newCp];
      } else if sendTo * 100 < n {
        NToOne := NToOne + [newCp];
      }
    }
  }

  lemma NonEmptySet(s: set<int>)
    requires s != {}
    ensures exists k :: k in s
  {
    if forall k :: k !in s {
      assert false;
    }
  }

  lemma AppendView(s: seq<CallData>, b: CallData, t: Topology)
    ensures View(s + [b], t) == View(s, t) + Repeat(b, NumTagged(b.Send, t))
  {
    assert (s + [b])[..|s|] == s;
  }

  lemma FirstMatchIs(ps: seq<Pattern>, send: map<int, int>, recv: map<int, int>, k: nat)
    requires k < |ps| && Matches(ps[k], send, recv)
    requires forall j :: 0 <= j < k ==> !Matches(ps[j], send, recv)
    ensures FirstMatch(ps, send, recv) == Some(k)
  {
  }

  // ---------------------------------------------------------------------
  // Driving the store once per call

  /** The range 0, 1, ..., n - 1. */
  function Range(n: nat): (r: seq<int>)
    ensures |r| == n && forall i :: 0 <= i < n ==> r[i] == i
  {
    if n == 0 then [] else Range(n - 1) + [n - 1]
  }

  /** The all-zero list after calls 0 .. n-1 when each of them exchanged
      no data (`zero`) or when none of them did. */
  function EmptyCalls(n: nat, zero: bool): (r: seq<Pattern>)
    ensures |r| == (if zero then n else 0)
    ensures zero ==> forall i :: 0 <= i < n ==> r[i] == Pattern(map[], map[], 1, [i])
  {
    if !zero || n == 0 then [] else EmptyCalls(n - 1, zero) + [Pattern(map[], map[], 1, [n - 1])]
  }

  /** ParseFiles: for i = 0 .. numCalls-1, ask the counts package for the
      call data, add call i to the store under the shapes it returns, and
      record call i as all-zero when its non-zero send and receive totals
      are both 0. The counts package is invoked with the same arguments on
      every iteration, so its answer, `parsed` with error `parseErr`, is the
      same each time; a failure is returned together with that answer and
      the store built so far. `initial` is the fresh record the counts
      package creates for the size threshold; only its call total changes. */
  method ParseFiles(numCalls: int, initial: SendRecvStats, parsed: SendRecvStats, parseErr: Option<string>)
    returns (stats: SendRecvStats, patterns: Data, err: Option<string>)
    ensures fresh(patterns) && patterns.Valid()
    ensures parseErr.Some? && numCalls > 0 ==>
      err == parseErr && stats == parsed && patterns.Buckets == [] && patterns.EmptyBuckets == []
    ensures parseErr.None? || numCalls <= 0 ==>
      var n := if numCalls < 0 then 0 else numCalls;
      && err.None?
      && stats == initial.(totalNumCalls := initial.totalNumCalls + n)
      && patterns.Buckets == OneBucket(Shape(parsed.sendPatterns, parsed.recvPatterns), n)
      && patterns.EmptyBuckets == EmptyCalls(n, parsed.totalSendNonZeroCounts == 0 && parsed.totalRecvNonZeroCounts == 0)
  {
    patterns := new Data();
    stats := initial;
    var zero := parsed.totalSendNonZeroCounts == 0 && parsed.totalRecvNonZeroCounts == 0;
    ghost var shape := Shape(parsed.sendPatterns, parsed.recvPatterns);
    var i := 0;
    while i < numCalls
      invariant 0 <= i <= (if numCalls < 0 then 0 else numCalls)
      invariant patterns.Valid()
      invariant forall b :: b in patterns.AllPatterns ==> fresh(b)
      invariant patterns.Buckets == OneBucket(shape, i)
      invariant patterns.EmptyBuckets == EmptyCalls(i, zero)
      invariant stats == initial.(totalNumCalls := initial.totalNumCalls + i)
      invariant parseErr.Some? ==> i == 0
    {
      if parseErr.Some? {
        return parsed, patterns, parseErr;
      }
      AddParsedCall(patterns, i, parsed, zero, shape);
      stats := stats.(totalNumCalls := stats.totalNumCalls + 1);
      i := i + 1;
    }
    assert i == (if numCalls < 0 then 0 else numCalls);
    err := None;
  }

  /** One turn of the ParseFiles loop: call i joins the single bucket. */
  method AddParsedCall(patterns: Data, i: nat, parsed: SendRecvStats, zero: bool, ghost shape: Shape)
    requires patterns.Valid()
    requires shape == Shape(parsed.sendPatterns, parsed.recvPatterns)
    requires patterns.Buckets == OneBucket(shape, i) && patterns.EmptyBuckets == EmptyCalls(i, zero)
    modifies patterns, set b | b in patterns.AllPatterns
    ensures patterns.Valid()
    ensures patterns.Buckets == OneBucket(shape, i + 1) && patterns.EmptyBuckets == EmptyCalls(i + 1, zero)
    ensures forall b :: b in patterns.AllPatterns ==> b in old(patterns.AllPatterns) || fresh(b)
  {
    OneBucketStep(shape, i);
    patterns.AddCall(i, parsed.sendPatterns, parsed.recvPatterns, zero);
  }

  /** The buckets after calls 0 .. n-1 that all have the same shapes. */
  function OneBucket(shape: Shape, n: nat): seq<Pattern> {
    if n == 0 then [] else [Pattern(shape.send, shape.recv, n, Range(n))]
  }

  lemma OneBucketStep(shape: Shape, n: nat)
    ensures AddOrMerge(OneBucket(shape, n), n, shape.send, shape.recv) == OneBucket(shape, n + 1)
  {
    if n == 0 {
      assert Range(1) == [0];
    } else {
      assert Matches(OneBucket(shape, n)[0], shape.send, shape.recv);
      assert FirstMatch(OneBucket(shape, n), shape.send, shape.recv) == Some(0);
      assert Range(n + 1) == Range(n) + [n];
    }
  }

  /** Since the counts package gives the same answer for every call, all
      calls share one bucket: ParseFiles builds exactly what adding the
      calls one by one to a list of buckets builds. */
  lemma {:induction false} BuildSameShape(shape: Shape, n: nat)
    ensures Build(Repeat(shape, n)) == OneBucket(shape, n)
  {
    if n > 0 {
      var s := Repeat(shape, n);
      assert s[..n - 1] == Repeat(shape, n - 1);
      BuildSameShape(shape, n - 1);
      OneBucketStep(shape, n - 1);
    }
  }
}
