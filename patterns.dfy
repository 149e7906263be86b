/**
  The value level of the pattern engine: what a pattern bucket holds, how two
  communication shapes are compared, how one call is merged into an ordered
  list of buckets, how a send shape is classified, and how the buckets of
  two sub-communicators are compared. The stores that hold these buckets as
  mutable objects are in PatternStore and SrCountsAnalyzer; both merge calls
  exactly as AddOrMerge does.

  A shape (a "pattern" map) maps a number of peers to the number of ranks
  that send to (or receive from) that many peers.
 */
module Patterns {
  import opened Wrappers

  /** The value of one bucket: the send and receive shapes shared by its
      calls, how many calls it has seen and which ones. */
  datatype Pattern = Pattern(send: map<int, int>, recv: map<int, int>, count: int, calls: seq<int>)

  /** The shapes of one call, as the counts package hands them over. */
  datatype Shape = Shape(send: map<int, int>, recv: map<int, int>)

  /** Two shapes are the same when they have the same keys with the same values. */
  function CompareCallPatterns(p1: map<int, int>, p2: map<int, int>): (r: bool)
    ensures r <==> p1.Keys == p2.Keys && forall k :: k in p1 ==> p1[k] == p2[k]
    ensures r <==> p1 == p2
  {
    MapEquality(p1, p2);
    if |p1| != |p2| then false else p1 == p2
  }

  lemma MapEquality(p1: map<int, int>, p2: map<int, int>)
    ensures p1 == p2 <==> p1.Keys == p2.Keys && forall k :: k in p1 ==> p1[k] == p2[k]
  {
    if p1.Keys == p2.Keys && forall k :: k in p1 ==> p1[k] == p2[k] {
      assert forall k :: k in p1 <==> k in p2;
    }
  }

  predicate Matches(p: Pattern, send: map<int, int>, recv: map<int, int>) {
    CompareCallPatterns(p.send, send) && CompareCallPatterns(p.recv, recv)
  }

  /** The first bucket, in list order, whose shapes equal the given ones. */
  function FirstMatch(ps: seq<Pattern>, send: map<int, int>, recv: map<int, int>): (r: Option<nat>)
    ensures r.Some? ==> r.value < |ps| && ps[r.value].send == send && ps[r.value].recv == recv
    ensures r.Some? ==> forall j :: 0 <= j < r.value ==> !Matches(ps[j], send, recv)
    ensures r.None? <==> forall j :: 0 <= j < |ps| ==> !Matches(ps[j], send, recv)
  {
    FirstMatchFrom(ps, send, recv, 0)
  }

  /** The scan of the buckets from index `i` on. */
  function FirstMatchFrom(ps: seq<Pattern>, send: map<int, int>, recv: map<int, int>, i: nat): (r: Option<nat>)
    requires i <= |ps|
    ensures r.Some? ==> i <= r.value < |ps| && Matches(ps[r.value], send, recv)
    ensures r.Some? ==> forall j :: i <= j < r.value ==> !Matches(ps[j], send, recv)
    ensures r.None? <==> forall j :: i <= j < |ps| ==> !Matches(ps[j], send, recv)
    decreases |ps| - i
  {
    if i == |ps| then None
    else if Matches(ps[i], send, recv) then Some(i)
    else FirstMatchFrom(ps, send, recv, i + 1)
  }

  /** One call added to a list of buckets: merged into the first bucket with
      the same shapes, or appended as a new bucket that has seen only it. */
  function AddOrMerge(ps: seq<Pattern>, callNum: int, send: map<int, int>, recv: map<int, int>): (r: seq<Pattern>)
  {
    match FirstMatch(ps, send, recv)
    case Some(k) => ps[k := Bumped(ps[k], callNum)]
    case None => ps + [Pattern(send, recv, 1, [callNum])]
  }

  /** The buckets left by adding call 0, 1, ... in turn, call i having shapes[i]. */
  function Build(shapes: seq<Shape>): seq<Pattern> {
    if shapes == [] then []
    else
      var n := |shapes| - 1;
      AddOrMerge(Build(shapes[..n]), n, shapes[n].send, shapes[n].recv)
  }

  // ---------------------------------------------------------------------
  // Invariants of a bucket list

  /** No two buckets share both shapes. */
  ghost predicate NoDuplicates(ps: seq<Pattern>) {
    forall i, j :: 0 <= i < j < |ps| ==> !(ps[i].send == ps[j].send && ps[i].recv == ps[j].recv)
  }

  ghost predicate CountsMatchCalls(ps: seq<Pattern>) {
    forall i :: 0 <= i < |ps| ==> ps[i].count == |ps[i].calls|
  }

  ghost predicate Increasing(s: seq<int>) {
    forall a, b :: 0 <= a < b < |s| ==> s[a] < s[b]
  }

  function TotalCount(ps: seq<Pattern>): int {
    if ps == [] then 0 else TotalCount(ps[..|ps| - 1]) + ps[|ps| - 1].count
  }

  lemma {:induction false} TotalCountUpdate(ps: seq<Pattern>, k: nat, p: Pattern)
    requires k < |ps|
    ensures TotalCount(ps[k := p]) == TotalCount(ps) - ps[k].count + p.count
    decreases |ps|
  {
    var n := |ps| - 1;
    if k < n {
      assert ps[k := p][..n] == ps[..n][k := p];
      TotalCountUpdate(ps[..n], k, p);
    } else {
      assert ps[k := p][..n] == ps[..n];
    }
  }

  lemma TotalCountAppend(ps: seq<Pattern>, p: Pattern)
    ensures TotalCount(ps + [p]) == TotalCount(ps) + p.count
  {
    assert (ps + [p])[..|ps|] == ps;
  }

  /** Every merge adds exactly one call to exactly one bucket and keeps the
      buckets distinct and their counts equal to their call lists' lengths. */
  lemma AddOrMergeInvariants(ps: seq<Pattern>, callNum: int, send: map<int, int>, recv: map<int, int>)
    requires NoDuplicates(ps) && CountsMatchCalls(ps)
    ensures NoDuplicates(AddOrMerge(ps, callNum, send, recv))
    ensures CountsMatchCalls(AddOrMerge(ps, callNum, send, recv))
    ensures TotalCount(AddOrMerge(ps, callNum, send, recv)) == TotalCount(ps) + 1
  {
    match FirstMatch(ps, send, recv)
    case Some(k) =>
      TotalCountUpdate(ps, k, Bumped(ps[k], callNum));
      BumpedKeepsDistinct(ps, k, callNum);
    case None =>
      TotalCountAppend(ps, Pattern(send, recv, 1, [callNum]));
      assert NoDuplicates(ps + [Pattern(send, recv, 1, [callNum])]) by {
        assert forall i :: 0 <= i < |ps| ==> !Matches(ps[i], send, recv);
      }
  }

  lemma BumpedKeepsDistinct(ps: seq<Pattern>, k: nat, callNum: int)
    requires k < |ps| && NoDuplicates(ps) && CountsMatchCalls(ps)
    ensures NoDuplicates(ps[k := Bumped(ps[k], callNum)]) && CountsMatchCalls(ps[k := Bumped(ps[k], callNum)])
  {
  }

  /** What adding calls 0 .. n-1 leaves: distinct buckets in order of first
      appearance, each holding, in increasing order, exactly the calls whose
      shapes are its own, and a bucket for the shapes of every call. */
  ghost predicate Partitions(ps: seq<Pattern>, shapes: seq<Shape>) {
    && NoDuplicates(ps)
    && CountsMatchCalls(ps)
    && WellOrdered(ps)
    && CallsInRange(ps, |shapes|)
    && CallsMatchShapes(ps, shapes)
    && EveryShapeHasBucket(ps, shapes)
  }

  /** Each bucket's calls are increasing, and buckets come in the order of their first call. */
  ghost predicate WellOrdered(ps: seq<Pattern>) {
    && (forall i :: 0 <= i < |ps| ==> Increasing(ps[i].calls) && |ps[i].calls| >= 1)
    && (forall i, j :: 0 <= i < j < |ps| ==> ps[i].calls[0] < ps[j].calls[0])
  }

  ghost predicate CallsInRange(ps: seq<Pattern>, n: int) {
    forall i, c :: 0 <= i < |ps| && c in ps[i].calls ==> 0 <= c < n
  }

  ghost predicate CallsMatchShapes(ps: seq<Pattern>, shapes: seq<Shape>) {
    forall i, c :: 0 <= i < |ps| && 0 <= c < |shapes| ==>
      (c in ps[i].calls <==> ps[i].send == shapes[c].send && ps[i].recv == shapes[c].recv)
  }

  ghost predicate EveryShapeHasBucket(ps: seq<Pattern>, shapes: seq<Shape>) {
    forall c :: 0 <= c < |shapes| ==>
      exists i :: 0 <= i < |ps| && ps[i].send == shapes[c].send && ps[i].recv == shapes[c].recv
  }

  /** Every call lies in exactly one bucket. */
  lemma PartitionsExactlyOne(ps: seq<Pattern>, shapes: seq<Shape>, c: int)
    requires Partitions(ps, shapes) && 0 <= c < |shapes|
    ensures exists i :: 0 <= i < |ps| && c in ps[i].calls
    ensures forall i, j :: 0 <= i < |ps| && 0 <= j < |ps| && c in ps[i].calls && c in ps[j].calls ==> i == j
  {
    assert EveryShapeHasBucket(ps, shapes) && CallsMatchShapes(ps, shapes);
    var i :| 0 <= i < |ps| && ps[i].send == shapes[c].send && ps[i].recv == shapes[c].recv;
    assert c in ps[i].calls;
    assert NoDuplicates(ps);
  }

  /** The bucket that call n is merged into, as AddOrMerge leaves it. */
  function Bumped(p: Pattern, callNum: int): Pattern {
    p.(count := p.count + 1, calls := p.calls + [callNum])
  }

  lemma MergeKeepsPartition(ps: seq<Pattern>, shapes: seq<Shape>, k: nat)
    requires |shapes| >= 1
    requires Partitions(ps, shapes[..|shapes| - 1])
    requires FirstMatch(ps, shapes[|shapes| - 1].send, shapes[|shapes| - 1].recv) == Some(k)
    ensures Partitions(AddOrMerge(ps, |shapes| - 1, shapes[|shapes| - 1].send, shapes[|shapes| - 1].recv), shapes)
  {
    var n := |shapes| - 1;
    var send, recv := shapes[n].send, shapes[n].recv;
    AddOrMergeInvariants(ps, n, send, recv);
    var r := AddOrMerge(ps, n, send, recv);
    assert r == ps[k := Bumped(ps[k], n)];
    MergeWellOrdered(ps, k, n);
    MergeMatchesShapes(ps, shapes, k);
    MergeEveryShape(ps, shapes, k);
  }

  lemma MergeWellOrdered(ps: seq<Pattern>, k: nat, n: nat)
    requires k < |ps| && WellOrdered(ps) && CallsInRange(ps, n)
    ensures WellOrdered(ps[k := Bumped(ps[k], n)]) && CallsInRange(ps[k := Bumped(ps[k], n)], n + 1)
  {
    var r := ps[k := Bumped(ps[k], n)];
    var calls := ps[k].calls + [n];
    forall a, b | 0 <= a < b < |calls| ensures calls[a] < calls[b] {
      if b == |calls| - 1 {
        assert calls[a] == ps[k].calls[a] && calls[a] in ps[k].calls;
      } else {
        assert calls[a] == ps[k].calls[a] && calls[b] == ps[k].calls[b];
      }
    }
    assert r[k].calls == calls && Increasing(calls);
    assert r[k].calls[0] == ps[k].calls[0];
    forall i, c | 0 <= i < |r| && c in r[i].calls ensures 0 <= c < n + 1 {
      if i == k {
        if c != n {
          assert c in ps[k].calls;
        }
      } else {
        assert r[i] == ps[i];
      }
    }
  }

  lemma MergeMatchesShapes(ps: seq<Pattern>, shapes: seq<Shape>, k: nat)
    requires |shapes| >= 1 && k < |ps|
    requires NoDuplicates(ps) && CallsInRange(ps, |shapes| - 1)
    requires CallsMatchShapes(ps, shapes[..|shapes| - 1])
    requires ps[k].send == shapes[|shapes| - 1].send && ps[k].recv == shapes[|shapes| - 1].recv
    ensures CallsMatchShapes(ps[k := Bumped(ps[k], |shapes| - 1)], shapes)
  {
    var n := |shapes| - 1;
    var r := ps[k := Bumped(ps[k], n)];
    forall i, c | 0 <= i < |r| && 0 <= c < |shapes|
      ensures c in r[i].calls <==> r[i].send == shapes[c].send && r[i].recv == shapes[c].recv
    {
      if c == n {
        if i != k {
          assert n !in ps[i].calls;
        }
      } else {
        assert shapes[c] == shapes[..n][c];
      }
    }
  }

  lemma MergeEveryShape(ps: seq<Pattern>, shapes: seq<Shape>, k: nat)
    requires |shapes| >= 1 && k < |ps|
    requires EveryShapeHasBucket(ps, shapes[..|shapes| - 1])
    requires ps[k].send == shapes[|shapes| - 1].send && ps[k].recv == shapes[|shapes| - 1].recv
    ensures EveryShapeHasBucket(ps[k := Bumped(ps[k], |shapes| - 1)], shapes)
  {
    var n := |shapes| - 1;
    var r := ps[k := Bumped(ps[k], n)];
    forall c | 0 <= c < |shapes|
      ensures exists i :: 0 <= i < |r| && r[i].send == shapes[c].send && r[i].recv == shapes[c].recv
    {
      if c == n {
        assert r[k].send == shapes[c].send && r[k].recv == shapes[c].recv;
      } else {
        assert shapes[c] == shapes[..n][c];
        var i :| 0 <= i < |ps| && ps[i].send == shapes[..n][c].send && ps[i].recv == shapes[..n][c].recv;
        assert r[i].send == ps[i].send && r[i].recv == ps[i].recv;
      }
    }
  }

  lemma NewKeepsPartition(ps: seq<Pattern>, shapes: seq<Shape>)
    requires |shapes| >= 1
    requires Partitions(ps, shapes[..|shapes| - 1])
    requires FirstMatch(ps, shapes[|shapes| - 1].send, shapes[|shapes| - 1].recv).None?
    ensures Partitions(AddOrMerge(ps, |shapes| - 1, shapes[|shapes| - 1].send, shapes[|shapes| - 1].recv), shapes)
  {
    var n := |shapes| - 1;
    var send, recv := shapes[n].send, shapes[n].recv;
    var r := AddOrMerge(ps, n, send, recv);
    assert r == ps + [Pattern(send, recv, 1, [n])];
    assert NoDuplicates(r) && CountsMatchCalls(r) by {
      AddOrMergeInvariants(ps, n, send, recv);
    }
    assert WellOrdered(r) by {
      forall i | 0 <= i < |ps| ensures ps[i].calls[0] < n {
        assert ps[i].calls[0] in ps[i].calls;
      }
    }
    assert CallsInRange(r, |shapes|) by {
      assert CallsInRange(ps, n);
    }
    assert CallsMatchShapes(r, shapes) by {
      NewMatchesShapes(ps, shapes);
    }
    assert EveryShapeHasBucket(r, shapes) by {
      NewEveryShape(ps, shapes);
    }
  }

  lemma NewMatchesShapes(ps: seq<Pattern>, shapes: seq<Shape>)
    requires |shapes| >= 1
    requires CallsInRange(ps, |shapes| - 1) && CallsMatchShapes(ps, shapes[..|shapes| - 1])
    requires EveryShapeHasBucket(ps, shapes[..|shapes| - 1])
    requires forall j :: 0 <= j < |ps| ==> !Matches(ps[j], shapes[|shapes| - 1].send, shapes[|shapes| - 1].recv)
    ensures CallsMatchShapes(ps + [Pattern(shapes[|shapes| - 1].send, shapes[|shapes| - 1].recv, 1, [|shapes| - 1])], shapes)
  {
    var n := |shapes| - 1;
    var prev := shapes[..n];
    var send, recv := shapes[n].send, shapes[n].recv;
    var r := ps + [Pattern(send, recv, 1, [n])];
    forall i, c | 0 <= i < |r| && 0 <= c < |shapes|
      ensures c in r[i].calls <==> r[i].send == shapes[c].send && r[i].recv == shapes[c].recv
    {
      if c < n {
        assert shapes[c] == prev[c];
        if i == |ps| {
          var j :| 0 <= j < |ps| && ps[j].send == prev[c].send && ps[j].recv == prev[c].recv;
          assert !Matches(ps[j], send, recv);
        } else {
          assert r[i] == ps[i];
        }
      } else if i < |ps| {
        assert r[i] == ps[i];
        assert !Matches(ps[i], send, recv);
      }
    }
  }

  lemma NewEveryShape(ps: seq<Pattern>, shapes: seq<Shape>)
    requires |shapes| >= 1
    requires EveryShapeHasBucket(ps, shapes[..|shapes| - 1])
    ensures EveryShapeHasBucket(ps + [Pattern(shapes[|shapes| - 1].send, shapes[|shapes| - 1].recv, 1, [|shapes| - 1])], shapes)
  {
    var n := |shapes| - 1;
    var prev := shapes[..n];
    var r := ps + [Pattern(shapes[n].send, shapes[n].recv, 1, [n])];
    forall c | 0 <= c < |shapes|
      ensures exists i :: 0 <= i < |r| && r[i].send == shapes[c].send && r[i].recv == shapes[c].recv
    {
      if c == n {
        assert r[|ps|].send == shapes[c].send;
      } else {
        assert shapes[c] == prev[c];
        var i :| 0 <= i < |ps| && ps[i].send == prev[c].send && ps[i].recv == prev[c].recv;
        assert r[i].send == ps[i].send;
      }
    }
  }

  lemma {:induction false} BuildPartitions(shapes: seq<Shape>)
    ensures Partitions(Build(shapes), shapes)
    ensures TotalCount(Build(shapes)) == |shapes|
  {
    if shapes != [] {
      var n := |shapes| - 1;
      var ps := Build(shapes[..n]);
      BuildPartitions(shapes[..n]);
      AddOrMergeInvariants(ps, n, shapes[n].send, shapes[n].recv);
      match FirstMatch(ps, shapes[n].send, shapes[n].recv)
      case Some(k) => MergeKeepsPartition(ps, shapes, k);
      case None => NewKeepsPartition(ps, shapes);
    }
  }

  // ---------------------------------------------------------------------
  // Topology classification of a new bucket, from its send shape only

  datatype Topology = OneToMany | ManyToMany | ManyToOne

  /** The tag one send-shape entry (sendTo peers, n ranks) earns: the first
      of the three strict tests, with the factor 100, that it passes. */
  function Classify(sendTo: int, n: int): (r: Option<Topology>)
    ensures n >= 0 && sendTo >= 0 ==>
      && (r == Some(OneToMany) <==> sendTo > n * 100)
      && (r == Some(ManyToMany) <==> sendTo == n)
      && (r == Some(ManyToOne) <==> sendTo * 100 < n)
  {
    if sendTo > n * 100 then Some(OneToMany)
    else if sendTo == n then Some(ManyToMany)
    else if sendTo * 100 < n then Some(ManyToOne)
    else None
  }

  /** The keys of `m`, among `keys`, whose entry earns tag `t`. */
  function TaggedKeys(m: map<int, int>, keys: set<int>, t: Topology): set<int> {
    set k | k in keys && k in m && Classify(k, m[k]) == Some(t)
  }

  /** How many references to a new bucket with send shape `m` view `t` receives. */
  function NumTagged(m: map<int, int>, t: Topology): nat {
    |TaggedKeys(m, m.Keys, t)|
  }

  lemma TaggedKeysStep(m: map<int, int>, keys: set<int>, k: int, t: Topology)
    requires k !in keys
    ensures |TaggedKeys(m, keys + {k}, t)| ==
      |TaggedKeys(m, keys, t)| + (if k in m && Classify(k, m[k]) == Some(t) then 1 else 0)
  {
    if k in m && Classify(k, m[k]) == Some(t) {
      assert TaggedKeys(m, keys + {k}, t) == TaggedKeys(m, keys, t) + {k};
    } else {
      assert TaggedKeys(m, keys + {k}, t) == TaggedKeys(m, keys, t);
    }
  }

  function Repeat<T>(x: T, n: nat): (r: seq<T>)
    ensures |r| == n && forall i :: 0 <= i < n ==> r[i] == x
  {
    if n == 0 then [] else Repeat(x, n - 1) + [x]
  }

  // ---------------------------------------------------------------------
  // Comparing the results of two sub-communicators

  /** The value of a Data: all buckets, the three topology views (which hold
      buckets of allPatterns), and the all-zero calls. */
  datatype Snapshot = Snapshot(
    allPatterns: seq<Pattern>,
    oneToN: seq<Pattern>,
    nToN: seq<Pattern>,
    nToOne: seq<Pattern>,
    empty: seq<Pattern>)

  /** Go's zero Data, what indexing a map with a missing rank yields. */
  const NoPatterns := Snapshot([], [], [], [], [])

  function Side(p: Pattern, ctx: string): map<int, int> {
    if ctx == "SEND" then p.send else p.recv
  }

  /** Some entry of the shape has `numRanks` ranks. */
  predicate HasRanks(m: map<int, int>, numRanks: int) {
    exists numPeers :: numPeers in m && m[numPeers] == numRanks
  }

  /** The count of the first bucket having, on the side named by `ctx`, an
      entry whose value is `numRanks`; 0 when there is none. The number of
      peers is compared with itself, so any key matches. */
  function PatternIsInList(numPeers: int, numRanks: int, ctx: string, ps: seq<Pattern>): (r: int)
    ensures (forall j :: 0 <= j < |ps| ==> !HasRanks(Side(ps[j], ctx), numRanks)) ==> r == 0
    ensures forall j ::
      (0 <= j < |ps| && HasRanks(Side(ps[j], ctx), numRanks) &&
       forall i :: 0 <= i < j ==> !HasRanks(Side(ps[i], ctx), numRanks)) ==> r == ps[j].count
  {
    if ps == [] then 0
    else if exists numP :: numP in Side(ps[0], ctx) && numP == numP && numRanks == Side(ps[0], ctx)[numP] then ps[0].count
    else PatternIsInList(numPeers, numRanks, ctx, ps[1..])
  }

  /** Every send entry, then every receive entry, of list 1 is looked up in
      list 2; a lookup giving 0 makes the lists differ. Differing counts are
      only logged by the source. */
  predicate SameListOfPatterns(patterns1: seq<Pattern>, patterns2: seq<Pattern>) {
    && (forall i, numPeers :: 0 <= i < |patterns1| && numPeers in patterns1[i].send ==>
          PatternIsInList(numPeers, patterns1[i].send[numPeers], "SEND", patterns2) != 0)
    && (forall i, numPeers :: 0 <= i < |patterns1| && numPeers in patterns1[i].recv ==>
          PatternIsInList(numPeers, patterns1[i].recv[numPeers], "RECV", patterns2) != 0)
  }

  predicate Same(patterns1: Snapshot, patterns2: Snapshot) {
    SameListOfPatterns(patterns1.allPatterns, patterns2.allPatterns)
  }

  predicate NoSummary(d: Snapshot) {
    |d.oneToN| == 0 && |d.nToOne| == 0 && |d.nToN| == 0
  }

  /** With positive counts, a lookup is non-zero exactly when some bucket has
      an entry with that number of ranks, whatever its number of peers. */
  lemma {:induction false} InListNonZero(numPeers: int, numRanks: int, ctx: string, ps: seq<Pattern>)
    requires forall j :: 0 <= j < |ps| ==> ps[j].count >= 1
    ensures PatternIsInList(numPeers, numRanks, ctx, ps) != 0 <==>
      exists j :: 0 <= j < |ps| && HasRanks(Side(ps[j], ctx), numRanks)
  {
    if ps != [] {
      if HasRanks(Side(ps[0], ctx), numRanks) {
        assert PatternIsInList(numPeers, numRanks, ctx, ps) == ps[0].count;
      } else {
        InListNonZero(numPeers, numRanks, ctx, ps[1..]);
        if exists j :: 0 <= j < |ps| && HasRanks(Side(ps[j], ctx), numRanks) {
          var j :| 0 <= j < |ps| && HasRanks(Side(ps[j], ctx), numRanks);
          assert ps[1..][j - 1] == ps[j];
        }
        if exists j :: 0 <= j < |ps[1..]| && HasRanks(Side(ps[1..][j], ctx), numRanks) {
          var j :| 0 <= j < |ps[1..]| && HasRanks(Side(ps[1..][j], ctx), numRanks);
          assert ps[j + 1] == ps[1..][j];
        }
      }
    }
  }

  /** Every value of a side of list 1 occurs as a value of that side of
      some bucket of list 2. */
  ghost predicate ValuesCovered(patterns1: seq<Pattern>, patterns2: seq<Pattern>, ctx: string) {
    forall i, numPeers :: 0 <= i < |patterns1| && numPeers in Side(patterns1[i], ctx) ==>
      exists j :: 0 <= j < |patterns2| && HasRanks(Side(patterns2[j], ctx), Side(patterns1[i], ctx)[numPeers])
  }

  /** When every bucket of list 2 has seen a call, the comparison accepts
      exactly when the numbers of ranks of list 1 all occur in list 2, side
      by side; numbers of peers and counts play no part. */
  lemma SameIffValuesCovered(patterns1: seq<Pattern>, patterns2: seq<Pattern>)
    requires forall j :: 0 <= j < |patterns2| ==> patterns2[j].count >= 1
    ensures SameListOfPatterns(patterns1, patterns2) <==>
      ValuesCovered(patterns1, patterns2, "SEND") && ValuesCovered(patterns1, patterns2, "RECV")
  {
    assert "RECV"[0] != "SEND"[0];
    assert forall p :: Side(p, "SEND") == p.send && Side(p, "RECV") == p.recv;
    forall i, numPeers | 0 <= i < |patterns1| && numPeers in patterns1[i].send {
      InListNonZero(numPeers, patterns1[i].send[numPeers], "SEND", patterns2);
    }
    forall i, numPeers | 0 <= i < |patterns1| && numPeers in patterns1[i].recv {
      InListNonZero(numPeers, patterns1[i].recv[numPeers], "RECV", patterns2);
    }
  }

  /** Two groups whose single buckets have 5 ranks sending to 2 peers and
      5 ranks sending to 7 peers compare as the same: only the number of
      ranks is matched. */
  lemma SameIgnoresPeers()
    ensures var p1 := Snapshot([Pattern(map[2 := 5], map[], 1, [0])], [], [], [], []);
            var p2 := Snapshot([Pattern(map[7 := 5], map[], 1, [0])], [], [], [], []);
            Same(p1, p2) && p1.allPatterns[0].send != p2.allPatterns[0].send
  {
    var p2 := [Pattern(map[7 := 5], map[], 1, [0])];
    assert map[7 := 5][7] == 5;
    assert PatternIsInList(2, 5, "SEND", p2) == 1;
    assert 2 !in map[7 := 5];
  }

  /** A count mismatch does not make two groups differ. */
  lemma SameIgnoresCounts()
    ensures var p1 := Snapshot([Pattern(map[2 := 5], map[], 3, [0, 1, 2])], [], [], [], []);
            var p2 := Snapshot([Pattern(map[2 := 5], map[], 1, [0])], [], [], [], []);
            Same(p1, p2) && p1.allPatterns[0].count != p2.allPatterns[0].count
  {
    var p2 := [Pattern(map[2 := 5], map[], 1, [0])];
    assert map[2 := 5][2] == 5;
    assert PatternIsInList(2, 5, "SEND", p2) == 1;
  }

  /** The thresholds are strict and the tests are tried in order. */
  lemma ClassifyThresholds()
    ensures Classify(101, 1) == Some(OneToMany)
    ensures Classify(100, 1) == None
    ensures Classify(4, 4) == Some(ManyToMany)
    ensures Classify(1, 101) == Some(ManyToOne)
    ensures Classify(1, 100) == None
    ensures Classify(0, 0) == Some(ManyToMany)
  {
  }

  /** A send shape with entries earning two tags puts its bucket in two views. */
  lemma TwoViews()
    ensures NumTagged(map[200 := 1, 3 := 3], OneToMany) == 1
    ensures NumTagged(map[200 := 1, 3 := 3], ManyToMany) == 1
    ensures NumTagged(map[200 := 1, 3 := 3], ManyToOne) == 0
  {
    var m := map[200 := 1, 3 := 3];
    assert m.Keys == {200, 3};
    assert TaggedKeys(m, m.Keys, OneToMany) == {200};
    assert TaggedKeys(m, m.Keys, ManyToMany) == {3};
    assert TaggedKeys(m, m.Keys, ManyToOne) == {};
  }
}
