/**
  The standalone send/receive counts analyzer (srcountsanalyzer.go). Its
  main loop looks up every alltoallv call, adds the call to a store of its
  own (`GlobalPatterns`, buckets of calls with equal send and receive shapes,
  without topology views), counts a dozen per-call values into histograms
  and sums three message counts; the program then prints the histograms
  and lists the buckets.

  The call lookup reads the counts files through a package that is not part
  of this model: it is the parameter `lookup`, giving for call `i` either the
  call's data or an error. A lookup error stops the program (`log.Fatalf`).
 */
module SrCountsAnalyzer {
  import opened Wrappers
  import opened GoText
  import opened Patterns
  import PatternStore
  import PatternReport

  // ---------------------------------------------------------------------
  // The analyzer's bucket store

  /** callPattern: the shapes shared by a bucket's calls, how many calls it
      has seen and which ones. The shapes are set once, when it is created. */
  class CallPattern {
    const send: map<int, int>
    const recv: map<int, int>
    var count: int
    var calls: seq<int>

    /** `new(callPattern)` given its shapes, a count of 1 and the one call. */
    constructor (send: map<int, int>, recv: map<int, int>, callNum: int)
      ensures this.send == send && this.recv == recv && count == 1 && calls == [callNum]
    {
      this.send, this.recv := send, recv;
      count, calls := 1, [callNum];
    }

    function Value(): Pattern
      reads this
    {
      Pattern(send, recv, count, calls)
    }
  }

  class GlobalPatterns {
    var cp: seq<CallPattern>

    /** The values of the buckets, kept beside them for the proofs. */
    ghost var Buckets: seq<Pattern>

    /** Go's zero value: no bucket. */
    constructor ()
      ensures Valid() && cp == [] && Buckets == []
    {
      cp, Buckets := [], [];
    }

    /** What addPattern maintains: distinct shape pairs, each count the
        length of its call list. */
    ghost predicate Valid()
      reads this, set b | b in cp
    {
      && |Buckets| == |cp|
      && (forall i :: 0 <= i < |cp| ==> cp[i].Value() == Buckets[i])
      && NoDuplicates(Buckets)
      && CountsMatchCalls(Buckets)
    }

    /** addPattern: the call joins the first bucket whose shapes equal its
        own, or else becomes a new bucket at the end of the list. */
    method AddPattern(callNum: int, sendPatterns: map<int, int>, recvPatterns: map<int, int>)
      requires Valid()
      modifies this, set b | b in cp
      ensures Valid()
      ensures Buckets == AddOrMerge(old(Buckets), callNum, sendPatterns, recvPatterns)
      ensures forall b :: b in cp ==> b in old(cp) || fresh(b)
    {
      var idx := 0;
      while idx < |cp|
        invariant 0 <= idx <= |cp|
        invariant forall j :: 0 <= j < idx ==> !Matches(Buckets[j], sendPatterns, recvPatterns)
      {
        var x := cp[idx];
        if CompareCallPatterns(x.send, sendPatterns) && CompareCallPatterns(x.recv, recvPatterns) {
          PatternStore.FirstMatchIs(Buckets, sendPatterns, recvPatterns, idx);
          Merge(idx, callNum);
          return;
        }
        idx := idx + 1;
      }
      Append(callNum, sendPatterns, recvPatterns);
    }

    /** `x.count++` and `x.calls = append(x.calls, callNum)`. */
    method Merge(idx: nat, callNum: int)
      requires Valid() && idx < |cp|
      modifies this, cp[idx]
      ensures Valid()
      ensures Buckets == old(Buckets)[idx := Bumped(old(Buckets)[idx], callNum)]
      ensures cp == old(cp)
    {
      var x := cp[idx];
      assert forall j :: 0 <= j < |cp| && j != idx ==> cp[j] != x by {
        assert NoDuplicates(Buckets);
      }
      x.count := x.count + 1;
      x.calls := x.calls + [callNum];
      Buckets := Buckets[idx := Bumped(Buckets[idx], callNum)];
    }

    /** A new bucket that has seen only this call, appended to `cp`. */
    method Append(callNum: int, sendPatterns: map<int, int>, recvPatterns: map<int, int>)
      requires Valid()
      requires FirstMatch(Buckets, sendPatterns, recvPatterns).None?
      modifies this
      ensures Valid()
      ensures Buckets == old(Buckets) + [Pattern(sendPatterns, recvPatterns, 1, [callNum])]
      ensures forall b :: b in cp ==> b in old(cp) || fresh(b)
    {
      var newCp := new CallPattern(sendPatterns, recvPatterns, callNum);
      AddOrMergeInvariants(Buckets, callNum, sendPatterns, recvPatterns);
      cp := cp + [newCp];
      Buckets := Buckets + [newCp.Value()];
    }
  }

  // ---------------------------------------------------------------------
  // What the lookup of one call gives

  /** The fields of a call's data that the analyzer reads. */
  datatype CallInfo = CallInfo(
    sendPatterns: map<int, int>, recvPatterns: map<int, int>,
    sendSmallMsgs: int, sendSmallNotZeroMsgs: int, sendLargeMsgs: int,
    sendDatatypeSize: int, recvDatatypeSize: int, commSize: int,
    sendMin: int, recvMin: int, sendMax: int, recvMax: int,
    sendNotZeroMin: int, recvNotZeroMin: int,
    totalSendZeroCounts: int, totalRecvZeroCounts: int)

  /** The per-call values that are counted or summed. */
  datatype Column =
    | SendDatatypeSize | RecvDatatypeSize | CommSize
    | SendMin | RecvMin | SendMax | RecvMax | SendNotZeroMin | RecvNotZeroMin
    | TotalSendZeroCounts | TotalRecvZeroCounts
    | SendSmallMsgs | SendSmallNotZeroMsgs | SendLargeMsgs

  function Get(c: CallInfo, col: Column): int {
    match col
    case SendDatatypeSize => c.sendDatatypeSize
    case RecvDatatypeSize => c.recvDatatypeSize
    case CommSize => c.commSize
    case SendMin => c.sendMin
    case RecvMin => c.recvMin
    case SendMax => c.sendMax
    case RecvMax => c.recvMax
    case SendNotZeroMin => c.sendNotZeroMin
    case RecvNotZeroMin => c.recvNotZeroMin
    case TotalSendZeroCounts => c.totalSendZeroCounts
    case TotalRecvZeroCounts => c.totalRecvZeroCounts
    case SendSmallMsgs => c.sendSmallMsgs
    case SendSmallNotZeroMsgs => c.sendSmallNotZeroMsgs
    case SendLargeMsgs => c.sendLargeMsgs
  }

  /** log.Fatalf("unable to lookup call #%d: %s", i, err). */
  datatype Fatal = Fatal(call: int, msg: string)

  /** The lookups of calls 0 .. n-1 in turn, up to the first error. */
  function Looked(lookup: int -> Result<CallInfo, string>, n: int): Result<seq<CallInfo>, Fatal>
    decreases n
  {
    if n <= 0 then Ok([])
    else match Looked(lookup, n - 1)
      case Err(e) => Err(e)
      case Ok(cs) =>
        match lookup(n - 1)
        case Err(msg) => Err(Fatal(n - 1, msg))
        case Ok(c) => Ok(cs + [c])
  }

  /** The loop gets every call's data when no lookup fails, and otherwise
      stops at the first call whose lookup fails. */
  lemma {:induction false} LookedMeaning(lookup: int -> Result<CallInfo, string>, n: int)
    ensures Looked(lookup, n).Ok? <==> forall i :: 0 <= i < n ==> lookup(i).Ok?
    ensures Looked(lookup, n).Ok? ==>
      var cs := Looked(lookup, n).value;
      |cs| == (if n < 0 then 0 else n) && forall i :: 0 <= i < |cs| ==> lookup(i) == Ok(cs[i])
    ensures Looked(lookup, n).Err? ==>
      var e := Looked(lookup, n).error;
      && 0 <= e.call < n
      && lookup(e.call) == Err(e.msg)
      && forall i :: 0 <= i < e.call ==> lookup(i).Ok?
    decreases n
  {
    if n > 0 {
      LookedMeaning(lookup, n - 1);
    }
  }

  /** Once a lookup fails, the later calls are never looked up. */
  lemma {:induction false} LookedStops(lookup: int -> Result<CallInfo, string>, i: nat, n: int, cs: seq<CallInfo>, msg: string)
    requires Looked(lookup, i) == Ok(cs) && lookup(i) == Err(msg) && i < n
    ensures Looked(lookup, n) == Err(Fatal(i, msg))
    decreases n
  {
    if n - 1 > i {
      LookedStops(lookup, i, n - 1, cs, msg);
    }
  }

  // ---------------------------------------------------------------------
  // Histograms and sums over the calls

  /** `if _, ok := h[k]; ok { h[k]++ } else { h[k] = 1 }`. */
  function Inc(h: map<int, int>, k: int): map<int, int> {
    if k in h then h[k := h[k] + 1] else h[k := 1]
  }

  /** The histogram of one value over calls 0, 1, ... in turn. */
  function Histogram(cs: seq<CallInfo>, col: Column): map<int, int> {
    if cs == [] then map[] else Inc(Histogram(cs[..|cs| - 1], col), Get(cs[|cs| - 1], col))
  }

  /** One value of every call, in call order. */
  function ColumnOf(cs: seq<CallInfo>, col: Column): (r: seq<int>)
    ensures |r| == |cs| && forall i :: 0 <= i < |cs| ==> r[i] == Get(cs[i], col)
  {
    if cs == [] then [] else ColumnOf(cs[..|cs| - 1], col) + [Get(cs[|cs| - 1], col)]
  }

  /** Running total of one value over the calls (Go's `+=`, unbounded here). */
  function SumOf(cs: seq<CallInfo>, col: Column): int {
    if cs == [] then 0 else SumOf(cs[..|cs| - 1], col) + Get(cs[|cs| - 1], col)
  }

  /** The sum of the values of a map. */
  ghost function Total(h: map<int, int>): int
    decreases |h|
  {
    if h.Keys == {} then 0
    else
      PatternStore.NonEmptySet(h.Keys);
      var k :| k in h.Keys;
      h[k] + Total(h - {k})
  }

  lemma {:induction false} TotalRemove(h: map<int, int>, k: int)
    requires k in h
    ensures Total(h) == h[k] + Total(h - {k})
    decreases |h|
  {
    assert h.Keys != {};
    var j :| j in h && Total(h) == h[j] + Total(h - {j});
    if j != k {
      assert k in h - {j} && j in h - {k};
      TotalRemove(h - {j}, k);
      TotalRemove(h - {k}, j);
      assert h - {j} - {k} == h - {k} - {j};
    }
  }

  /** Each counted call adds exactly one to the histogram's total. */
  lemma IncTotal(h: map<int, int>, k: int)
    ensures Total(Inc(h, k)) == Total(h) + 1
  {
    var r := Inc(h, k);
    TotalRemove(r, k);
    assert r - {k} == h - {k};
    if k in h {
      TotalRemove(h, k);
    } else {
      assert h - {k} == h;
    }
  }

  /** A histogram's entries add up to the number of calls counted. */
  lemma {:induction false} HistogramTotal(cs: seq<CallInfo>, col: Column)
    ensures Total(Histogram(cs, col)) == |cs|
    decreases |cs|
  {
    if cs != [] {
      HistogramTotal(cs[..|cs| - 1], col);
      IncTotal(Histogram(cs[..|cs| - 1], col), Get(cs[|cs| - 1], col));
    }
  }

  /** A histogram maps exactly the values that occur to how many calls have them. */
  lemma {:induction false} HistogramCounts(cs: seq<CallInfo>, col: Column)
    ensures Counts(Histogram(cs, col), multiset(ColumnOf(cs, col)))
    decreases |cs|
  {
    if cs != [] {
      var n := |cs| - 1;
      var x := Get(cs[n], col);
      HistogramCounts(cs[..n], col);
      assert ColumnOf(cs, col) == ColumnOf(cs[..n], col) + [x];
      assert multiset(ColumnOf(cs, col)) == multiset(ColumnOf(cs[..n], col)) + multiset{x};
      IncCounts(Histogram(cs[..n], col), multiset(ColumnOf(cs[..n], col)), x);
    }
  }

  /** `h` holds, for each value of `m`, its multiplicity, and nothing else. */
  ghost predicate Counts(h: map<int, int>, m: multiset<int>) {
    && (forall k :: k in h <==> k in m)
    && (forall k :: k in h ==> h[k] == m[k])
  }

  lemma IncCounts(h: map<int, int>, m: multiset<int>, x: int)
    requires Counts(h, m)
    ensures Counts(Inc(h, x), m + multiset{x})
  {
  }

  // ---------------------------------------------------------------------
  // The main loop

  /** The histograms and running sums of the main loop. */
  datatype Tally = Tally(
    datatypesSend: map<int, int>, datatypesRecv: map<int, int>, commSizes: map<int, int>,
    sendMins: map<int, int>, recvMins: map<int, int>, sendMaxs: map<int, int>, recvMaxs: map<int, int>,
    recvNotZeroMins: map<int, int>, sendNotZeroMins: map<int, int>,
    callSendSparsity: map<int, int>, callRecvSparsity: map<int, int>,
    numSendSmallMsgs: int, numSendSmallNotZeroMsgs: int, numSendLargeMsgs: int)

  const NoTally := Tally(map[], map[], map[], map[], map[], map[], map[], map[], map[], map[], map[], 0, 0, 0)

  /** One turn's sums and histogram updates (lines 150-218): each value is
      counted into its histogram, except that the non-zero minima are looked
      up in their own map but counted into the minima, and the two
      non-zero-minima maps are passed on unchanged. */
  function TallyNext(t: Tally, c: CallInfo): Tally {
    Tally(
      Inc(t.datatypesSend, c.sendDatatypeSize), Inc(t.datatypesRecv, c.recvDatatypeSize), Inc(t.commSizes, c.commSize),
      MinsAsWritten(t.sendMins, t.sendNotZeroMins, c.sendMin, c.sendNotZeroMin),
      MinsAsWritten(t.recvMins, t.recvNotZeroMins, c.recvMin, c.recvNotZeroMin),
      Inc(t.sendMaxs, c.sendMax), Inc(t.recvMaxs, c.recvMax),
      t.recvNotZeroMins, t.sendNotZeroMins,
      Inc(t.callSendSparsity, c.totalSendZeroCounts), Inc(t.callRecvSparsity, c.totalRecvZeroCounts),
      t.numSendSmallMsgs + c.sendSmallMsgs, t.numSendSmallNotZeroMsgs + c.sendSmallNotZeroMsgs,
      t.numSendLargeMsgs + c.sendLargeMsgs)
  }

  /** What the loop has counted after the calls `cs`. */
  function TallyOf(cs: seq<CallInfo>): Tally {
    if cs == [] then NoTally else TallyNext(TallyOf(cs[..|cs| - 1]), cs[|cs| - 1])
  }

  /** What the tally holds: a histogram per value, except that the minima
      also receive the non-zero minima, and the two non-zero-minima maps are
      never written; the sums are the running totals. */
  lemma {:induction false} TallyHistograms(cs: seq<CallInfo>)
    ensures TallyOf(cs) == Tally(
      Histogram(cs, SendDatatypeSize), Histogram(cs, RecvDatatypeSize), Histogram(cs, CommSize),
      MinsOf(cs, SendMin, SendNotZeroMin), MinsOf(cs, RecvMin, RecvNotZeroMin),
      Histogram(cs, SendMax), Histogram(cs, RecvMax),
      map[], map[],
      Histogram(cs, TotalSendZeroCounts), Histogram(cs, TotalRecvZeroCounts),
      SumOf(cs, SendSmallMsgs), SumOf(cs, SendSmallNotZeroMsgs), SumOf(cs, SendLargeMsgs))
  {
    TallyCounts(cs);
    TallyMins(cs);
    TallySums(cs);
  }

  lemma {:induction false} TallyCounts(cs: seq<CallInfo>)
    ensures var t := TallyOf(cs);
      && t.datatypesSend == Histogram(cs, SendDatatypeSize) && t.datatypesRecv == Histogram(cs, RecvDatatypeSize)
      && t.commSizes == Histogram(cs, CommSize)
      && t.sendMaxs == Histogram(cs, SendMax) && t.recvMaxs == Histogram(cs, RecvMax)
      && t.callSendSparsity == Histogram(cs, TotalSendZeroCounts)
      && t.callRecvSparsity == Histogram(cs, TotalRecvZeroCounts)
    decreases |cs|
  {
    if cs != [] {
      TallyCounts(cs[..|cs| - 1]);
    }
  }

  lemma {:induction false} TallyMins(cs: seq<CallInfo>)
    ensures var t := TallyOf(cs);
      && t.sendMins == MinsOf(cs, SendMin, SendNotZeroMin) && t.recvMins == MinsOf(cs, RecvMin, RecvNotZeroMin)
      && t.sendNotZeroMins == map[] && t.recvNotZeroMins == map[]
    decreases |cs|
  {
    if cs != [] {
      TallyMins(cs[..|cs| - 1]);
    }
  }

  lemma {:induction false} TallySums(cs: seq<CallInfo>)
    ensures var t := TallyOf(cs);
      && t.numSendSmallMsgs == SumOf(cs, SendSmallMsgs)
      && t.numSendSmallNotZeroMsgs == SumOf(cs, SendSmallNotZeroMsgs)
      && t.numSendLargeMsgs == SumOf(cs, SendLargeMsgs)
    decreases |cs|
  {
    if cs != [] {
      TallySums(cs[..|cs| - 1]);
    }
  }

  function ShapesOf(cs: seq<CallInfo>): (r: seq<Shape>)
    ensures |r| == |cs|
  {
    if cs == [] then [] else ShapesOf(cs[..|cs| - 1]) + [Shape(cs[|cs| - 1].sendPatterns, cs[|cs| - 1].recvPatterns)]
  }

  /** The main loop: for i = 0 .. numCalls-1, look the call up (a failure is
      fatal), add its message counts to the sums, count its values into the
      histograms and add it to the bucket store. */
  method Analyze(numCalls: int, lookup: int -> Result<CallInfo, string>)
    returns (globalPatterns: GlobalPatterns, r: Result<Tally, Fatal>)
    ensures fresh(globalPatterns) && globalPatterns.Valid()
    ensures Looked(lookup, numCalls).Err? ==> r == Err(Looked(lookup, numCalls).error)
    ensures Looked(lookup, numCalls).Ok? ==>
      var cs := Looked(lookup, numCalls).value;
      r == Ok(TallyOf(cs)) && globalPatterns.Buckets == Build(ShapesOf(cs))
  {
    globalPatterns := new GlobalPatterns();
    var t := NoTally;
    ghost var cs: seq<CallInfo> := [];
    var i := 0;
    while i < numCalls
      invariant 0 <= i <= (if numCalls < 0 then 0 else numCalls)
      invariant |cs| == i && Looked(lookup, i) == Ok(cs)
      invariant t == TallyOf(cs)
      invariant globalPatterns.Valid() && globalPatterns.Buckets == Build(ShapesOf(cs))
      invariant forall b :: b in globalPatterns.cp ==> fresh(b)
    {
      var res := lookup(i);
      if res.Err? {
        LookedStops(lookup, i, numCalls, cs, res.error);
        return globalPatterns, Err(Fatal(i, res.error));
      }
      var callInfo := res.value;
      LookedStep(lookup, i, cs, callInfo);
      t := AnalyzeCall(globalPatterns, i, callInfo, t, cs);
      cs := cs + [callInfo];
      i := i + 1;
    }
    LookedAll(lookup, numCalls, i);
    r := Ok(t);
  }

  lemma LookedStep(lookup: int -> Result<CallInfo, string>, i: nat, cs: seq<CallInfo>, c: CallInfo)
    requires Looked(lookup, i) == Ok(cs) && lookup(i) == Ok(c)
    ensures Looked(lookup, i + 1) == Ok(cs + [c])
  {
  }

  lemma LookedAll(lookup: int -> Result<CallInfo, string>, n: int, i: nat)
    requires i == (if n < 0 then 0 else n)
    ensures Looked(lookup, n) == Looked(lookup, i)
  {
  }

  /** One turn of the main loop once the call's data is at hand. */
  method AnalyzeCall(globalPatterns: GlobalPatterns, i: int, callInfo: CallInfo, t: Tally, ghost cs: seq<CallInfo>)
    returns (next: Tally)
    requires i == |cs| && t == TallyOf(cs)
    requires globalPatterns.Valid() && globalPatterns.Buckets == Build(ShapesOf(cs))
    modifies globalPatterns, set b | b in globalPatterns.cp
    ensures next == TallyOf(cs + [callInfo])
    ensures globalPatterns.Valid() && globalPatterns.Buckets == Build(ShapesOf(cs + [callInfo]))
    ensures forall b :: b in globalPatterns.cp ==> b in old(globalPatterns.cp) || fresh(b)
  {
    next := TallyNext(t, callInfo);
    TallyOfSnoc(cs, callInfo);
    AddCall(globalPatterns, i, callInfo, cs);
  }

  /** A call appended to `cs` is one more turn of the tally. */
  lemma TallyOfSnoc(cs: seq<CallInfo>, c: CallInfo)
    ensures TallyOf(cs + [c]) == TallyNext(TallyOf(cs), c)
  {
    assert (cs + [c])[..|cs|] == cs;
  }

  /** Adding call `callNum`, the one after `cs`, to the store extends the buckets of the calls before it. */
  method AddCall(globalPatterns: GlobalPatterns, callNum: int, callInfo: CallInfo, ghost cs: seq<CallInfo>)
    requires callNum == |cs|
    requires globalPatterns.Valid() && globalPatterns.Buckets == Build(ShapesOf(cs))
    modifies globalPatterns, set b | b in globalPatterns.cp
    ensures globalPatterns.Valid() && globalPatterns.Buckets == Build(ShapesOf(cs + [callInfo]))
    ensures forall b :: b in globalPatterns.cp ==> b in old(globalPatterns.cp) || fresh(b)
  {
    ghost var shapes := ShapesOf(cs + [callInfo]);
    assert (cs + [callInfo])[..|cs|] == cs;
    assert shapes[..|cs|] == ShapesOf(cs);
    globalPatterns.AddPattern(callNum, callInfo.sendPatterns, callInfo.recvPatterns);
  }

  // ---------------------------------------------------------------------
  // What the main loop leaves

  /** Every call lies in exactly one bucket, the buckets come in order of
      their first call with increasing call lists, and their counts add up to
      the number of calls. */
  lemma BucketsPartitionCalls(cs: seq<CallInfo>)
    ensures Partitions(Build(ShapesOf(cs)), ShapesOf(cs))
    ensures TotalCount(Build(ShapesOf(cs))) == |cs|
  {
    BuildPartitions(ShapesOf(cs));
  }

  /** Each histogram counts every call once: its entries add up to the
      number of calls. The minima, which also receive the non-zero minima,
      add up to at most twice that, and the non-zero-minima maps stay empty. */
  lemma TallyTotals(cs: seq<CallInfo>)
    ensures var t := TallyOf(cs);
      && Total(t.datatypesSend) == |cs| && Total(t.datatypesRecv) == |cs| && Total(t.commSizes) == |cs|
      && Total(t.sendMaxs) == |cs| && Total(t.recvMaxs) == |cs|
      && Total(t.callSendSparsity) == |cs| && Total(t.callRecvSparsity) == |cs|
      && Total(t.sendMins) <= 2 * |cs| && Total(t.recvMins) <= 2 * |cs|
      && t.sendNotZeroMins == map[] && t.recvNotZeroMins == map[]
  {
    TallyHistograms(cs);
    HistogramTotal(cs, SendDatatypeSize);
    HistogramTotal(cs, RecvDatatypeSize);
    HistogramTotal(cs, CommSize);
    HistogramTotal(cs, SendMax);
    HistogramTotal(cs, RecvMax);
    HistogramTotal(cs, TotalSendZeroCounts);
    HistogramTotal(cs, TotalRecvZeroCounts);
    MinsTotalBound(cs, SendMin, SendNotZeroMin);
    MinsTotalBound(cs, RecvMin, RecvNotZeroMin);
  }

  /** The messages of one call, small and large. */
  function CallMsgs(cs: seq<CallInfo>): int {
    if cs == [] then 0 else CallMsgs(cs[..|cs| - 1]) + cs[|cs| - 1].sendSmallMsgs + cs[|cs| - 1].sendLargeMsgs
  }

  /** totalSendMsgs, the small plus the large counts, is the number of
      messages the calls send. */
  lemma {:induction false} TotalSendMsgs(cs: seq<CallInfo>)
    ensures TallyOf(cs).numSendSmallMsgs + TallyOf(cs).numSendLargeMsgs == CallMsgs(cs)
    decreases |cs|
  {
    if cs != [] {
      TotalSendMsgs(cs[..|cs| - 1]);
    }
  }

  // ---------------------------------------------------------------------
  // The non-zero minima, as written

  /** Lines 172-176 and 196-200 of one turn, for one side: the minimum is
      counted into `mins`, then the non-zero minimum is looked up in
      `notZeroMins` but stored into `mins`, set to 1 when absent there. */
  function MinsAsWritten(mins: map<int, int>, notZeroMins: map<int, int>, min: int, notZeroMin: int): map<int, int> {
    var counted := Inc(mins, min);
    if notZeroMin in notZeroMins then counted[notZeroMin := PatternReport.MapValue(counted, notZeroMin) + 1]
    else counted[notZeroMin := 1]
  }

  /** sendMins (or recvMins) as the loop leaves it: the non-zero-minima map
      it consults is never written, so it is empty at every turn. */
  function MinsOf(cs: seq<CallInfo>, min: Column, notZeroMin: Column): map<int, int> {
    if cs == [] then map[]
    else MinsAsWritten(MinsOf(cs[..|cs| - 1], min, notZeroMin), map[], Get(cs[|cs| - 1], min), Get(cs[|cs| - 1], notZeroMin))
  }

  /** As written, whatever came before, the latest call's non-zero minimum
      is left in the minima with the value 1, and its minimum is counted. */
  lemma MinsAsWrittenOverwrite(cs: seq<CallInfo>, c: CallInfo, min: Column, notZeroMin: Column)
    ensures Get(c, notZeroMin) in MinsOf(cs + [c], min, notZeroMin)
    ensures MinsOf(cs + [c], min, notZeroMin)[Get(c, notZeroMin)] == 1
    ensures Get(c, min) != Get(c, notZeroMin) ==>
      MinsOf(cs + [c], min, notZeroMin)[Get(c, min)] == PatternReport.MapValue(MinsOf(cs, min, notZeroMin), Get(c, min)) + 1
  {
    assert (cs + [c])[..|cs|] == cs;
  }

  /** Setting one entry changes the total by the difference. */
  lemma TotalUpdate(h: map<int, int>, k: int, v: int)
    ensures Total(h[k := v]) == Total(h) - PatternReport.MapValue(h, k) + v
  {
    TotalRemove(h[k := v], k);
    assert h[k := v] - {k} == h - {k};
    if k in h {
      TotalRemove(h, k);
    } else {
      assert h - {k} == h;
    }
  }

  /** The minima as written hold positive counts adding up to at most
      twice the number of calls: each turn adds one for the minimum, then
      replaces whatever the non-zero minimum had by 1. */
  lemma {:induction false} MinsTotalBound(cs: seq<CallInfo>, min: Column, notZeroMin: Column)
    ensures forall k :: k in MinsOf(cs, min, notZeroMin) ==> MinsOf(cs, min, notZeroMin)[k] >= 1
    ensures Total(MinsOf(cs, min, notZeroMin)) <= 2 * |cs|
    decreases |cs|
  {
    if cs != [] {
      var n := |cs| - 1;
      var before := MinsOf(cs[..n], min, notZeroMin);
      MinsTotalBound(cs[..n], min, notZeroMin);
      var counted := Inc(before, Get(cs[n], min));
      IncTotal(before, Get(cs[n], min));
      TotalUpdate(counted, Get(cs[n], notZeroMin), 1);
      assert MinsOf(cs, min, notZeroMin) == counted[Get(cs[n], notZeroMin) := 1];
    }
  }

  /** The call of the counterexample below: send minimum 0, non-zero send minimum 5. */
  const ZeroThenFive := CallInfo(map[], map[], 0, 0, 0, 4, 4, 2, 0, 0, 5, 5, 5, 5, 1, 1)

  /** As written, two such calls leave 0 -> 2 and 5 -> 1 in the minima. */
  lemma MinsOfTwoCalls()
    ensures MinsOf([ZeroThenFive, ZeroThenFive], SendMin, SendNotZeroMin) == map[0 := 2, 5 := 1]
  {
    var c := ZeroThenFive;
    assert [c, c][..1] == [c] && [c][..0] == [];
    assert Get(c, SendMin) == 0 && Get(c, SendNotZeroMin) == 5;
    var once := MinsOf([c], SendMin, SendNotZeroMin);
    assert MinsOf([], SendMin, SendNotZeroMin) == map[];
    assert once == MinsAsWritten(map[], map[], 0, 5);
    assert once == map[0 := 1][5 := 1];
    assert MinsOf([c, c], SendMin, SendNotZeroMin) == once[0 := 2][5 := 1];
  }

  /** Counted into their own histograms, the two calls give 0 -> 2 and 5 -> 2. */
  lemma HistogramsOfTwoCalls()
    ensures Histogram([ZeroThenFive, ZeroThenFive], SendMin) == map[0 := 2]
    ensures Histogram([ZeroThenFive, ZeroThenFive], SendNotZeroMin) == map[5 := 2]
  {
    var c := ZeroThenFive;
    assert [c, c][..1] == [c] && [c][..0] == [];
    assert Get(c, SendMin) == 0 && Get(c, SendNotZeroMin) == 5;
    assert Histogram([], SendMin) == map[] && Histogram([], SendNotZeroMin) == map[];
    assert Histogram([c], SendMin) == map[0 := 1];
    assert Histogram([c], SendNotZeroMin) == map[5 := 1];
  }

  /** Two calls whose send minimum is 0 and whose non-zero send minimum is 5:
      as written, sendMins holds 0 -> 2 and 5 -> 1, three calls in all rather
      than two (the minima) or four (minima and non-zero minima), and the
      second call's non-zero minimum is lost. Counted into its own
      histogram, 5 is seen twice. */
  lemma MinsAsWrittenLoseCounts()
    ensures var t := TallyOf([ZeroThenFive, ZeroThenFive]);
      && t.sendMins == map[0 := 2, 5 := 1]
      && Total(t.sendMins) == 3
      && t.sendNotZeroMins == map[]
    ensures Histogram([ZeroThenFive, ZeroThenFive], SendMin) == map[0 := 2]
    ensures Histogram([ZeroThenFive, ZeroThenFive], SendNotZeroMin) == map[5 := 2]
  {
    TallyHistograms([ZeroThenFive, ZeroThenFive]);
    MinsOfTwoCalls();
    HistogramsOfTwoCalls();
    TotalOfTwoCalls();
  }

  lemma TotalOfTwoCalls()
    ensures Total(map[0 := 2, 5 := 1]) == 3
  {
    var twice := map[0 := 2, 5 := 1];
    TotalRemove(twice, 0);
    assert twice - {0} == map[5 := 1];
    TotalRemove(map[5 := 1], 5);
    assert map[5 := 1] - {5} == map[];
  }

  /** The evidently intended bookkeeping: the minima and the non-zero minima
      each in their own histogram, which then counts every call exactly
      once, under the value it has. */
  lemma IntendedMins(cs: seq<CallInfo>)
    ensures Counts(Histogram(cs, SendMin), multiset(ColumnOf(cs, SendMin)))
    ensures Counts(Histogram(cs, RecvMin), multiset(ColumnOf(cs, RecvMin)))
    ensures Counts(Histogram(cs, SendNotZeroMin), multiset(ColumnOf(cs, SendNotZeroMin)))
    ensures Counts(Histogram(cs, RecvNotZeroMin), multiset(ColumnOf(cs, RecvNotZeroMin)))
    ensures Total(Histogram(cs, SendMin)) == |cs| && Total(Histogram(cs, RecvMin)) == |cs|
    ensures Total(Histogram(cs, SendNotZeroMin)) == |cs| && Total(Histogram(cs, RecvNotZeroMin)) == |cs|
  {
    HistogramCounts(cs, SendMin);
    HistogramCounts(cs, RecvMin);
    HistogramCounts(cs, SendNotZeroMin);
    HistogramCounts(cs, RecvNotZeroMin);
    HistogramTotal(cs, SendMin);
    HistogramTotal(cs, RecvMin);
    HistogramTotal(cs, SendNotZeroMin);
    HistogramTotal(cs, RecvNotZeroMin);
  }

  // ---------------------------------------------------------------------
  // The listing of the buckets

  const PatternsTitle := "\n# Patterns\n"

  /** "## Pattern #%d (%d alltoallv calls)\n". */
  function ListingTitle(num: int, count: int): string {
    Concat(["## Pattern #", Itoa(num), " (", Itoa(count), " alltoallv calls)\n"])
  }

  /** One bucket as printed under number `num`: its title, its calls in
      compressed notation, its shape entries in map order and a blank line. */
  function ListingBlock(num: int, p: Pattern, compress: seq<int> -> string, order: map<int, int> -> seq<int>): seq<string> {
    [ListingTitle(num, p.count), Concat(["Alltoallv calls: ", compress(p.calls), "\n"])]
      + PatternReport.DataLines(p, order) + ["\n"]
  }

  /** The buckets `ps` printed in turn, numbered from `num`. */
  function Listing(ps: seq<Pattern>, num: int, compress: seq<int> -> string, order: map<int, int> -> seq<int>): seq<string> {
    Numbered(ps, num, (n: int, p: Pattern) => ListingBlock(n, p, compress, order))
  }

  /** The blocks of `ps` in turn, the first under number `num`, each next
      one under the next number. */
  function Numbered(ps: seq<Pattern>, num: int, block: (int, Pattern) -> seq<string>): seq<string>
    decreases |ps|
  {
    if ps == [] then [] else block(num, ps[0]) + Numbered(ps[1..], num + 1, block)
  }

  /** The end of main: the "# Patterns" title, then every bucket of the store
      in list order, with a counter `num` that starts at 0. */
  method ListPatterns(globalPatterns: GlobalPatterns, compress: seq<int> -> string, order: map<int, int> -> seq<int>)
    returns (out: seq<string>)
    requires globalPatterns.Valid()
    ensures out == [PatternsTitle] + Listing(globalPatterns.Buckets, 0, compress, order)
  {
    out := [PatternsTitle];
    var num := 0;
    var j := 0;
    while j < |globalPatterns.cp|
      invariant 0 <= j <= |globalPatterns.cp| && num == j
      invariant out + Listing(globalPatterns.Buckets[j..], num, compress, order)
        == [PatternsTitle] + Listing(globalPatterns.Buckets, 0, compress, order)
    {
      var cp := globalPatterns.cp[j];
      assert cp.Value() == globalPatterns.Buckets[j];
      assert globalPatterns.Buckets[j..][1..] == globalPatterns.Buckets[j + 1..];
      out := out + ListingBlock(num, cp.Value(), compress, order);
      num := num + 1;
      j := j + 1;
    }
    assert globalPatterns.Buckets[j..] == [];
  }

  /** The buckets are listed in discovery order and bucket i is printed
      under number i: the listing is that of the buckets before it, then its
      own block, then those after it. */
  lemma ListingNumbers(ps: seq<Pattern>, i: nat, compress: seq<int> -> string, order: map<int, int> -> seq<int>)
    requires i < |ps|
    ensures Listing(ps, 0, compress, order)
      == Listing(ps[..i], 0, compress, order)
         + (ListingBlock(i, ps[i], compress, order) + Listing(ps[i + 1..], i + 1, compress, order))
  {
    var block := (n: int, p: Pattern) => ListingBlock(n, p, compress, order);
    NumberedAt(ps, 0, i, block);
    assert block(0 + i, ps[i]) == ListingBlock(i, ps[i], compress, order);
  }

  lemma {:induction false} NumberedAt(ps: seq<Pattern>, num: int, i: nat, block: (int, Pattern) -> seq<string>)
    requires i < |ps|
    ensures Numbered(ps, num, block)
      == Numbered(ps[..i], num, block) + (block(num + i, ps[i]) + Numbered(ps[i + 1..], num + i + 1, block))
    decreases i
  {
    if i == 0 {
      assert ps[..0] == [];
    } else {
      var rest := ps[1..];
      NumberedAt(rest, num + 1, i - 1, block);
      assert ps[..i][0] == ps[0] && ps[..i][1..] == rest[..i - 1];
      assert rest[i - 1] == ps[i] && rest[i..] == ps[i + 1..];
      var tail := block(num + i, ps[i]) + Numbered(ps[i + 1..], num + i + 1, block);
      assert block(num, ps[0]) + (Numbered(rest[..i - 1], num + 1, block) + tail)
        == (block(num, ps[0]) + Numbered(rest[..i - 1], num + 1, block)) + tail;
    }
  }
}
