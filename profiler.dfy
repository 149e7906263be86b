/**
  The profiler package's own logic: the call-list search, the sums of a
  rank's send and receive counters, the sub-communicator report and the
  per-rank result files. Files are Writers; what the counts package reads
  or writes arrives as parameters.
 */
module Profiler {
  import opened Wrappers
  import opened GoText
  import opened Output
  import opened Counts
  import opened Patterns
  import opened PatternReport
  import PatternStore

  // ---------------------------------------------------------------------
  // containsCall

  /** containsCall: a linear search of the call list. */
  method ContainsCall(callNum: int, calls: seq<int>) returns (found: bool)
    ensures found <==> callNum in calls
  {
    var i := 0;
    while i < |calls|
      invariant 0 <= i <= |calls|
      invariant callNum !in calls[..i]
    {
      if calls[i] == callNum {
        return true;
      }
      assert calls[..i + 1] == calls[..i] + [calls[i]];
      i := i + 1;
    }
    assert calls[..i] == calls;
    return false;
  }

  // ---------------------------------------------------------------------
  // GetCallRankData: Go's int is 64 bits wide and wraps around

  const TwoTo64: int := 0x1_0000_0000_0000_0000

  /** The 64-bit two's complement value congruent to `x`. */
  function Wrap(x: int): (r: int)
    ensures Int64Min <= r <= Int64Max
  {
    (x - Int64Min) % TwoTo64 + Int64Min
  }

  /** Wrapping changes a value by a multiple of 2^64. */
  lemma WrapResidue(x: int)
    ensures (Wrap(x) - x) % TwoTo64 == 0
  {
  }

  /** Congruent integers wrap to the same value. */
  lemma WrapCongruent(x: int, y: int)
    requires (x - y) % TwoTo64 == 0
    ensures Wrap(x) == Wrap(y)
  {
    var q := (x - y) / TwoTo64;
    assert x - Int64Min == (y - Int64Min) + q * TwoTo64;
  }

  lemma WrapAdd(a: int, b: int)
    ensures Wrap(Wrap(a) + b) == Wrap(a + b)
  {
    WrapResidue(a);
    WrapCongruent(Wrap(a) + b, a + b);
  }

  lemma WrapMul(a: int, b: int)
    ensures Wrap(Wrap(a) * b) == Wrap(a * b)
  {
    WrapResidue(a);
    var q := (Wrap(a) - a) / TwoTo64;
    assert Wrap(a) == a + q * TwoTo64;
    assert Wrap(a) * b - a * b == (q * b) * TwoTo64;
    WrapCongruent(Wrap(a) * b, a * b);
  }

  /** Within 64 bits nothing wraps. */
  lemma WrapInRange(x: int)
    requires Int64Min <= x <= Int64Max
    ensures Wrap(x) == x
  {
  }

  function Sum(ns: seq<int>): int {
    if ns == [] then 0 else Sum(ns[..|ns| - 1]) + ns[|ns| - 1]
  }

  /** The values of the tokens of a counter line, empty tokens skipped;
      the first token strconv.Atoi rejects is the error. */
  function Values(tokens: seq<string>): Result<seq<int>, string> {
    if tokens == [] then Ok([])
    else if tokens[0] == "" then Values(tokens[1..])
    else match Atoi(tokens[0])
      case None => Err(tokens[0])
      case Some(n) =>
        match Values(tokens[1..])
        case Ok(ns) => Ok([n] + ns)
        case Err(t) => Err(t)
  }

  /** The tokens of a counter line: trailing newlines cut, split on spaces. */
  function Tokens(counters: string): seq<string> {
    Split(TrimRight(counters, "\n"), ' ')
  }

  /** What the counts package hands back for one rank of one call. */
  datatype Counters = Counters(text: string, datatypeSize: int)

  datatype RankDataError = ReadFailed(msg: string) | NotANumber(token: string)

  /** One side of GetCallRankData: the sum of the counters times the
      datatype size, in 64-bit arithmetic. */
  function SideSum(c: Counters): Result<int, string> {
    match Values(Tokens(c.text))
    case Ok(ns) => Ok(Wrap(Sum(ns) * c.datatypeSize))
    case Err(t) => Err(t)
  }

  /** GetCallRankData as a value: the send read, the recv read, the send
      sum and the recv sum, stopping at the first failure with (0, 0). */
  function RankData(send: Result<Counters, string>, recv: Result<Counters, string>): (int, int, Option<RankDataError>) {
    if send.Err? then (0, 0, Some(ReadFailed(send.error)))
    else if recv.Err? then (0, 0, Some(ReadFailed(recv.error)))
    else match (SideSum(send.value), SideSum(recv.value))
      case (Err(t), _) => (0, 0, Some(NotANumber(t)))
      case (Ok(_), Err(t)) => (0, 0, Some(NotANumber(t)))
      case (Ok(s), Ok(r)) => (s, r, None)
  }

  function Then(done: seq<int>, r: Result<seq<int>, string>): Result<seq<int>, string> {
    match r
    case Ok(ns) => Ok(done + ns)
    case Err(t) => Err(t)
  }

  /** One token of the loop: an empty one is skipped, a bad one stops the
      loop, a number joins the values already taken. */
  lemma ThenStep(done: seq<int>, tokens: seq<string>, i: nat)
    requires i < |tokens|
    ensures tokens[i] == "" ==> Then(done, Values(tokens[i..])) == Then(done, Values(tokens[i + 1..]))
    ensures tokens[i] != "" && Atoi(tokens[i]).None? ==> Then(done, Values(tokens[i..])) == Err(tokens[i])
    ensures tokens[i] != "" && Atoi(tokens[i]).Some? ==>
      Then(done, Values(tokens[i..])) == Then(done + [Atoi(tokens[i]).value], Values(tokens[i + 1..]))
  {
    assert tokens[i..][1..] == tokens[i + 1..];
    if tokens[i] != "" && Atoi(tokens[i]).Some? && Values(tokens[i + 1..]).Ok? {
      var n, ns := Atoi(tokens[i]).value, Values(tokens[i + 1..]).value;
      assert done + ([n] + ns) == done + [n] + ns;
    }
  }

  /** Adding one more value to a wrapped running sum wraps the longer sum. */
  lemma WrapSumStep(done: seq<int>, n: int)
    ensures Wrap(Wrap(Sum(done)) + n) == Wrap(Sum(done + [n]))
  {
    assert (done + [n])[..|done|] == done;
    WrapAdd(Sum(done), n);
  }

  /** `sum += n` on a 64-bit running sum of `done`. */
  method AddValue(sum: int, n: int, ghost done: seq<int>) returns (next: int)
    requires sum == Wrap(Sum(done))
    ensures next == Wrap(Sum(done + [n]))
  {
    WrapSumStep(done, n);
    next := Wrap(sum + n);
  }

  /** One of the two token loops of GetCallRankData. */
  method SumTokens(tokens: seq<string>) returns (sum: int, err: Option<string>)
    ensures Values(tokens).Err? ==> err == Some(Values(tokens).error)
    ensures Values(tokens).Ok? ==> err.None? && sum == Wrap(Sum(Values(tokens).value))
  {
    sum := 0;
    ghost var done: seq<int> := [];
    var i := 0;
    assert tokens[0..] == tokens;
    assert Values(tokens).Ok? ==> [] + Values(tokens).value == Values(tokens).value;
    while i < |tokens|
      invariant 0 <= i <= |tokens|
      invariant Values(tokens) == Then(done, Values(tokens[i..]))
      invariant sum == Wrap(Sum(done))
    {
      var t := tokens[i];
      ThenStep(done, tokens, i);
      if t == "" {
        i := i + 1;
        continue;
      }
      var n := Atoi(t);
      if n.None? {
        return 0, Some(t);
      }
      sum := AddValue(sum, n.value, done);
      done := done + [n.value];
      i := i + 1;
    }
    assert tokens[i..] == [];
    assert done + [] == done;
    err := None;
  }

  /** GetCallRankData: read both sides, then sum the send side, then the
      recv side; the first failure is returned with zero sums. */
  method GetCallRankData(send: Result<Counters, string>, recv: Result<Counters, string>)
    returns (sendSum: int, recvSum: int, err: Option<RankDataError>)
    ensures (sendSum, recvSum, err) == RankData(send, recv)
  {
    if send.Err? {
      return 0, 0, Some(ReadFailed(send.error));
    }
    if recv.Err? {
      return 0, 0, Some(ReadFailed(recv.error));
    }
    var sendCounters := TrimRight(send.value.text, "\n");
    var recvCounters := TrimRight(recv.value.text, "\n");
    var e;
    sendSum, e := SumTokens(Split(sendCounters, ' '));
    if e.Some? {
      return 0, 0, Some(NotANumber(e.value));
    }
    WrapMul(Sum(Values(Tokens(send.value.text)).value), send.value.datatypeSize);
    sendSum := Wrap(sendSum * send.value.datatypeSize);
    recvSum, e := SumTokens(Split(recvCounters, ' '));
    if e.Some? {
      return 0, 0, Some(NotANumber(e.value));
    }
    WrapMul(Sum(Values(Tokens(recv.value.text)).value), recv.value.datatypeSize);
    recvSum := Wrap(recvSum * recv.value.datatypeSize);
    err := None;
  }

  /** Token parsing fails exactly when some non-empty token is not an
      integer, and the error names such a token. */
  lemma {:induction false} ValuesFail(tokens: seq<string>)
    ensures Values(tokens).Err? <==> exists i :: 0 <= i < |tokens| && tokens[i] != "" && Atoi(tokens[i]).None?
    ensures Values(tokens).Err? ==> Values(tokens).error in tokens && Values(tokens).error != "" && Atoi(Values(tokens).error).None?
    decreases |tokens|
  {
    if tokens != [] {
      ValuesFail(tokens[1..]);
      assert forall i :: 1 <= i < |tokens| ==> tokens[i] == tokens[1..][i - 1];
      if (exists i :: 0 <= i < |tokens[1..]| && tokens[1..][i] != "" && Atoi(tokens[1..][i]).None?) {
        var i :| 0 <= i < |tokens[1..]| && tokens[1..][i] != "" && Atoi(tokens[1..][i]).None?;
        assert tokens[i + 1] == tokens[1..][i];
      }
    }
  }

  /** Empty tokens (runs of spaces) do not change the values. */
  lemma {:induction false} ValuesSkipEmpty(before: seq<string>, after: seq<string>)
    ensures Values(before + [""] + after) == Values(before + after)
    decreases |before|
  {
    if before == [] {
      assert before + [""] + after == [""] + after;
      assert ([""] + after)[1..] == after;
      assert before + after == after;
    } else {
      ValuesSkipEmpty(before[1..], after);
      assert (before + [""] + after)[1..] == before[1..] + [""] + after;
      assert (before + after)[1..] == before[1..] + after;
    }
  }

  function Itoas(ns: seq<int>): (r: seq<string>)
    ensures |r| == |ns| && forall i :: 0 <= i < |ns| ==> r[i] == Itoa(ns[i])
  {
    seq(|ns|, i requires 0 <= i < |ns| => Itoa(ns[i]))
  }

  lemma ValuesCons(tokens: seq<string>, n: int, ns: seq<int>)
    requires tokens != [] && tokens[0] != "" && Atoi(tokens[0]) == Some(n)
    requires Values(tokens[1..]) == Ok(ns)
    ensures Values(tokens) == Ok([n] + ns)
  {
  }

  lemma {:induction false} ValuesItoas(ns: seq<int>)
    requires forall i :: 0 <= i < |ns| ==> Int64Min <= ns[i] <= Int64Max
    ensures Values(Itoas(ns)) == Ok(ns)
    decreases |ns|
  {
    if ns != [] {
      var ts := Itoas(ns);
      ValuesItoas(ns[1..]);
      AtoiItoa(ns[0]);
      assert ts[1..] == Itoas(ns[1..]);
      ValuesCons(ts, ns[0], ns[1..]);
      assert [ns[0]] + ns[1..] == ns;
    }
  }

  /** The counters as the profiler writes them, space-separated decimals
      ending with a newline, sum back to the sum of the values, reduced to
      64 bits, times the datatype size. */
  lemma CountersRoundTrip(ns: seq<int>, datatypeSize: int)
    requires |ns| >= 1
    requires forall i :: 0 <= i < |ns| ==> Int64Min <= ns[i] <= Int64Max
    ensures SideSum(Counters(Join(Itoas(ns), ' ') + "\n", datatypeSize)) == Ok(Wrap(Sum(ns) * datatypeSize))
  {
    var fields := Itoas(ns);
    forall i | 0 <= i < |fields| ensures ' ' !in fields[i] && '\n' !in fields[i] {
      ItoaHasNo(ns[i], ' ');
      ItoaHasNo(ns[i], '\n');
    }
    JoinHasNo(fields, ' ', '\n');
    TrimRightNewline(Join(fields, ' '));
    SplitJoin(fields, ' ');
    ValuesItoas(ns);
  }

  // ---------------------------------------------------------------------
  // AnalyzeSubCommsResults: are all sub-communicators alike?

  /** An order in which Go's range may visit a map's keys: each key once. */
  ghost predicate IsKeyOrder(visit: seq<int>, keys: set<int>) {
    && (forall i :: 0 <= i < |visit| ==> visit[i] in keys)
    && (forall k :: k in keys ==> k in visit)
    && (forall i, j :: 0 <= i < j < |visit| ==> visit[i] != visit[j])
  }

  predicate SameSizes(ref: Snapshot, p: Snapshot) {
    && |ref.allPatterns| == |p.allPatterns|
    && |ref.nToOne| == |p.nToOne|
    && |ref.nToN| == |p.nToN|
    && |ref.oneToN| == |p.oneToN|
  }

  /** What the loop asks of every group after the first one visited. */
  predicate Alike(ref: Snapshot, p: Snapshot) {
    SameSizes(ref, p) && Same(ref, p)
  }

  /** The loop's verdict: every group visited after the first is alike to it. */
  predicate GatePasses(groups: map<int, Snapshot>, visit: seq<int>)
    requires forall i :: 0 <= i < |visit| ==> visit[i] in groups
  {
    forall i :: 1 <= i < |visit| ==> Alike(groups[visit[0]], groups[visit[i]])
  }

  /** The loop at the head of AnalyzeSubCommsResults, with its -1 markers. */
  method CheckGroups(groups: map<int, Snapshot>, visit: seq<int>) returns (alike: bool)
    requires forall i :: 0 <= i < |visit| ==> visit[i] in groups
    ensures alike == GatePasses(groups, visit)
  {
    var numPatterns, numNtoNPatterns, num1toNPatterns, numNto1Patterns := -1, -1, -1, -1;
    var referencePatterns := NoPatterns;
    var i := 0;
    while i < |visit|
      invariant 0 <= i <= |visit|
      invariant i == 0 ==> numPatterns == -1
      invariant i > 0 ==> referencePatterns == groups[visit[0]]
      invariant i > 0 ==> && numPatterns == |referencePatterns.allPatterns|
                          && numNto1Patterns == |referencePatterns.nToOne|
                          && numNtoNPatterns == |referencePatterns.nToN|
                          && num1toNPatterns == |referencePatterns.oneToN|
      invariant forall j :: 1 <= j < i ==> Alike(groups[visit[0]], groups[visit[j]])
    {
      var p := groups[visit[i]];
      if numPatterns == -1 {
        numPatterns := |p.allPatterns|;
        numNto1Patterns := |p.nToOne|;
        numNtoNPatterns := |p.nToN|;
        num1toNPatterns := |p.oneToN|;
        referencePatterns := p;
        i := i + 1;
        continue;
      }
      if numPatterns != |p.allPatterns| || numNto1Patterns != |p.nToOne| ||
         numNtoNPatterns != |p.nToN| || num1toNPatterns != |p.oneToN| {
        return false;
      }
      if !Same(referencePatterns, p) {
        return false;
      }
      i := i + 1;
    }
    return true;
  }

  /** Whatever the visiting order, the loop passes exactly when every other
      group is alike to the first one visited. */
  lemma GateMeansAlike(groups: map<int, Snapshot>, visit: seq<int>)
    requires IsKeyOrder(visit, groups.Keys) && |visit| >= 1
    ensures GatePasses(groups, visit) <==>
      forall r :: r in groups && r != visit[0] ==> Alike(groups[visit[0]], groups[r])
  {
    if GatePasses(groups, visit) {
      forall r | r in groups && r != visit[0] ensures Alike(groups[visit[0]], groups[r]) {
        var i :| 0 <= i < |visit| && visit[i] == r;
      }
    }
  }

  /** When the loop passes, all groups have as many buckets in every view. */
  lemma GateSizes(groups: map<int, Snapshot>, visit: seq<int>)
    requires IsKeyOrder(visit, groups.Keys)
    requires GatePasses(groups, visit)
    ensures forall r1, r2 :: r1 in groups && r2 in groups ==> SameSizes(groups[r1], groups[r2])
  {
    forall r1, r2 | r1 in groups && r2 in groups ensures SameSizes(groups[r1], groups[r2]) {
      var i :| 0 <= i < |visit| && visit[i] == r1;
      var j :| 0 <= j < |visit| && visit[j] == r2;
    }
  }

  // ---------------------------------------------------------------------
  // The ranks, sorted

  predicate IsLeast(m: int, s: set<int>) {
    m in s && forall k :: k in s ==> m <= k
  }

  predicate Ascending(r: seq<int>) {
    forall i, j :: 0 <= i < j < |r| ==> r[i] < r[j]
  }

  lemma MinExists(s: set<int>)
    requires s != {}
    ensures exists m :: IsLeast(m, s)
    decreases |s|
  {
    PatternStore.NonEmptySet(s);
    var x :| x in s;
    if s != {x} {
      MinExists(s - {x});
      var m :| IsLeast(m, s - {x});
      var least := if x < m then x else m;
      forall k | k in s ensures least <= k {
        if k != x {
          assert k in s - {x};
        }
      }
      assert IsLeast(least, s);
    } else {
      assert IsLeast(x, s);
    }
  }

  /** The least key in front of the sorted rest is the sorted whole. */
  lemma SortedCons(s: set<int>, m: int, rest: seq<int>)
    requires IsLeast(m, s)
    requires |rest| == |s - {m}| && (forall k :: k in rest <==> k in s - {m}) && Ascending(rest)
    ensures |[m] + rest| == |s| && (forall k :: k in [m] + rest <==> k in s) && Ascending([m] + rest)
  {
    forall i, j | 0 <= i < j < |[m] + rest| ensures ([m] + rest)[i] < ([m] + rest)[j] {
      if i == 0 {
        assert ([m] + rest)[j] == rest[j - 1] && rest[j - 1] in rest;
        assert rest[j - 1] in s - {m};
      } else {
        assert ([m] + rest)[i] == rest[i - 1] && ([m] + rest)[j] == rest[j - 1];
      }
    }
  }

  /** The keys of the statistics, collected and sorted with sort.Ints. */
  function SortedKeys(s: set<int>): (r: seq<int>)
    ensures |r| == |s|
    ensures forall k :: k in r <==> k in s
    ensures Ascending(r)
    decreases |s|
  {
    if s == {} then []
    else
      MinExists(s);
      var m :| IsLeast(m, s);
      var rest := SortedKeys(s - {m});
      SortedCons(s, m, rest);
      [m] + rest
  }

  // ---------------------------------------------------------------------
  // The multi-communicator highlight file

  const Intro := "Alltoallv on sub-communicators detected.\n\n" + "# Patterns summary\n\n"
  const AllZeroTitle := "\n## All 0 counts pattern; no data exchanged\n\n"
  const CountsTitle := "\n# Counts analysis\n\n"

  /** A WriteSubcomm section, written only when the lowest rank's view has buckets. */
  function SectionIfAny(t: Topology, ranks: seq<int>, stats: map<int, SendRecvStats>,
                        groups: map<int, Snapshot>, order: map<int, int> -> seq<int>): seq<string>
    requires |ranks| >= 1
  {
    if |ViewOf(GroupOf(groups, ranks[0]), t)| > 0 then SubcommLines(t, ranks, stats, groups, order) else []
  }

  function EmptyLine(r: int, n: int, total: int): string {
    Concat(["-> Sub-communicator led by rank ", Itoa(r), ": ", Itoa(n), "/", Itoa(total), " alltoallv calls\n"])
  }

  /** One line per rank whose group has all-zero calls. */
  function EmptyLines(ranks: seq<int>, stats: map<int, SendRecvStats>, groups: map<int, Snapshot>): seq<string> {
    if ranks == [] then []
    else
      var n := |GroupOf(groups, ranks[0]).empty|;
      (if n > 0 then [EmptyLine(ranks[0], n, TotalCalls(stats, ranks[0]))] else []) + EmptyLines(ranks[1..], stats, groups)
  }

  const OfTheMessages := " of the messages"
  const OfMessages := " of messages"

  /** A bounded bin reports its sizes up to max - 1; the last, unbounded one from min. */
  function BinLine(b: Bin): string {
    if b.max != -1 then
      Concat(["\t", Itoa(b.size), OfTheMessages, " are of size between ", Itoa(b.min), " and ", Itoa(b.max - 1), " bytes\n"])
    else
      Concat(["\t", Itoa(b.size), OfMessages, " are larger or equal of ", Itoa(b.min), " bytes\n"])
  }

  function BinLines(bins: seq<Bin>): seq<string> {
    if bins == [] then [] else [BinLine(bins[0])] + BinLines(bins[1..])
  }

  function BinsOf(stats: map<int, SendRecvStats>, r: int): seq<Bin> {
    if r in stats then stats[r].bins else []
  }

  function RankHeader(r: int): string {
    Concat(["-> Sub-communicator led by rank ", Itoa(r), ":\n"])
  }

  function RankBins(r: int, stats: map<int, SendRecvStats>): seq<string> {
    [RankHeader(r)] + BinLines(BinsOf(stats, r))
  }

  function CountsLines(ranks: seq<int>, stats: map<int, SendRecvStats>): seq<string> {
    if ranks == [] then [] else RankBins(ranks[0], stats) + CountsLines(ranks[1..], stats)
  }

  /** Everything after the introduction, for the ranks in ascending order. */
  function ReportBody(ranks: seq<int>, stats: map<int, SendRecvStats>, groups: map<int, Snapshot>,
                      order: map<int, int> -> seq<int>): seq<string>
    requires |ranks| >= 1
  {
    SectionIfAny(ManyToMany, ranks, stats, groups, order) +
    (SectionIfAny(OneToMany, ranks, stats, groups, order) +
    (SectionIfAny(ManyToOne, ranks, stats, groups, order) +
    ([AllZeroTitle] + (EmptyLines(ranks, stats, groups) + ([CountsTitle] + CountsLines(ranks, stats))))))
  }

  /** The whole file; with no statistics there is no lowest rank, and only
      the introduction is written before ranks[0] panics. */
  function Report(stats: map<int, SendRecvStats>, groups: map<int, Snapshot>, order: map<int, int> -> seq<int>): seq<string> {
    [Intro] + (if |stats| == 0 then [] else ReportBody(SortedKeys(stats.Keys), stats, groups, order))
  }

  datatype Outcome = Dissimilar | OpenFailed(msg: string) | WriteFailed | Panicked | Done

  /** AnalyzeSubCommsResults: nothing when the groups differ, otherwise the
      highlight file. `visit` is the order Go's range takes over the groups,
      `openErr` the result of opening the file. */
  method AnalyzeSubCommsResults(f: Writer, openErr: Option<string>, stats: map<int, SendRecvStats>,
                                groups: map<int, Snapshot>, visit: seq<int>, order: map<int, int> -> seq<int>)
    returns (outcome: Outcome)
    requires IsKeyOrder(visit, groups.Keys)
    modifies f
    ensures !GatePasses(groups, visit) ==> outcome == Dissimilar && f.written == old(f.written)
    ensures GatePasses(groups, visit) && openErr.Some? ==> outcome == OpenFailed(openErr.value) && f.written == old(f.written)
    ensures GatePasses(groups, visit) && openErr.None? ==>
      && f.written == Emitted(old(f.written), Report(stats, groups, order), f.capacity)
      && outcome == (if Fails(old(f.written), Report(stats, groups, order), f.capacity) then WriteFailed
                     else if |stats| == 0 then Panicked else Done)
  {
    var alike := CheckGroups(groups, visit);
    if !alike {
      return Dissimilar;
    }
    if openErr.Some? {
      return OpenFailed(openErr.value);
    }
    outcome := WriteReport(f, stats, groups, order);
  }

  /** The highlight file, once opened. */
  method WriteReport(f: Writer, stats: map<int, SendRecvStats>, groups: map<int, Snapshot>,
                     order: map<int, int> -> seq<int>) returns (outcome: Outcome)
    modifies f
    ensures f.written == Emitted(old(f.written), Report(stats, groups, order), f.capacity)
    ensures outcome == (if Fails(old(f.written), Report(stats, groups, order), f.capacity) then WriteFailed
                        else if |stats| == 0 then Panicked else Done)
  {
    ghost var w0 := f.written;
    ghost var spec := Report(stats, groups, order);
    var ranks := SortedKeys(stats.Keys);
    assert |ranks| == |stats| == |stats.Keys|;
    ghost var body := if |ranks| == 0 then [] else ReportBody(ranks, stats, groups, order);
    assert spec == [Intro] + body;
    var failed := WriteNext(f, Intro, body, w0, spec);
    if failed {
      return WriteFailed;
    }
    if |ranks| == 0 {
      Finished(f.written, w0, spec, f.capacity);
      return Panicked;
    }
    failed := WriteRun(f, ranks, stats, groups, order, w0, spec);
    return if failed then WriteFailed else Done;
  }

  /** The body of the highlight file as the last part of a run of writes. */
  method WriteRun(f: Writer, ranks: seq<int>, stats: map<int, SendRecvStats>, groups: map<int, Snapshot>,
                  order: map<int, int> -> seq<int>, ghost w0: seq<string>, ghost spec: seq<string>)
    returns (failed: bool)
    requires |ranks| >= 1
    requires Continues(f.written, ReportBody(ranks, stats, groups, order), w0, spec, f.capacity)
    modifies f
    ensures f.written == Emitted(w0, spec, f.capacity) && failed == Fails(w0, spec, f.capacity)
  {
    ghost var body := ReportBody(ranks, stats, groups, order);
    assert body + [] == body;
    ContinueRun(f.written, body, [], w0, spec, f.capacity);
    failed := WriteBody(f, ranks, stats, groups, order);
    if !failed {
      Finished(f.written, w0, spec, f.capacity);
    }
  }

  method WriteSectionIfAny(f: Writer, t: Topology, ranks: seq<int>, stats: map<int, SendRecvStats>,
                           groups: map<int, Snapshot>, order: map<int, int> -> seq<int>) returns (failed: bool)
    requires |ranks| >= 1
    modifies f
    ensures f.written == Emitted(old(f.written), SectionIfAny(t, ranks, stats, groups, order), f.capacity)
    ensures failed == Fails(old(f.written), SectionIfAny(t, ranks, stats, groups, order), f.capacity)
  {
    if |ViewOf(GroupOf(groups, ranks[0]), t)| > 0 {
      failed := WriteSubcomm(f, t, ranks, stats, groups, order);
    } else {
      failed := false;
    }
  }

  /** The file after its introduction: the sections, the all-zero calls and the bins. */
  method WriteBody(f: Writer, ranks: seq<int>, stats: map<int, SendRecvStats>,
                   groups: map<int, Snapshot>, order: map<int, int> -> seq<int>) returns (failed: bool)
    requires |ranks| >= 1
    modifies f
    ensures f.written == Emitted(old(f.written), ReportBody(ranks, stats, groups, order), f.capacity)
    ensures failed == Fails(old(f.written), ReportBody(ranks, stats, groups, order), f.capacity)
  {
    ghost var w0 := f.written;
    ghost var spec := ReportBody(ranks, stats, groups, order);
    ghost var empties := EmptyLines(ranks, stats, groups) + ([CountsTitle] + CountsLines(ranks, stats));
    ghost var rest := [AllZeroTitle] + empties;
    ghost var third := SectionIfAny(ManyToOne, ranks, stats, groups, order);
    ghost var second := SectionIfAny(OneToMany, ranks, stats, groups, order);
    ContinueRun(f.written, SectionIfAny(ManyToMany, ranks, stats, groups, order), second + (third + rest), w0, spec, f.capacity);
    failed := WriteSectionIfAny(f, ManyToMany, ranks, stats, groups, order);
    if failed {
      return;
    }
    ContinueRun(f.written, second, third + rest, w0, spec, f.capacity);
    failed := WriteSectionIfAny(f, OneToMany, ranks, stats, groups, order);
    if failed {
      return;
    }
    ContinueRun(f.written, third, rest, w0, spec, f.capacity);
    failed := WriteSectionIfAny(f, ManyToOne, ranks, stats, groups, order);
    if failed {
      return;
    }
    failed := WriteNext(f, AllZeroTitle, empties, w0, spec);
    if failed {
      return;
    }
    failed := WriteTail(f, ranks, stats, groups, w0, spec);
  }

  /** The all-zero lines, the counts title and the bins. */
  method WriteTail(f: Writer, ranks: seq<int>, stats: map<int, SendRecvStats>, groups: map<int, Snapshot>,
                   ghost w0: seq<string>, ghost spec: seq<string>) returns (failed: bool)
    requires Continues(f.written, EmptyLines(ranks, stats, groups) + ([CountsTitle] + CountsLines(ranks, stats)),
                       w0, spec, f.capacity)
    modifies f
    ensures f.written == Emitted(w0, spec, f.capacity)
    ensures failed == Fails(w0, spec, f.capacity)
  {
    ContinueRun(f.written, EmptyLines(ranks, stats, groups), [CountsTitle] + CountsLines(ranks, stats), w0, spec, f.capacity);
    failed := WriteEmptyLines(f, ranks, stats, groups);
    if failed {
      return;
    }
    failed := WriteNext(f, CountsTitle, CountsLines(ranks, stats), w0, spec);
    if failed {
      return;
    }
    ContinueRun(f.written, CountsLines(ranks, stats), [], w0, spec, f.capacity);
    failed := WriteCountsLines(f, ranks, stats);
    if !failed {
      assert CountsLines(ranks, stats) + [] == CountsLines(ranks, stats);
      Finished(f.written, w0, spec, f.capacity);
    }
  }

  /** The "All 0 counts" loop: a line for each rank with all-zero calls. */
  method WriteEmptyLines(f: Writer, ranks: seq<int>, stats: map<int, SendRecvStats>, groups: map<int, Snapshot>)
    returns (failed: bool)
    modifies f
    ensures f.written == Emitted(old(f.written), EmptyLines(ranks, stats, groups), f.capacity)
    ensures failed == Fails(old(f.written), EmptyLines(ranks, stats, groups), f.capacity)
  {
    ghost var w0 := f.written;
    ghost var spec := EmptyLines(ranks, stats, groups);
    var j := 0;
    failed := false;
    while j < |ranks|
      invariant 0 <= j <= |ranks|
      invariant Continues(f.written, EmptyLines(ranks[j..], stats, groups), w0, spec, f.capacity)
    {
      failed := WriteEmptyLineOf(f, ranks, j, stats, groups, w0, spec);
      if failed {
        return;
      }
      j := j + 1;
    }
    assert ranks[j..] == [];
    Finished(f.written, w0, spec, f.capacity);
  }

  /** One turn of the all-zero loop: the rank's line if its group has all-zero calls. */
  method WriteEmptyLineOf(f: Writer, ranks: seq<int>, j: nat, stats: map<int, SendRecvStats>, groups: map<int, Snapshot>,
                          ghost w0: seq<string>, ghost spec: seq<string>) returns (failed: bool)
    requires j < |ranks|
    requires Continues(f.written, EmptyLines(ranks[j..], stats, groups), w0, spec, f.capacity)
    modifies f
    ensures failed ==> f.written == Emitted(w0, spec, f.capacity) && Fails(w0, spec, f.capacity)
    ensures !failed ==> Continues(f.written, EmptyLines(ranks[j + 1..], stats, groups), w0, spec, f.capacity)
  {
    var rank := ranks[j];
    var n := |GroupOf(groups, rank).empty|;
    assert ranks[j..][1..] == ranks[j + 1..];
    failed := false;
    if n > 0 {
      failed := WriteNext(f, EmptyLine(rank, n, TotalCalls(stats, rank)), EmptyLines(ranks[j + 1..], stats, groups), w0, spec);
    }
  }

  /** The counts analysis loop: each rank, then its bins. */
  method WriteCountsLines(f: Writer, ranks: seq<int>, stats: map<int, SendRecvStats>) returns (failed: bool)
    modifies f
    ensures f.written == Emitted(old(f.written), CountsLines(ranks, stats), f.capacity)
    ensures failed == Fails(old(f.written), CountsLines(ranks, stats), f.capacity)
  {
    ghost var w0 := f.written;
    ghost var spec := CountsLines(ranks, stats);
    var j := 0;
    failed := false;
    while j < |ranks|
      invariant 0 <= j <= |ranks|
      invariant Continues(f.written, CountsLines(ranks[j..], stats), w0, spec, f.capacity)
    {
      failed := WriteNextRank(f, ranks, j, stats, w0, spec);
      if failed {
        return;
      }
      j := j + 1;
    }
    assert ranks[j..] == [];
    Finished(f.written, w0, spec, f.capacity);
  }

  /** One turn of the counts analysis loop. */
  method WriteNextRank(f: Writer, ranks: seq<int>, j: nat, stats: map<int, SendRecvStats>,
                       ghost w0: seq<string>, ghost spec: seq<string>) returns (failed: bool)
    requires j < |ranks|
    requires Continues(f.written, CountsLines(ranks[j..], stats), w0, spec, f.capacity)
    modifies f
    ensures failed ==> f.written == Emitted(w0, spec, f.capacity) && Fails(w0, spec, f.capacity)
    ensures !failed ==> Continues(f.written, CountsLines(ranks[j + 1..], stats), w0, spec, f.capacity)
  {
    RankBinsStep(f.written, ranks, j, stats, w0, spec, f.capacity);
    failed := WriteRankBins(f, ranks[j], stats);
  }

  lemma RankBinsStep(w: seq<string>, ranks: seq<int>, j: nat, stats: map<int, SendRecvStats>,
                     w0: seq<string>, spec: seq<string>, capacity: nat)
    requires j < |ranks|
    requires Continues(w, CountsLines(ranks[j..], stats), w0, spec, capacity)
    ensures Fails(w, RankBins(ranks[j], stats), capacity) ==>
      Emitted(w, RankBins(ranks[j], stats), capacity) == Emitted(w0, spec, capacity) && Fails(w0, spec, capacity)
    ensures !Fails(w, RankBins(ranks[j], stats), capacity) ==>
      Continues(Emitted(w, RankBins(ranks[j], stats), capacity), CountsLines(ranks[j + 1..], stats), w0, spec, capacity)
  {
    assert ranks[j..][1..] == ranks[j + 1..];
    ContinueRun(w, RankBins(ranks[j], stats), CountsLines(ranks[j + 1..], stats), w0, spec, capacity);
  }

  /** The bins loop: one line per bin. */
  method WriteBins(f: Writer, bins: seq<Bin>) returns (failed: bool)
    modifies f
    ensures f.written == Emitted(old(f.written), BinLines(bins), f.capacity)
    ensures failed == Fails(old(f.written), BinLines(bins), f.capacity)
  {
    ghost var w0 := f.written;
    ghost var spec := BinLines(bins);
    var i := 0;
    failed := false;
    while i < |bins|
      invariant 0 <= i <= |bins|
      invariant Continues(f.written, BinLines(bins[i..]), w0, spec, f.capacity)
    {
      failed := WriteNextBin(f, bins, i, w0, spec);
      if failed {
        return;
      }
      i := i + 1;
    }
    assert bins[i..] == [];
    Finished(f.written, w0, spec, f.capacity);
  }

  /** One turn of the bins loop. */
  method WriteNextBin(f: Writer, bins: seq<Bin>, i: nat, ghost w0: seq<string>, ghost spec: seq<string>)
    returns (failed: bool)
    requires i < |bins|
    requires Continues(f.written, BinLines(bins[i..]), w0, spec, f.capacity)
    modifies f
    ensures failed ==> f.written == Emitted(w0, spec, f.capacity) && Fails(w0, spec, f.capacity)
    ensures !failed ==> Continues(f.written, BinLines(bins[i + 1..]), w0, spec, f.capacity)
  {
    assert bins[i..][1..] == bins[i + 1..];
    failed := WriteNext(f, BinLine(bins[i]), BinLines(bins[i + 1..]), w0, spec);
  }

  /** One rank's header and its bins. */
  method WriteRankBins(f: Writer, r: int, stats: map<int, SendRecvStats>) returns (failed: bool)
    modifies f
    ensures f.written == Emitted(old(f.written), RankBins(r, stats), f.capacity)
    ensures failed == Fails(old(f.written), RankBins(r, stats), f.capacity)
  {
    ghost var w0 := f.written;
    ghost var spec := RankBins(r, stats);
    var bins := BinsOf(stats, r);
    assert spec == [RankHeader(r)] + (BinLines(bins) + []);
    failed := WriteNext(f, RankHeader(r), BinLines(bins) + [], w0, spec);
    if failed {
      return;
    }
    ContinueRun(f.written, BinLines(bins), [], w0, spec, f.capacity);
    failed := WriteBins(f, bins);
    if failed {
      return;
    }
    Finished(f.written, w0, spec, f.capacity);
  }

  // ---------------------------------------------------------------------
  // What the highlight file says

  /** No line opens with the '#' of a Markdown title. */
  predicate Untitled(lines: seq<string>) {
    forall i :: 0 <= i < |lines| ==> lines[i] == [] || lines[i][0] != '#'
  }

  lemma UntitledAppend(a: seq<string>, b: seq<string>)
    requires Untitled(a) && Untitled(b)
    ensures Untitled(a + b)
  {
    forall i | 0 <= i < |a + b| ensures (a + b)[i] == [] || (a + b)[i][0] != '#' {
      if i >= |a| {
        assert (a + b)[i] == b[i - |a|];
      }
    }
  }

  lemma UntitledLine(line: string)
    requires line != [] && line[0] != '#'
    ensures Untitled([line])
  {
  }

  lemma NotInUntitled(title: string, lines: seq<string>)
    requires title != [] && title[0] == '#' && Untitled(lines)
    ensures title !in lines
  {
  }

  lemma ConcatHead(parts: seq<string>)
    requires parts != [] && parts[0] != []
    ensures Concat(parts) != [] && Concat(parts)[0] == parts[0][0]
  {
  }

  lemma {:induction false} EntryLinesUntitled(m: map<int, int>, keys: seq<int>, verb: string)
    ensures Untitled(EntryLines(m, keys, verb))
    decreases |keys|
  {
    if keys != [] {
      EntryLinesUntitled(m, keys[1..], verb);
      ConcatHead([Itoa(MapValue(m, keys[0])), verb, Itoa(keys[0]), " other ranks\n"]);
      UntitledAppend([EntryLine(MapValue(m, keys[0]), verb, keys[0])], EntryLines(m, keys[1..], verb));
    }
  }

  lemma {:induction false} DescriptionsUntitled(ps: seq<Pattern>, order: map<int, int> -> seq<int>)
    ensures Untitled(Descriptions(ps, order))
    decreases |ps|
  {
    if ps != [] {
      DescriptionsUntitled(ps[1..], order);
      EntryLinesUntitled(ps[0].send, order(ps[0].send), SentTo);
      EntryLinesUntitled(ps[0].recv, order(ps[0].recv), RecvFrom);
      UntitledAppend(EntryLines(ps[0].send, order(ps[0].send), SentTo), EntryLines(ps[0].recv, order(ps[0].recv), RecvFrom));
      UntitledAppend(DataLines(ps[0], order), Descriptions(ps[1..], order));
    }
  }

  lemma {:induction false} CountLinesUntitled(ps: seq<Pattern>, num: int, total: int)
    ensures Untitled(CountLines(ps, num, total))
    decreases |ps|
  {
    if ps != [] {
      CountLinesUntitled(ps[1..], num + 1, total);
      ConcatHead(["\tpattern #", Itoa(num), ": ", Itoa(ps[0].count), "/", Itoa(total), " alltoallv calls\n"]);
      UntitledAppend([CountLine(num, ps[0].count, total)], CountLines(ps[1..], num + 1, total));
    }
  }

  lemma {:induction false} LeaderLinesUntitled(t: Topology, ranks: seq<int>, stats: map<int, SendRecvStats>,
                                               groups: map<int, Snapshot>)
    ensures Untitled(LeaderLines(t, ranks, stats, groups))
    decreases |ranks|
  {
    if ranks != [] {
      var r := ranks[0];
      LeaderLinesUntitled(t, ranks[1..], stats, groups);
      CountLinesUntitled(ViewOf(GroupOf(groups, r), t), 0, TotalCalls(stats, r));
      ConcatHead(["-> Subcommunicator led by rank ", Itoa(r), ":\n"]);
      UntitledAppend([LeaderLine(r)], CountLines(ViewOf(GroupOf(groups, r), t), 0, TotalCalls(stats, r)));
      UntitledAppend(LeaderBlock(t, r, stats, groups), LeaderLines(t, ranks[1..], stats, groups));
    }
  }

  /** Section titles are Markdown titles, one per view. */
  lemma SectionTitleShape(t: Topology, t': Topology)
    ensures SectionTitle(t) != [] && SectionTitle(t)[0] == '#'
    ensures SectionTitle(t) == SectionTitle(t') ==> t == t'
  {
  }

  /** A section holds one title: its own. */
  lemma SubcommTitle(t: Topology, t': Topology, ranks: seq<int>, stats: map<int, SendRecvStats>,
                     groups: map<int, Snapshot>, order: map<int, int> -> seq<int>)
    requires |ranks| >= 1
    ensures SectionTitle(t) in SubcommLines(t', ranks, stats, groups, order) <==> t == t'
  {
    var view := ViewOf(GroupOf(groups, ranks[0]), t');
    var descs, leaders := Descriptions(view, order), LeaderLines(t', ranks, stats, groups);
    SectionTitleShape(t, t');
    DescriptionsUntitled(view, order);
    LeaderLinesUntitled(t', ranks, stats, groups);
    NotInUntitled(SectionTitle(t), descs);
    NotInUntitled(SectionTitle(t), leaders);
    assert DescriptionTitle[0] == '\n' && InformationTitle[0] == '\n';
  }

  lemma {:induction false} EmptyLinesUntitled(ranks: seq<int>, stats: map<int, SendRecvStats>, groups: map<int, Snapshot>)
    ensures Untitled(EmptyLines(ranks, stats, groups))
    decreases |ranks|
  {
    if ranks != [] {
      var r := ranks[0];
      var n := |GroupOf(groups, r).empty|;
      EmptyLinesUntitled(ranks[1..], stats, groups);
      ConcatHead(["-> Sub-communicator led by rank ", Itoa(r), ": ", Itoa(n), "/", Itoa(TotalCalls(stats, r)), " alltoallv calls\n"]);
      UntitledAppend(if n > 0 then [EmptyLine(r, n, TotalCalls(stats, r))] else [], EmptyLines(ranks[1..], stats, groups));
    }
  }

  lemma {:induction false} BinLinesUntitled(bins: seq<Bin>)
    ensures Untitled(BinLines(bins))
    decreases |bins|
  {
    if bins != [] {
      var b := bins[0];
      BinLinesUntitled(bins[1..]);
      ConcatHead(["\t", Itoa(b.size), OfTheMessages, " are of size between ", Itoa(b.min), " and ", Itoa(b.max - 1), " bytes\n"]);
      ConcatHead(["\t", Itoa(b.size), OfMessages, " are larger or equal of ", Itoa(b.min), " bytes\n"]);
      UntitledAppend([BinLine(b)], BinLines(bins[1..]));
    }
  }

  lemma {:induction false} CountsLinesUntitled(ranks: seq<int>, stats: map<int, SendRecvStats>)
    ensures Untitled(CountsLines(ranks, stats))
    decreases |ranks|
  {
    if ranks != [] {
      var r := ranks[0];
      CountsLinesUntitled(ranks[1..], stats);
      BinLinesUntitled(BinsOf(stats, r));
      ConcatHead(["-> Sub-communicator led by rank ", Itoa(r), ":\n"]);
      UntitledAppend([RankHeader(r)], BinLines(BinsOf(stats, r)));
      UntitledAppend(RankBins(r, stats), CountsLines(ranks[1..], stats));
    }
  }

  /** A section title appears in the highlight file exactly when there is a
      lowest rank and its group has buckets in that view. */
  lemma ReportSections(t: Topology, stats: map<int, SendRecvStats>, groups: map<int, Snapshot>,
                       order: map<int, int> -> seq<int>)
    ensures SectionTitle(t) in Report(stats, groups, order) <==>
      |stats| > 0 && |ViewOf(GroupOf(groups, SortedKeys(stats.Keys)[0]), t)| > 0
  {
    if |stats| > 0 {
      var ranks := SortedKeys(stats.Keys);
      var tail := [AllZeroTitle] + (EmptyLines(ranks, stats, groups) + ([CountsTitle] + CountsLines(ranks, stats)));
      EmptyLinesUntitled(ranks, stats, groups);
      CountsLinesUntitled(ranks, stats);
      UntitledLine(CountsTitle);
      UntitledLine(AllZeroTitle);
      UntitledLine(Intro);
      UntitledAppend([CountsTitle], CountsLines(ranks, stats));
      UntitledAppend(EmptyLines(ranks, stats, groups), [CountsTitle] + CountsLines(ranks, stats));
      UntitledAppend([AllZeroTitle], EmptyLines(ranks, stats, groups) + ([CountsTitle] + CountsLines(ranks, stats)));
      NotInUntitled(SectionTitle(t), tail);
      NotInUntitled(SectionTitle(t), [Intro]);
      SectionIfAnyTitle(t, ManyToMany, ranks, stats, groups, order);
      SectionIfAnyTitle(t, OneToMany, ranks, stats, groups, order);
      SectionIfAnyTitle(t, ManyToOne, ranks, stats, groups, order);
    } else {
      UntitledLine(Intro);
      NotInUntitled(SectionTitle(t), [Intro]);
    }
  }

  lemma SectionIfAnyTitle(t: Topology, t': Topology, ranks: seq<int>, stats: map<int, SendRecvStats>,
                          groups: map<int, Snapshot>, order: map<int, int> -> seq<int>)
    requires |ranks| >= 1
    ensures SectionTitle(t) in SectionIfAny(t', ranks, stats, groups, order) <==>
      t == t' && |ViewOf(GroupOf(groups, ranks[0]), t)| > 0
  {
    SubcommTitle(t, t', ranks, stats, groups, order);
  }

  /** The all-zero list names exactly the ranks whose group has all-zero
      calls, each with its count and its number of calls. */
  lemma {:induction false} EmptyLinesListRanks(ranks: seq<int>, stats: map<int, SendRecvStats>, groups: map<int, Snapshot>)
    ensures forall r :: r in ranks && |GroupOf(groups, r).empty| > 0 ==>
      EmptyLine(r, |GroupOf(groups, r).empty|, TotalCalls(stats, r)) in EmptyLines(ranks, stats, groups)
    ensures forall l :: l in EmptyLines(ranks, stats, groups) ==>
      exists r :: r in ranks && |GroupOf(groups, r).empty| > 0 && l == EmptyLine(r, |GroupOf(groups, r).empty|, TotalCalls(stats, r))
    decreases |ranks|
  {
    if ranks != [] {
      EmptyLinesListRanks(ranks[1..], stats, groups);
      forall r | r in ranks[1..] ensures r in ranks {}
      forall r | r in ranks ensures r == ranks[0] || r in ranks[1..] {
        var i :| 0 <= i < |ranks| && ranks[i] == r;
        if i > 0 {
          assert ranks[1..][i - 1] == r;
        }
      }
    }
  }

  /** The counts analysis has every rank's header and every one of its bins. */
  lemma {:induction false} CountsLinesCover(ranks: seq<int>, stats: map<int, SendRecvStats>)
    ensures forall r :: r in ranks ==> RankHeader(r) in CountsLines(ranks, stats)
    ensures forall r, b :: r in ranks && b in BinsOf(stats, r) ==> BinLine(b) in CountsLines(ranks, stats)
    decreases |ranks|
  {
    if ranks != [] {
      CountsLinesCover(ranks[1..], stats);
      BinLinesCover(BinsOf(stats, ranks[0]));
      forall r | r in ranks ensures r == ranks[0] || r in ranks[1..] {
        var i :| 0 <= i < |ranks| && ranks[i] == r;
        if i > 0 {
          assert ranks[1..][i - 1] == r;
        }
      }
    }
  }

  lemma {:induction false} BinLinesCover(bins: seq<Bin>)
    ensures forall b :: b in bins ==> BinLine(b) in BinLines(bins)
    decreases |bins|
  {
    if bins != [] {
      BinLinesCover(bins[1..]);
      forall b | b in bins ensures b == bins[0] || b in bins[1..] {
        var i :| 0 <= i < |bins| && bins[i] == b;
        if i > 0 {
          assert bins[1..][i - 1] == b;
        }
      }
    }
  }

  /** A bin line says "of the messages are of size between" exactly for a
      bounded bin, and "of messages are larger" for the last one. */
  lemma BinLineKind(b: Bin)
    ensures HasPrefix(BinLine(b), "\t" + Itoa(b.size) + OfTheMessages) <==> b.max != -1
  {
    if b.max != -1 {
      BoundedBinLine(b);
    } else {
      UnboundedBinLine(b);
    }
  }

  /** The first three parts of a formatted line. */
  lemma ConcatThree(a: string, b: string, c: string, rest: seq<string>)
    ensures Concat([a, b, c] + rest) == a + b + c + Concat(rest)
  {
    assert [a, b, c] + rest == [a] + ([b] + ([c] + rest));
    ConcatCons(c, rest);
    ConcatCons(b, [c] + rest);
    ConcatCons(a, [b] + ([c] + rest));
  }

  lemma BoundedBinLine(b: Bin)
    requires b.max != -1
    ensures HasPrefix(BinLine(b), "\t" + Itoa(b.size) + OfTheMessages)
  {
    var rest := [" are of size between ", Itoa(b.min), " and ", Itoa(b.max - 1), " bytes\n"];
    assert ["\t", Itoa(b.size), OfTheMessages, " are of size between ", Itoa(b.min), " and ", Itoa(b.max - 1), " bytes\n"]
      == ["\t", Itoa(b.size), OfTheMessages] + rest;
    ConcatThree("\t", Itoa(b.size), OfTheMessages, rest);
  }

  lemma UnboundedBinLine(b: Bin)
    requires b.max == -1
    ensures !HasPrefix(BinLine(b), "\t" + Itoa(b.size) + OfTheMessages)
  {
    var lead := "\t" + Itoa(b.size);
    var rest := [" are larger or equal of ", Itoa(b.min), " bytes\n"];
    assert ["\t", Itoa(b.size), OfMessages, " are larger or equal of ", Itoa(b.min), " bytes\n"]
      == ["\t", Itoa(b.size), OfMessages] + rest;
    ConcatThree("\t", Itoa(b.size), OfMessages, rest);
    assert BinLine(b) == (lead + OfMessages) + Concat(rest);
    assert (lead + OfMessages)[|lead| + 4] == OfMessages[4] == 'm';
    assert (lead + OfTheMessages)[|lead| + 4] == OfTheMessages[4] == 't';
  }

  // ---------------------------------------------------------------------
  // SaveStats: the per-rank result files

  /** The blocks WriteToFile writes for a list of buckets, the first one
      numbered `num`; the number goes up by one after each block when
      `advance` holds, and stays put otherwise. */
  function Blocks(ps: seq<Pattern>, num: int, advance: bool, numCalls: int, compress: seq<int> -> string,
                  order: map<int, int> -> seq<int>): seq<string>
  {
    if ps == [] then []
    else BlockLines(num, numCalls, ps[0], compress, order) + Blocks(ps[1..], Next(num, advance), advance, numCalls, compress, order)
  }

  function Next(num: int, advance: bool): int {
    if advance then num + 1 else num
  }

  /** The number of the block `i` places after one numbered `num`. */
  function Nth(num: int, advance: bool, i: nat): int {
    if advance then num + i else num
  }

  const OneToNSummaryTitle := "# 1 to N patterns\n\n"
  const NToOneSummaryTitle := "\n# N to 1 patterns\n\n"
  const NToNSummaryTitle := "\n# N to n patterns\n\n"
  const NoSummaryText := "Nothing special detected; no summary"

  /** The default file: the call total, then what the counts package writes. */
  function DefaultLines(numCalls: int, countsWrites: seq<string>): seq<string> {
    [Concat(["Total number of alltoallv calls: ", Itoa(numCalls), "\n\n"])] + countsWrites
  }

  /** The patterns file: every bucket, numbered from 0. */
  function PatternsLines(d: Snapshot, numCalls: int, compress: seq<int> -> string,
                         order: map<int, int> -> seq<int>): seq<string>
  {
    [PatternsTitle] + Blocks(d.allPatterns, 0, true, numCalls, compress, order)
  }

  /** A summary section, present when its view has buckets. */
  function SummarySection(title: string, ps: seq<Pattern>, advance: bool, numCalls: int, compress: seq<int> -> string,
                          order: map<int, int> -> seq<int>): seq<string>
  {
    if |ps| != 0 then [title] + Blocks(ps, 0, advance, numCalls, compress, order) else []
  }

  /** The summary file. The 1-to-n blocks are numbered from 0; the loops of
      the other two views never advance their counter, so all their blocks
      are numbered 0. */
  function SummaryLines(d: Snapshot, numCalls: int, compress: seq<int> -> string,
                        order: map<int, int> -> seq<int>): seq<string>
  {
    if NoSummary(d) then [NoSummaryText]
    else
      SummarySection(OneToNSummaryTitle, d.oneToN, true, numCalls, compress, order) +
      (SummarySection(NToOneSummaryTitle, d.nToOne, false, numCalls, compress, order) +
       SummarySection(NToNSummaryTitle, d.nToN, false, numCalls, compress, order))
  }

  /** SaveStats: the default file, then the patterns file, then the summary
      file; the first failed write ends it, leaving the later files as they
      were. `countsWrites` is what the counts package's three writers write,
      in order. */
  method SaveStats(defaultFile: Writer, patternsFile: Writer, summaryFile: Writer, countsWrites: seq<string>,
                   d: Snapshot, numCalls: int, compress: seq<int> -> string, order: map<int, int> -> seq<int>)
    returns (failed: bool)
    requires defaultFile != patternsFile && defaultFile != summaryFile && patternsFile != summaryFile
    modifies defaultFile, patternsFile, summaryFile
    ensures defaultFile.written == Emitted(old(defaultFile.written), DefaultLines(numCalls, countsWrites), defaultFile.capacity)
    ensures Fails(old(defaultFile.written), DefaultLines(numCalls, countsWrites), defaultFile.capacity) ==>
      failed && patternsFile.written == old(patternsFile.written) && summaryFile.written == old(summaryFile.written)
    ensures !Fails(old(defaultFile.written), DefaultLines(numCalls, countsWrites), defaultFile.capacity) ==>
      patternsFile.written == Emitted(old(patternsFile.written), PatternsLines(d, numCalls, compress, order), patternsFile.capacity)
    ensures !Fails(old(defaultFile.written), DefaultLines(numCalls, countsWrites), defaultFile.capacity) &&
            Fails(old(patternsFile.written), PatternsLines(d, numCalls, compress, order), patternsFile.capacity) ==>
      failed && summaryFile.written == old(summaryFile.written)
    ensures !Fails(old(defaultFile.written), DefaultLines(numCalls, countsWrites), defaultFile.capacity) &&
            !Fails(old(patternsFile.written), PatternsLines(d, numCalls, compress, order), patternsFile.capacity) ==>
      && summaryFile.written == Emitted(old(summaryFile.written), SummaryLines(d, numCalls, compress, order), summaryFile.capacity)
      && failed == Fails(old(summaryFile.written), SummaryLines(d, numCalls, compress, order), summaryFile.capacity)
  {
    failed := WriteAll(defaultFile, DefaultLines(numCalls, countsWrites));
    if failed {
      return;
    }
    failed := WritePatternsFile(patternsFile, d, numCalls, compress, order);
    if failed {
      return;
    }
    failed := WriteSummaryFile(summaryFile, d, numCalls, compress, order);
  }

  method WritePatternsFile(f: Writer, d: Snapshot, numCalls: int, compress: seq<int> -> string,
                           order: map<int, int> -> seq<int>) returns (failed: bool)
    modifies f
    ensures f.written == Emitted(old(f.written), PatternsLines(d, numCalls, compress, order), f.capacity)
    ensures failed == Fails(old(f.written), PatternsLines(d, numCalls, compress, order), f.capacity)
  {
    failed := WriteSection(f, PatternsTitle, d.allPatterns, true, numCalls, compress, order);
  }

  method WriteSummaryFile(f: Writer, d: Snapshot, numCalls: int, compress: seq<int> -> string,
                          order: map<int, int> -> seq<int>) returns (failed: bool)
    modifies f
    ensures f.written == Emitted(old(f.written), SummaryLines(d, numCalls, compress, order), f.capacity)
    ensures failed == Fails(old(f.written), SummaryLines(d, numCalls, compress, order), f.capacity)
  {
    if NoSummary(d) {
      failed := WriteAll(f, [NoSummaryText]);
      return;
    }
    ghost var w0 := f.written;
    ghost var spec := SummaryLines(d, numCalls, compress, order);
    ghost var second := SummarySection(NToOneSummaryTitle, d.nToOne, false, numCalls, compress, order);
    ghost var third := SummarySection(NToNSummaryTitle, d.nToN, false, numCalls, compress, order);
    ContinueRun(f.written, SummarySection(OneToNSummaryTitle, d.oneToN, true, numCalls, compress, order), second + third,
                w0, spec, f.capacity);
    failed := WriteSummarySection(f, OneToNSummaryTitle, d.oneToN, true, numCalls, compress, order);
    if failed {
      return;
    }
    ContinueRun(f.written, second, third, w0, spec, f.capacity);
    failed := WriteSummarySection(f, NToOneSummaryTitle, d.nToOne, false, numCalls, compress, order);
    if failed {
      return;
    }
    assert third == third + [];
    ContinueRun(f.written, third, [], w0, spec, f.capacity);
    failed := WriteSummarySection(f, NToNSummaryTitle, d.nToN, false, numCalls, compress, order);
    if !failed {
      Finished(f.written, w0, spec, f.capacity);
    }
  }

  method WriteSummarySection(f: Writer, title: string, ps: seq<Pattern>, advance: bool, numCalls: int,
                             compress: seq<int> -> string, order: map<int, int> -> seq<int>) returns (failed: bool)
    modifies f
    ensures f.written == Emitted(old(f.written), SummarySection(title, ps, advance, numCalls, compress, order), f.capacity)
    ensures failed == Fails(old(f.written), SummarySection(title, ps, advance, numCalls, compress, order), f.capacity)
  {
    if |ps| != 0 {
      failed := WriteSection(f, title, ps, advance, numCalls, compress, order);
    } else {
      failed := false;
    }
  }

  /** A title, then the blocks of `ps` numbered from 0, advancing or not. */
  method WriteSection(f: Writer, title: string, ps: seq<Pattern>, advance: bool, numCalls: int,
                      compress: seq<int> -> string, order: map<int, int> -> seq<int>) returns (failed: bool)
    modifies f
    ensures f.written == Emitted(old(f.written), [title] + Blocks(ps, 0, advance, numCalls, compress, order), f.capacity)
    ensures failed == Fails(old(f.written), [title] + Blocks(ps, 0, advance, numCalls, compress, order), f.capacity)
  {
    ghost var w0 := f.written;
    ghost var spec := [title] + Blocks(ps, 0, advance, numCalls, compress, order);
    failed := WriteNext(f, title, Blocks(ps, 0, advance, numCalls, compress, order), w0, spec);
    if failed {
      return;
    }
    var num := 0;
    var i := 0;
    while i < |ps|
      invariant 0 <= i <= |ps|
      invariant Continues(f.written, Blocks(ps[i..], num, advance, numCalls, compress, order), w0, spec, f.capacity)
    {
      BlocksStep(f.written, ps, i, num, advance, numCalls, compress, order, w0, spec, f.capacity);
      failed := WriteToFile(f, num, numCalls, ps[i], compress, order);
      if failed {
        return;
      }
      if advance {
        num := num + 1;
      }
      i := i + 1;
    }
    assert ps[i..] == [];
    Finished(f.written, w0, spec, f.capacity);
  }

  lemma BlocksStep(w: seq<string>, ps: seq<Pattern>, i: nat, num: int, advance: bool, numCalls: int,
                   compress: seq<int> -> string, order: map<int, int> -> seq<int>,
                   w0: seq<string>, spec: seq<string>, capacity: nat)
    requires i < |ps|
    requires Continues(w, Blocks(ps[i..], num, advance, numCalls, compress, order), w0, spec, capacity)
    ensures Fails(w, BlockLines(num, numCalls, ps[i], compress, order), capacity) ==>
      Emitted(w, BlockLines(num, numCalls, ps[i], compress, order), capacity) == Emitted(w0, spec, capacity) &&
      Fails(w0, spec, capacity)
    ensures !Fails(w, BlockLines(num, numCalls, ps[i], compress, order), capacity) ==>
      Continues(Emitted(w, BlockLines(num, numCalls, ps[i], compress, order), capacity),
                Blocks(ps[i + 1..], Next(num, advance), advance, numCalls, compress, order), w0, spec, capacity)
  {
    assert ps[i..][1..] == ps[i + 1..];
    ContinueRun(w, BlockLines(num, numCalls, ps[i], compress, order),
                Blocks(ps[i + 1..], Next(num, advance), advance, numCalls, compress, order), w0, spec, capacity);
  }

  /** The i-th bucket's block carries the header numbered Nth(num, advance,
      i): num + i when the counter advances, num otherwise. */
  lemma {:induction false} BlocksNumbered(ps: seq<Pattern>, num: int, advance: bool, numCalls: int,
                                          compress: seq<int> -> string, order: map<int, int> -> seq<int>, i: nat)
    requires i < |ps|
    ensures BlockHeader(Nth(num, advance, i), ps[i].count, numCalls) in Blocks(ps, num, advance, numCalls, compress, order)
    decreases i
  {
    if i == 0 {
      assert BlockLines(num, numCalls, ps[0], compress, order)[0] == BlockHeader(num, ps[0].count, numCalls);
    } else {
      BlocksNumbered(ps[1..], Next(num, advance), advance, numCalls, compress, order, i - 1);
      assert ps[1..][i - 1] == ps[i];
      assert Nth(Next(num, advance), advance, i - 1) == Nth(num, advance, i);
    }
  }

  /** The only Markdown title in a block is its header. */
  lemma BlockLinesTitle(num: int, numCalls: int, p: Pattern, compress: seq<int> -> string,
                        order: map<int, int> -> seq<int>)
    ensures forall l :: l in BlockLines(num, numCalls, p, compress, order) && l != [] && l[0] == '#' ==>
      l == BlockHeader(num, p.count, numCalls)
  {
    var data := DataLines(p, order);
    EntryLinesUntitled(p.send, order(p.send), SentTo);
    EntryLinesUntitled(p.recv, order(p.recv), RecvFrom);
    UntitledAppend(EntryLines(p.send, order(p.send), SentTo), EntryLines(p.recv, order(p.recv), RecvFrom));
    ConcatHead([CallsPrefix, compress(p.calls), "\n"]);
    assert CallsLine(compress(p.calls))[0] == 'A';
    forall l | l in BlockLines(num, numCalls, p, compress, order) && l != [] && l[0] == '#'
      ensures l == BlockHeader(num, p.count, numCalls)
    {
      NotInUntitled(l, data);
    }
  }

  /** Every Markdown title among the blocks is the header of one of them,
      numbered Nth(num, advance, i) for its position i: with a counter
      that does not advance, every header carries the same number. */
  lemma {:induction false} BlocksTitles(ps: seq<Pattern>, num: int, advance: bool, numCalls: int,
                                        compress: seq<int> -> string, order: map<int, int> -> seq<int>)
    ensures forall l :: l in Blocks(ps, num, advance, numCalls, compress, order) && l != [] && l[0] == '#' ==>
      exists i :: 0 <= i < |ps| && l == BlockHeader(Nth(num, advance, i), ps[i].count, numCalls)
    decreases |ps|
  {
    if ps != [] {
      var head := BlockLines(num, numCalls, ps[0], compress, order);
      var tail := Blocks(ps[1..], Next(num, advance), advance, numCalls, compress, order);
      assert Blocks(ps, num, advance, numCalls, compress, order) == head + tail;
      BlocksTitles(ps[1..], Next(num, advance), advance, numCalls, compress, order);
      BlockLinesTitle(num, numCalls, ps[0], compress, order);
      TitlesAppend(head, tail, ps, num, advance, numCalls);
    }
  }

  /** The titles of a block followed by the later blocks, renumbered. */
  lemma TitlesAppend(head: seq<string>, tail: seq<string>, ps: seq<Pattern>, num: int, advance: bool, numCalls: int)
    requires ps != []
    requires forall l :: l in head && l != [] && l[0] == '#' ==> l == BlockHeader(num, ps[0].count, numCalls)
    requires forall l :: l in tail && l != [] && l[0] == '#' ==>
      exists j :: 0 <= j < |ps[1..]| && l == BlockHeader(Nth(Next(num, advance), advance, j), ps[1..][j].count, numCalls)
    ensures forall l :: l in head + tail && l != [] && l[0] == '#' ==>
      exists i :: 0 <= i < |ps| && l == BlockHeader(Nth(num, advance, i), ps[i].count, numCalls)
  {
    forall l | l in head + tail && l != [] && l[0] == '#'
      ensures exists i :: 0 <= i < |ps| && l == BlockHeader(Nth(num, advance, i), ps[i].count, numCalls)
    {
      if l in head {
        assert l == BlockHeader(Nth(num, advance, 0), ps[0].count, numCalls);
      } else {
        var j :| 0 <= j < |ps[1..]| && l == BlockHeader(Nth(Next(num, advance), advance, j), ps[1..][j].count, numCalls);
        assert l == BlockHeader(Nth(num, advance, j + 1), ps[j + 1].count, numCalls);
      }
    }
  }

  /** The summary file says there is nothing to summarise exactly when no
      view has buckets. */
  lemma SummaryEmptyIff(d: Snapshot, numCalls: int, compress: seq<int> -> string, order: map<int, int> -> seq<int>)
    ensures SummaryLines(d, numCalls, compress, order) == [NoSummaryText] <==> NoSummary(d)
  {
    if !NoSummary(d) {
      var lines := SummaryLines(d, numCalls, compress, order);
      assert |lines| >= 1;
      assert lines[0] in {OneToNSummaryTitle, NToOneSummaryTitle, NToNSummaryTitle};
      assert |NoSummaryText| == 36;
    }
  }

  lemma BlocksFirst(ps: seq<Pattern>, num: int, advance: bool, numCalls: int,
                    compress: seq<int> -> string, order: map<int, int> -> seq<int>)
    requires ps != []
    ensures |Blocks(ps, num, advance, numCalls, compress, order)| >= 1
    ensures Blocks(ps, num, advance, numCalls, compress, order)[0] == BlockHeader(num, ps[0].count, numCalls)
  {
    assert BlockLines(num, numCalls, ps[0], compress, order)[0] == BlockHeader(num, ps[0].count, numCalls);
  }

  lemma PatternsTitleLine()
    ensures |PatternsTitle| >= 1 && PatternsTitle[|PatternsTitle| - 1] == '\n' && '\n' !in PatternsTitle[..|PatternsTitle| - 1]
  {
  }

  /** A patterns file SaveStats wrote cannot be read back: the blank line
      after the first block's header stops the reader. */
  lemma SavedPatternsUnreadable(d: Snapshot, numCalls: int, compress: seq<int> -> string,
                                order: map<int, int> -> seq<int>, callNum: int, decode: Decoder)
    requires |d.allPatterns| >= 1
    ensures CallPatterns(Concat(PatternsLines(d, numCalls, compress, order)), callNum, decode) ==
      Err(Unreadable(NotAHeader("\n")))
  {
    var bs := Blocks(d.allPatterns, 0, true, numCalls, compress, order);
    BlocksFirst(d.allPatterns, 0, true, numCalls, compress, order);
    var header := bs[0];
    var after := bs[1..];
    assert [PatternsTitle] + bs == [PatternsTitle] + ([header] + after);
    ConcatCons(PatternsTitle, [header] + after);
    ConcatCons(header, after);
    PatternsTitleLine();
    ReadLine(PatternsTitle, header + Concat(after));
    WrittenBlockIsNotAHeader(0, d.allPatterns[0].count, numCalls, Concat(after), decode);
  }
}
