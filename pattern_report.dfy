/**
  The pattern report files of tools/internal/pkg/patterns/patterns.go: the
  blocks `WriteToFile` and the sub-communicator writers emit, and the reader
  side (`GetPatternHeader`, `getPatterns`, `GetCall`) that looks a call up in
  a patterns file.

  A `bufio.Reader` is the text it has not read yet; a file being written is an `Output.Writer`. The order in which Go's
  `range` visits a map is the runtime's choice: it is the parameter `order`,
  which lists each map's keys once.
 */
module PatternReport {
  import opened Wrappers
  import opened GoText
  import opened Output
  import opened Patterns
  import opened Counts

  const PatternsTitle := "# Patterns\n"
  const HeaderPrefix := "## Pattern #"
  const CallsPrefix := "Alltoallv calls: "

  /** Why reading a patterns file stopped. */
  datatype Failure =
    | EndOfFile
    | NotAHeader(line: string)
    | Undecodable(msg: string)
    | Compromised(line: string)
    | WrongFormat(line: string)
    | Unreadable(cause: Failure)
    | NotFound(callNum: int)

  /** The decoder of compressed call lists ("0-3,7"); the notation package is
      not part of this model, so it is a parameter. */
  type Decoder = string -> Result<seq<int>, string>

  // ---------------------------------------------------------------------
  // Reading

  /** A block header: the decoded call list, its text, and what the reader
      has left after it. */
  datatype Header = Header(callIDs: seq<int>, callIDsStr: string, rest: string)

  /** GetPatternHeader: a "## Pattern #" line, then an "Alltoallv calls: "
      line whose list is cut out with TrimLeft (a cut set, not a prefix) and
      TrimRight, then decoded. A line without its newline is the end of file. */
  function GetPatternHeader(s: string, decode: Decoder): (r: Result<Header, Failure>)
    ensures r.Ok? ==> |r.value.rest| < |s|
  {
    var first := ReadString(s);
    if first.eof then Err(EndOfFile)
    else if !HasPrefix(first.line, HeaderPrefix) then Err(NotAHeader(first.line))
    else
      var second := ReadString(first.rest);
      if second.eof then Err(EndOfFile)
      else if !HasPrefix(second.line, CallsPrefix) then Err(NotAHeader(second.line))
      else
        var callIDsStr := TrimRight(TrimLeft(second.line, CallsPrefix), "\n");
        match decode(callIDsStr)
        case Err(msg) => Err(Undecodable(msg))
        case Ok(ids) => Ok(Header(ids, callIDsStr, second.rest))
  }

  /** What getPatterns collects from `s`, `acc` being what it already holds. */
  datatype Scan = Scan(patterns: string, rest: string, err: Option<Failure>)

  function ScanPatterns(s: string, acc: string): (r: Scan)
    ensures |r.rest| <= |s|
    decreases |s|
  {
    var rd := ReadString(s);
    if rd.eof || rd.line == "" || rd.line == "\n" then Scan(acc, rd.rest, None)
    else if HasPrefix(rd.line, CallsPrefix) then Scan(acc, rd.rest, Some(Compromised(rd.line)))
    else ScanPatterns(rd.rest, acc + rd.line)
  }

  /** getPatterns: the lines of a block up to a blank line or the end of the
      file (a last line without newline is dropped); a second call-list line
      means the reader lost track of the blocks. */
  method GetPatterns(s: string) returns (patterns: string, rest: string, err: Option<Failure>)
    ensures Scan(patterns, rest, err) == ScanPatterns(s, "")
  {
    patterns := "";
    rest := s;
    err := None;
    while true
      invariant ScanPatterns(rest, patterns) == ScanPatterns(s, "")
      decreases |rest|
    {
      var rd := ReadString(rest);
      if rd.eof {
        rest := rd.rest;
        return;
      }
      if rd.line == "" || rd.line == "\n" {
        rest := rd.rest;
        return;
      }
      if HasPrefix(rd.line, CallsPrefix) {
        rest := rd.rest;
        err := Some(Compromised(rd.line));
        return;
      }
      patterns := patterns + rd.line;
      rest := rd.rest;
    }
  }

  /** The block loop of GetCall over what is left of the file. */
  function FindCall(s: string, callNum: int, decode: Decoder): Result<string, Failure>
    decreases |s|
  {
    match GetPatternHeader(s, decode)
    case Err(e) => if e == EndOfFile then Err(NotFound(callNum)) else Err(Unreadable(e))
    case Ok(h) =>
      var block := ScanPatterns(h.rest, "");
      if callNum in h.callIDs then
        if block.err.Some? then Ok("") else Ok(block.patterns)
      else
        if block.err.Some? then Ok("") else FindCall(block.rest, callNum, decode)
  }

  /** GetCall on a file's text: the file must open with "# Patterns". */
  function CallPatterns(text: string, callNum: int, decode: Decoder): Result<string, Failure> {
    var first := ReadString(text);
    if first.eof then Err(EndOfFile)
    else if first.line != PatternsTitle then Err(WrongFormat(first.line))
    else FindCall(first.rest, callNum, decode)
  }

  /** The search of GetCall's header loop: does the block list the call? */
  method ListsCall(callIDs: seq<int>, callNum: int) returns (targetBlock: bool)
    ensures targetBlock <==> callNum in callIDs
  {
    targetBlock := false;
    var i := 0;
    while i < |callIDs| && !targetBlock
      invariant 0 <= i <= |callIDs|
      invariant targetBlock <==> callNum in callIDs[..i]
    {
      targetBlock := callIDs[i] == callNum;
      assert callIDs[..i + 1] == callIDs[..i] + [callIDs[i]];
      i := i + 1;
    }
    if !targetBlock {
      assert callIDs[..i] == callIDs;
    }
  }

  /** GetCall: scans the blocks for the first one whose call list holds
      `callNum` and returns its lines. A damaged block after a header ends
      the search with an empty answer and no error. */
  method GetCall(text: string, callNum: int, decode: Decoder) returns (r: Result<string, Failure>)
    ensures r == CallPatterns(text, callNum, decode)
  {
    var first := ReadString(text);
    if first.eof {
      return Err(EndOfFile);
    }
    if first.line != PatternsTitle {
      return Err(WrongFormat(first.line));
    }
    var reader := first.rest;
    while true
      invariant FindCall(reader, callNum, decode) == CallPatterns(text, callNum, decode)
      decreases |reader|
    {
      var header := GetPatternHeader(reader, decode);
      if header.Err? && header.error != EndOfFile {
        return Err(Unreadable(header.error));
      }
      if header.Err? {
        break;
      }
      var callIDs := header.value.callIDs;
      var targetBlock := ListsCall(callIDs, callNum);
      var patterns, rest, err := GetPatterns(header.value.rest);
      if err.Some? {
        return Ok("");
      }
      if targetBlock {
        return Ok(patterns);
      }
      reader := rest;
    }
    return Err(NotFound(callNum));
  }

  // ---------------------------------------------------------------------
  // Files in the layout GetCall expects

  /** A block as GetCall expects it: a header title, a compressed call list,
      and data lines, ended by a blank line. */
  datatype Entry = Entry(title: string, callList: string, lines: seq<string>)

  function HeaderLine(title: string): string {
    Concat([HeaderPrefix, title, "\n"])
  }

  function EntryText(e: Entry): string {
    Concat([HeaderLine(e.title), CallsLine(e.callList)] + e.lines + ["\n"])
  }

  function EntriesText(entries: seq<Entry>): string {
    if entries == [] then "" else EntryText(entries[0]) + EntriesText(entries[1..])
  }

  /** A data line: one non-blank line that is not a call-list line. */
  predicate IsDataLine(l: string) {
    |l| >= 2 && l[|l| - 1] == '\n' && '\n' !in l[..|l| - 1] && !HasPrefix(l, CallsPrefix)
  }

  /** A block GetCall reads back: single-line title and call list, a call list
      the decoder accepts and that does not start with a cut-set character. */
  predicate Readable(e: Entry, decode: Decoder) {
    && '\n' !in e.title
    && '\n' !in e.callList
    && (e.callList == [] || e.callList[0] !in CallsPrefix)
    && decode(e.callList).Ok?
    && forall i :: 0 <= i < |e.lines| ==> IsDataLine(e.lines[i])
  }

  /** The calls a readable block lists. */
  function CallsOf(e: Entry, decode: Decoder): seq<int>
    requires Readable(e, decode)
  {
    decode(e.callList).value
  }

  /** The reference answer: the lines of the first block listing the call. */
  function Lookup(entries: seq<Entry>, callNum: int, decode: Decoder): (r: Result<string, Failure>)
    requires forall i :: 0 <= i < |entries| ==> Readable(entries[i], decode)
    ensures r.Ok? <==> exists i :: 0 <= i < |entries| && callNum in CallsOf(entries[i], decode)
    ensures r.Err? ==> r.error == NotFound(callNum)
    ensures r.Ok? ==> exists i :: (0 <= i < |entries| && callNum in CallsOf(entries[i], decode) &&
      r.value == Concat(entries[i].lines) &&
      forall j :: 0 <= j < i ==> callNum !in CallsOf(entries[j], decode))
  {
    if entries == [] then Err(NotFound(callNum))
    else if assert Readable(entries[0], decode); callNum in CallsOf(entries[0], decode) then Ok(Concat(entries[0].lines))
    else
      var r := Lookup(entries[1..], callNum, decode);
      assert forall i :: 1 <= i < |entries| ==> entries[i] == entries[1..][i - 1];
      if r.Ok? then
        ghost var i :| 0 <= i < |entries[1..]| && callNum in CallsOf(entries[1..][i], decode) &&
          r.value == Concat(entries[1..][i].lines) &&
          (forall j :: 0 <= j < i ==> callNum !in CallsOf(entries[1..][j], decode));
        assert callNum in CallsOf(entries[i + 1], decode);
        r
      else
        r
  }

  /** getPatterns takes a data line and goes on after it. */
  lemma ScanDataLine(l: string, tail: string, acc: string)
    requires IsDataLine(l)
    ensures ScanPatterns(l + tail, acc) == ScanPatterns(tail, acc + l)
  {
    assert l[..|l| - 1] + [l[|l| - 1]] == l;
    ReadLine(l, tail);
  }

  /** getPatterns collects data lines up to the blank line. */
  lemma {:induction false} ScanLines(lines: seq<string>, rest: string, acc: string)
    requires forall i :: 0 <= i < |lines| ==> IsDataLine(lines[i])
    ensures ScanPatterns(Concat(lines) + "\n" + rest, acc) == Scan(acc + Concat(lines), rest, None)
    decreases |lines|
  {
    if lines == [] {
      ReadLine("\n", rest);
    } else {
      var l := lines[0];
      var tail := Concat(lines[1..]) + "\n" + rest;
      assert Concat(lines) + "\n" + rest == l + tail;
      ScanDataLine(l, tail, acc);
      assert forall i :: 0 <= i < |lines[1..]| ==> IsDataLine(lines[1..][i]) by {
        forall i | 0 <= i < |lines[1..]| ensures IsDataLine(lines[1..][i]) {
          assert lines[1..][i] == lines[i + 1];
        }
      }
      ScanLines(lines[1..], rest, acc + l);
      assert acc + l + Concat(lines[1..]) == acc + Concat(lines);
    }
  }

  lemma ReadHeaderLine(title: string, rest: string)
    requires '\n' !in title
    ensures ReadString(HeaderLine(title) + rest) == Read(HeaderLine(title), rest, false)
    ensures HasPrefix(HeaderLine(title), HeaderPrefix)
  {
    var l1 := HeaderLine(title);
    ConcatCons(HeaderPrefix, [title, "\n"]);
    ConcatCons(title, ["\n"]);
    assert l1[..|l1| - 1] == HeaderPrefix + title;
    assert l1[..|HeaderPrefix|] == HeaderPrefix;
    ReadLine(l1, rest);
  }

  /** The call list is cut back out of its line, whatever cut-set trimming does. */
  lemma ReadCallsLine(callList: string, rest: string)
    requires '\n' !in callList
    requires callList == [] || callList[0] !in CallsPrefix
    ensures ReadString(CallsLine(callList) + rest) == Read(CallsLine(callList), rest, false)
    ensures HasPrefix(CallsLine(callList), CallsPrefix)
    ensures TrimRight(TrimLeft(CallsLine(callList), CallsPrefix), "\n") == callList
  {
    var l2 := CallsLine(callList);
    CallsLineShape(callList);
    ReadLine(l2, rest);
    TrimLeftPrefix(CallsPrefix, callList + "\n", CallsPrefix);
    TrimRightNewline(callList);
  }

  lemma CallsLineShape(callList: string)
    ensures CallsLine(callList) == CallsPrefix + (callList + "\n")
    ensures CallsLine(callList)[..|CallsLine(callList)| - 1] == CallsPrefix + callList
    ensures CallsLine(callList)[..|CallsPrefix|] == CallsPrefix
  {
    var l2 := CallsLine(callList);
    ConcatCons(CallsPrefix, [callList, "\n"]);
    ConcatCons(callList, ["\n"]);
    assert l2 == CallsPrefix + (callList + "\n");
    assert l2[..|l2| - 1] == CallsPrefix + callList;
  }

  /** A header line and a call-list line read as a header. */
  lemma ReadHeader(title: string, callList: string, body: string, decode: Decoder)
    requires '\n' !in title && '\n' !in callList
    requires callList == [] || callList[0] !in CallsPrefix
    requires decode(callList).Ok?
    ensures GetPatternHeader(HeaderLine(title) + (CallsLine(callList) + body), decode) ==
      Ok(Header(decode(callList).value, callList, body))
  {
    ReadHeaderLine(title, CallsLine(callList) + body);
    ReadCallsLine(callList, body);
  }

  /** One readable block: its header and its lines. */
  lemma ReadEntry(e: Entry, rest: string, decode: Decoder)
    requires Readable(e, decode)
    ensures GetPatternHeader(EntryText(e) + rest, decode).Ok?
    ensures GetPatternHeader(EntryText(e) + rest, decode).value.callIDs == CallsOf(e, decode)
    ensures ScanPatterns(GetPatternHeader(EntryText(e) + rest, decode).value.rest, "") ==
      Scan(Concat(e.lines), rest, None)
  {
    var l1 := HeaderLine(e.title);
    var l2 := CallsLine(e.callList);
    var body := Concat(e.lines) + "\n" + rest;
    assert EntryText(e) + rest == l1 + (l2 + body) by {
      ConcatCons(l1, [l2] + e.lines + ["\n"]);
      assert [l1, l2] + e.lines + ["\n"] == [l1] + ([l2] + e.lines + ["\n"]);
      ConcatCons(l2, e.lines + ["\n"]);
      assert [l2] + e.lines + ["\n"] == [l2] + (e.lines + ["\n"]);
      ConcatAppend(e.lines, ["\n"]);
    }
    ReadHeader(e.title, e.callList, body, decode);
    ScanLines(e.lines, rest, "");
  }

  /** On a file in the expected layout GetCall answers what Lookup answers:
      the lines of the first block that lists the call, or "not found". */
  lemma {:induction false} FindCallEntries(entries: seq<Entry>, callNum: int, decode: Decoder)
    requires forall i :: 0 <= i < |entries| ==> Readable(entries[i], decode)
    ensures FindCall(EntriesText(entries), callNum, decode) == Lookup(entries, callNum, decode)
    decreases |entries|
  {
    if entries != [] {
      ReadEntry(entries[0], EntriesText(entries[1..]), decode);
      assert forall i :: 0 <= i < |entries[1..]| ==> entries[1..][i] == entries[i + 1];
      FindCallEntries(entries[1..], callNum, decode);
    }
  }

  lemma GetCallReadsEntries(entries: seq<Entry>, callNum: int, decode: Decoder)
    requires forall i :: 0 <= i < |entries| ==> Readable(entries[i], decode)
    ensures CallPatterns(PatternsTitle + EntriesText(entries), callNum, decode) == Lookup(entries, callNum, decode)
  {
    ReadLine(PatternsTitle, EntriesText(entries));
    FindCallEntries(entries, callNum, decode);
  }

  // ---------------------------------------------------------------------
  // Writing

  /** Go's `range` over a map visits each key exactly once. */
  ghost predicate IsOrdering(keys: seq<int>, m: map<int, int>) {
    && |keys| == |m|
    && (forall i :: 0 <= i < |keys| ==> keys[i] in m)
    && (forall k :: k in m ==> k in keys)
  }

  ghost predicate ValidOrder(order: map<int, int> -> seq<int>) {
    forall m :: IsOrdering(order(m), m)
  }

  const SentTo := " ranks sent to "
  const RecvFrom := " ranks recv'd from "

  /** "%d ranks sent to %d other ranks\n", or recv'd from. */
  function EntryLine(n: int, verb: string, peers: int): string {
    Concat([Itoa(n), verb, Itoa(peers), " other ranks\n"])
  }

  /** Go's `m[k]`: the zero value for a key the map does not hold. */
  function MapValue(m: map<int, int>, k: int): int {
    if k in m then m[k] else 0
  }

  /** One entry line per key, in the order of `keys`. */
  function EntryLines(m: map<int, int>, keys: seq<int>, verb: string): seq<string> {
    if keys == [] then []
    else [EntryLine(MapValue(m, keys[0]), verb, keys[0])] + EntryLines(m, keys[1..], verb)
  }

  lemma {:induction false} EntryLinesLength(m: map<int, int>, keys: seq<int>, verb: string)
    ensures |EntryLines(m, keys, verb)| == |keys|
    decreases |keys|
  {
    if keys != [] {
      EntryLinesLength(m, keys[1..], verb);
    }
  }

  /** What writeDataToFile writes for a bucket. */
  function DataLines(p: Pattern, order: map<int, int> -> seq<int>): seq<string>
  {
    EntryLines(p.send, order(p.send), SentTo) + EntryLines(p.recv, order(p.recv), RecvFrom)
  }

  /** One line per entry of either map. */
  lemma DataLinesCount(p: Pattern, order: map<int, int> -> seq<int>)
    requires ValidOrder(order)
    ensures |DataLines(p, order)| == |p.send| + |p.recv|
  {
    assert IsOrdering(order(p.send), p.send) && IsOrdering(order(p.recv), p.recv);
    EntryLinesLength(p.send, order(p.send), SentTo);
    EntryLinesLength(p.recv, order(p.recv), RecvFrom);
  }

  /** Every send entry is written, whatever the order. */
  lemma {:induction false} EntryLinesHave(m: map<int, int>, keys: seq<int>, verb: string, k: int)
    requires k in m && k in keys
    ensures EntryLine(m[k], verb, k) in EntryLines(m, keys, verb)
    decreases |keys|
  {
    if keys[0] != k {
      assert k in keys[1..];
      EntryLinesHave(m, keys[1..], verb, k);
    }
  }

  lemma DataLinesHaveEntries(p: Pattern, order: map<int, int> -> seq<int>)
    requires ValidOrder(order)
    ensures forall k :: k in p.send ==> EntryLine(p.send[k], SentTo, k) in DataLines(p, order)
    ensures forall k :: k in p.recv ==> EntryLine(p.recv[k], RecvFrom, k) in DataLines(p, order)
  {
    assert IsOrdering(order(p.send), p.send) && IsOrdering(order(p.recv), p.recv);
    forall k | k in p.send
      ensures EntryLine(p.send[k], SentTo, k) in DataLines(p, order)
    {
      EntryLinesHave(p.send, order(p.send), SentTo, k);
    }
    forall k | k in p.recv
      ensures EntryLine(p.recv[k], RecvFrom, k) in DataLines(p, order)
    {
      EntryLinesHave(p.recv, order(p.recv), RecvFrom, k);
    }
  }

  /** One of the two range loops of writeDataToFile. */
  method WriteEntries(f: Writer, m: map<int, int>, keys: seq<int>, verb: string) returns (failed: bool)
    modifies f
    ensures f.written == Emitted(old(f.written), EntryLines(m, keys, verb), f.capacity)
    ensures failed == Fails(old(f.written), EntryLines(m, keys, verb), f.capacity)
  {
    ghost var w0 := f.written;
    ghost var spec := EntryLines(m, keys, verb);
    var i := 0;
    failed := false;
    while i < |keys|
      invariant 0 <= i <= |keys|
      invariant Continues(f.written, EntryLines(m, keys[i..], verb), w0, spec, f.capacity)
    {
      EntriesStep(f.written, m, keys, i, verb, w0, spec, f.capacity);
      failed := WriteNext(f, EntryLine(MapValue(m, keys[i]), verb, keys[i]), EntryLines(m, keys[i + 1..], verb), w0, spec);
      if failed {
        return;
      }
      i := i + 1;
    }
    assert keys[i..] == [];
    Finished(f.written, w0, spec, f.capacity);
  }

  lemma EntriesStep(w: seq<string>, m: map<int, int>, keys: seq<int>, i: nat, verb: string,
                    w0: seq<string>, spec: seq<string>, capacity: nat)
    requires i < |keys|
    requires Continues(w, EntryLines(m, keys[i..], verb), w0, spec, capacity)
    ensures Continues(w, [EntryLine(MapValue(m, keys[i]), verb, keys[i])] + EntryLines(m, keys[i + 1..], verb), w0, spec, capacity)
  {
    assert keys[i..][1..] == keys[i + 1..];
  }

  /** writeDataToFile: the send entries, then the recv entries. */
  method WriteDataToFile(f: Writer, p: Pattern, order: map<int, int> -> seq<int>) returns (failed: bool)
    modifies f
    ensures f.written == Emitted(old(f.written), DataLines(p, order), f.capacity)
    ensures failed == Fails(old(f.written), DataLines(p, order), f.capacity)
  {
    var sends := EntryLines(p.send, order(p.send), SentTo);
    var recvs := EntryLines(p.recv, order(p.recv), RecvFrom);
    RunStep(f.written, sends, recvs, f.capacity);
    failed := WriteEntries(f, p.send, order(p.send), SentTo);
    if failed {
      return;
    }
    failed := WriteEntries(f, p.recv, order(p.recv), RecvFrom);
  }

  /** "## Pattern #%d (%d/%d alltoallv calls)\n\n": the header WriteToFile
      writes, a blank line included. */
  function BlockHeader(num: int, count: int, totalNumCalls: int): string {
    Concat([HeaderPrefix, Itoa(num), " (", Itoa(count), "/", Itoa(totalNumCalls), " alltoallv calls)\n", "\n"])
  }

  /** "Alltoallv calls: %s\n" */
  function CallsLine(callList: string): string {
    Concat([CallsPrefix, callList, "\n"])
  }

  /** What WriteToFile writes for bucket `p` numbered `num`. */
  function BlockLines(num: int, totalNumCalls: int, p: Pattern, compress: seq<int> -> string,
                      order: map<int, int> -> seq<int>): seq<string>
  {
    [BlockHeader(num, p.count, totalNumCalls), CallsLine(compress(p.calls))] + DataLines(p, order) + ["\n"]
  }

  /** WriteToFile: header, call list, data lines and a closing blank line,
      stopping at the first write that fails. */
  method WriteToFile(f: Writer, num: int, totalNumCalls: int, p: Pattern, compress: seq<int> -> string,
                     order: map<int, int> -> seq<int>) returns (failed: bool)
    modifies f
    ensures f.written == Emitted(old(f.written), BlockLines(num, totalNumCalls, p, compress, order), f.capacity)
    ensures failed == Fails(old(f.written), BlockLines(num, totalNumCalls, p, compress, order), f.capacity)
  {
    ghost var w0 := f.written;
    ghost var spec := BlockLines(num, totalNumCalls, p, compress, order);
    var header := BlockHeader(num, p.count, totalNumCalls);
    var calls := CallsLine(compress(p.calls));
    ghost var data := DataLines(p, order);
    assert spec == [header] + ([calls] + (data + ["\n"]));
    failed := WriteNext(f, header, [calls] + (data + ["\n"]), w0, spec);
    if failed {
      return;
    }
    failed := WriteNext(f, calls, data + ["\n"], w0, spec);
    if failed {
      return;
    }
    ContinueRun(f.written, data, ["\n"], w0, spec, f.capacity);
    failed := WriteDataToFile(f, p, order);
    if failed {
      return;
    }
    assert ["\n"] == ["\n"] + [];
    failed := WriteNext(f, "\n", [], w0, spec);
    if !failed {
      Finished(f.written, w0, spec, f.capacity);
    }
  }

  /** The first line of WriteToFile's header, without its newline. */
  ghost function BlockTitle(num: int, count: int, totalNumCalls: int): string {
    Concat([HeaderPrefix, Itoa(num), " (", Itoa(count), "/", Itoa(totalNumCalls)]) + " alltoallv calls)"
  }

  lemma BlockHeaderShape(num: int, count: int, totalNumCalls: int)
    ensures BlockHeader(num, count, totalNumCalls) == BlockTitle(num, count, totalNumCalls) + "\n" + "\n"
  {
    var front := [HeaderPrefix, Itoa(num), " (", Itoa(count), "/", Itoa(totalNumCalls)];
    var close := " alltoallv calls)\n";
    assert [HeaderPrefix, Itoa(num), " (", Itoa(count), "/", Itoa(totalNumCalls), close, "\n"] == front + [close, "\n"];
    ConcatAppend(front, [close, "\n"]);
    ConcatCons(close, ["\n"]);
    assert [close, "\n"] == [close] + ["\n"];
    ConcatCons("\n", []);
    assert ["\n"] == ["\n"] + [];
    assert close == " alltoallv calls)" + "\n";
  }

  lemma BlockTitleShape(num: int, count: int, totalNumCalls: int)
    ensures '\n' !in BlockTitle(num, count, totalNumCalls)
    ensures HasPrefix(BlockTitle(num, count, totalNumCalls), HeaderPrefix)
  {
    var front := [HeaderPrefix, Itoa(num), " (", Itoa(count), "/", Itoa(totalNumCalls)];
    FrontOneLine(num, count, totalNumCalls, front);
    ConcatCons(HeaderPrefix, front[1..]);
    assert [HeaderPrefix] + front[1..] == front;
    PrefixOfAppend(HeaderPrefix, Concat(front[1..]), " alltoallv calls)");
  }

  lemma FrontOneLine(num: int, count: int, totalNumCalls: int, front: seq<string>)
    requires front == [HeaderPrefix, Itoa(num), " (", Itoa(count), "/", Itoa(totalNumCalls)]
    ensures '\n' !in Concat(front) + " alltoallv calls)"
  {
    ItoaHasNo(num, '\n');
    ItoaHasNo(count, '\n');
    ItoaHasNo(totalNumCalls, '\n');
    ConcatHas(front, '\n');
  }

  lemma PrefixOfAppend(a: string, b: string, c: string)
    ensures HasPrefix(a + b + c, a)
  {
    assert (a + b + c)[..|a|] == a;
  }

  /** The blank line after WriteToFile's header is read as the second header
      line, so a written block is never taken for a header. */
  lemma WrittenBlockIsNotAHeader(num: int, count: int, totalNumCalls: int, rest: string, decode: Decoder)
    ensures GetPatternHeader(BlockHeader(num, count, totalNumCalls) + rest, decode) == Err(NotAHeader("\n"))
  {
    var title := BlockTitle(num, count, totalNumCalls);
    BlockHeaderShape(num, count, totalNumCalls);
    BlockTitleShape(num, count, totalNumCalls);
    var l1 := title + "\n";
    assert l1[..|l1| - 1] == title;
    ReadLine(l1, "\n" + rest);
    assert BlockHeader(num, count, totalNumCalls) + rest == l1 + ("\n" + rest);
    assert l1[..|HeaderPrefix|] == title[..|HeaderPrefix|];
    ReadLine("\n", rest);
  }

  // ---------------------------------------------------------------------
  // Sub-communicator sections

  /** The view of a Data that a section reports. */
  function ViewOf(d: Snapshot, t: Topology): seq<Pattern> {
    match t
    case OneToMany => d.oneToN
    case ManyToMany => d.nToN
    case ManyToOne => d.nToOne
  }

  function SectionTitle(t: Topology): string {
    match t
    case OneToMany => "## 1 to n patterns\n\n"
    case ManyToMany => "## N to n patterns\n\n"
    case ManyToOne => "## N to 1 patterns\n\n"
  }

  const DescriptionTitle := "\n### Pattern(s) description\n\n"
  const InformationTitle := "\n\n### Sub-communicator(s) information\n\n"

  /** Go's map index: a missing rank reads as an empty Data, a missing
      statistic as zero calls. */
  function GroupOf(patterns: map<int, Snapshot>, r: int): Snapshot {
    if r in patterns then patterns[r] else NoPatterns
  }

  function TotalCalls(stats: map<int, SendRecvStats>, r: int): int {
    if r in stats then stats[r].totalNumCalls else 0
  }

  /** The data lines of every bucket of a view, one bucket after the other. */
  function Descriptions(ps: seq<Pattern>, order: map<int, int> -> seq<int>): seq<string>
  {
    if ps == [] then [] else DataLines(ps[0], order) + Descriptions(ps[1..], order)
  }

  function CountLine(num: int, count: int, totalNumCalls: int): string {
    Concat(["\tpattern #", Itoa(num), ": ", Itoa(count), "/", Itoa(totalNumCalls), " alltoallv calls\n"])
  }

  /** The per-bucket lines of one sub-communicator, numbered from `num`. */
  function CountLines(ps: seq<Pattern>, num: int, totalNumCalls: int): (r: seq<string>)
  {
    if ps == [] then [] else [CountLine(num, ps[0].count, totalNumCalls)] + CountLines(ps[1..], num + 1, totalNumCalls)
  }

  function LeaderLine(r: int): string {
    Concat(["-> Subcommunicator led by rank ", Itoa(r), ":\n"])
  }

  /** One sub-communicator: its leader, then its view's buckets numbered from 0. */
  function LeaderBlock(t: Topology, r: int, stats: map<int, SendRecvStats>, patterns: map<int, Snapshot>): seq<string> {
    [LeaderLine(r)] + CountLines(ViewOf(GroupOf(patterns, r), t), 0, TotalCalls(stats, r))
  }

  function LeaderLines(t: Topology, ranks: seq<int>, stats: map<int, SendRecvStats>, patterns: map<int, Snapshot>): seq<string> {
    if ranks == [] then [] else LeaderBlock(t, ranks[0], stats, patterns) + LeaderLines(t, ranks[1..], stats, patterns)
  }

  /** What WriteSubcomm{NtoN,1toN,Nto1}Patterns writes. */
  function SubcommLines(t: Topology, ranks: seq<int>, stats: map<int, SendRecvStats>, patterns: map<int, Snapshot>,
                        order: map<int, int> -> seq<int>): seq<string>
    requires |ranks| >= 1
  {
    SectionHead(t, ViewOf(GroupOf(patterns, ranks[0]), t), order) + LeaderLines(t, ranks, stats, patterns)
  }

  /** A section up to its sub-communicator list: the titles and the
      description of `view`. */
  function SectionHead(t: Topology, view: seq<Pattern>, order: map<int, int> -> seq<int>): seq<string>
  {
    [SectionTitle(t), DescriptionTitle] + Descriptions(view, order) + [InformationTitle]
  }

  /** One line per bucket. */
  lemma {:induction false} CountLinesLength(ps: seq<Pattern>, num: int, totalNumCalls: int)
    ensures |CountLines(ps, num, totalNumCalls)| == |ps|
    decreases |ps|
  {
    if ps != [] {
      CountLinesLength(ps[1..], num + 1, totalNumCalls);
    }
  }

  /** The i-th bucket of a leader's view is reported as "pattern #i". */
  lemma {:induction false} CountLinesNumbered(ps: seq<Pattern>, num: int, totalNumCalls: int, i: nat)
    requires i < |ps|
    ensures |CountLines(ps, num, totalNumCalls)| == |ps|
    ensures CountLines(ps, num, totalNumCalls)[i] == CountLine(num + i, ps[i].count, totalNumCalls)
    decreases i
  {
    CountLinesLength(ps, num, totalNumCalls);
    if i > 0 {
      var rest := CountLines(ps[1..], num + 1, totalNumCalls);
      assert CountLines(ps, num, totalNumCalls) == [CountLine(num, ps[0].count, totalNumCalls)] + rest;
      CountLinesNumbered(ps[1..], num + 1, totalNumCalls, i - 1);
      assert rest[i - 1] == CountLine(num + 1 + (i - 1), ps[1..][i - 1].count, totalNumCalls);
      assert ps[1..][i - 1] == ps[i] && num + 1 + (i - 1) == num + i;
    }
  }

  /** The description loop of WriteSubcomm: every bucket's data lines. */
  method WriteDescriptions(f: Writer, view: seq<Pattern>, order: map<int, int> -> seq<int>) returns (failed: bool)
    modifies f
    ensures f.written == Emitted(old(f.written), Descriptions(view, order), f.capacity)
    ensures failed == Fails(old(f.written), Descriptions(view, order), f.capacity)
  {
    ghost var w0 := f.written;
    ghost var spec := Descriptions(view, order);
    var i := 0;
    failed := false;
    while i < |view|
      invariant 0 <= i <= |view|
      invariant Continues(f.written, Descriptions(view[i..], order), w0, spec, f.capacity)
    {
      DescriptionsStep(f.written, view, i, order, w0, spec, f.capacity);
      failed := WriteDataToFile(f, view[i], order);
      if failed {
        return;
      }
      i := i + 1;
    }
    assert view[i..] == [];
    Finished(f.written, w0, spec, f.capacity);
  }

  lemma DescriptionsStep(w: seq<string>, view: seq<Pattern>, i: nat, order: map<int, int> -> seq<int>,
                         w0: seq<string>, spec: seq<string>, capacity: nat)
    requires i < |view|
    requires Continues(w, Descriptions(view[i..], order), w0, spec, capacity)
    ensures Fails(w, DataLines(view[i], order), capacity) ==>
      Emitted(w, DataLines(view[i], order), capacity) == Emitted(w0, spec, capacity) && Fails(w0, spec, capacity)
    ensures !Fails(w, DataLines(view[i], order), capacity) ==>
      Continues(Emitted(w, DataLines(view[i], order), capacity), Descriptions(view[i + 1..], order), w0, spec, capacity)
  {
    assert view[i..][1..] == view[i + 1..];
    ContinueRun(w, DataLines(view[i], order), Descriptions(view[i + 1..], order), w0, spec, capacity);
  }

  lemma CountsStep(w: seq<string>, ps: seq<Pattern>, num: nat, totalNumCalls: int,
                   w0: seq<string>, spec: seq<string>, capacity: nat)
    requires num < |ps|
    requires Continues(w, CountLines(ps[num..], num, totalNumCalls), w0, spec, capacity)
    ensures Continues(w, [CountLine(num, ps[num].count, totalNumCalls)] + CountLines(ps[num + 1..], num + 1, totalNumCalls),
                      w0, spec, capacity)
  {
    assert ps[num..][1..] == ps[num + 1..];
  }

  /** One leader's "\tpattern #%d: %d/%d alltoallv calls" lines, numbered from 0. */
  method WriteCounts(f: Writer, ps: seq<Pattern>, totalNumCalls: int) returns (failed: bool)
    modifies f
    ensures f.written == Emitted(old(f.written), CountLines(ps, 0, totalNumCalls), f.capacity)
    ensures failed == Fails(old(f.written), CountLines(ps, 0, totalNumCalls), f.capacity)
  {
    ghost var w0 := f.written;
    ghost var spec := CountLines(ps, 0, totalNumCalls);
    var num := 0;
    failed := false;
    while num < |ps|
      invariant 0 <= num <= |ps|
      invariant Continues(f.written, CountLines(ps[num..], num, totalNumCalls), w0, spec, f.capacity)
    {
      CountsStep(f.written, ps, num, totalNumCalls, w0, spec, f.capacity);
      failed := WriteNext(f, CountLine(num, ps[num].count, totalNumCalls), CountLines(ps[num + 1..], num + 1, totalNumCalls), w0, spec);
      if failed {
        return;
      }
      num := num + 1;
    }
    assert ps[num..] == [];
    Finished(f.written, w0, spec, f.capacity);
  }

  /** The first half of a WriteSubcomm function: the titles and the
      description of the lowest rank's view. */
  method WriteSectionHead(f: Writer, t: Topology, view: seq<Pattern>, order: map<int, int> -> seq<int>)
    returns (failed: bool)
    modifies f
    ensures f.written == Emitted(old(f.written), SectionHead(t, view, order), f.capacity)
    ensures failed == Fails(old(f.written), SectionHead(t, view, order), f.capacity)
  {
    ghost var w0 := f.written;
    ghost var spec := SectionHead(t, view, order);
    ghost var descs := Descriptions(view, order);
    assert spec == [SectionTitle(t)] + ([DescriptionTitle] + (descs + [InformationTitle]));
    failed := WriteNext(f, SectionTitle(t), [DescriptionTitle] + (descs + [InformationTitle]), w0, spec);
    if failed {
      return;
    }
    failed := WriteNext(f, DescriptionTitle, descs + [InformationTitle], w0, spec);
    if failed {
      return;
    }
    ContinueRun(f.written, descs, [InformationTitle], w0, spec, f.capacity);
    failed := WriteDescriptions(f, view, order);
    if failed {
      return;
    }
    assert [InformationTitle] == [InformationTitle] + [];
    failed := WriteNext(f, InformationTitle, [], w0, spec);
    if !failed {
      Finished(f.written, w0, spec, f.capacity);
    }
  }

  /** The three WriteSubcomm functions, one per view: the description of the
      lowest rank's view, then every rank with its view's buckets numbered
      from 0. */
  method WriteSubcomm(f: Writer, t: Topology, ranks: seq<int>, stats: map<int, SendRecvStats>,
                      patterns: map<int, Snapshot>, order: map<int, int> -> seq<int>) returns (failed: bool)
    requires |ranks| >= 1
    modifies f
    ensures f.written == Emitted(old(f.written), SubcommLines(t, ranks, stats, patterns, order), f.capacity)
    ensures failed == Fails(old(f.written), SubcommLines(t, ranks, stats, patterns, order), f.capacity)
  {
    var view := ViewOf(GroupOf(patterns, ranks[0]), t);
    RunStep(f.written, SectionHead(t, view, order), LeaderLines(t, ranks, stats, patterns), f.capacity);
    failed := WriteSectionHead(f, t, view, order);
    if failed {
      return;
    }
    failed := WriteLeaders(f, t, ranks, stats, patterns);
  }

  /** The information loop of WriteSubcomm: every rank and its view's counts. */
  method WriteLeaders(f: Writer, t: Topology, ranks: seq<int>, stats: map<int, SendRecvStats>,
                      patterns: map<int, Snapshot>) returns (failed: bool)
    modifies f
    ensures f.written == Emitted(old(f.written), LeaderLines(t, ranks, stats, patterns), f.capacity)
    ensures failed == Fails(old(f.written), LeaderLines(t, ranks, stats, patterns), f.capacity)
  {
    ghost var w0 := f.written;
    ghost var spec := LeaderLines(t, ranks, stats, patterns);
    var j := 0;
    failed := false;
    while j < |ranks|
      invariant 0 <= j <= |ranks|
      invariant Continues(f.written, LeaderLines(t, ranks[j..], stats, patterns), w0, spec, f.capacity)
    {
      failed := WriteNextLeader(f, t, ranks, j, stats, patterns, w0, spec);
      if failed {
        return;
      }
      j := j + 1;
    }
    LeadersDone(f.written, t, ranks, stats, patterns, w0, spec, f.capacity);
  }

  lemma LeadersDone(w: seq<string>, t: Topology, ranks: seq<int>, stats: map<int, SendRecvStats>,
                    patterns: map<int, Snapshot>, w0: seq<string>, spec: seq<string>, capacity: nat)
    requires Continues(w, LeaderLines(t, ranks[|ranks|..], stats, patterns), w0, spec, capacity)
    ensures w == Emitted(w0, spec, capacity) && !Fails(w0, spec, capacity)
  {
    assert ranks[|ranks|..] == [];
    Finished(w, w0, spec, capacity);
  }

  /** One turn of the information loop. */
  method WriteNextLeader(f: Writer, t: Topology, ranks: seq<int>, j: nat, stats: map<int, SendRecvStats>,
                         patterns: map<int, Snapshot>, ghost w0: seq<string>, ghost spec: seq<string>)
    returns (failed: bool)
    requires j < |ranks|
    requires Continues(f.written, LeaderLines(t, ranks[j..], stats, patterns), w0, spec, f.capacity)
    modifies f
    ensures failed ==> f.written == Emitted(w0, spec, f.capacity) && Fails(w0, spec, f.capacity)
    ensures !failed ==> Continues(f.written, LeaderLines(t, ranks[j + 1..], stats, patterns), w0, spec, f.capacity)
  {
    LeadersStep(f.written, t, ranks, j, stats, patterns, w0, spec, f.capacity);
    failed := WriteLeader(f, t, ranks[j], stats, patterns);
  }

  lemma LeadersStep(w: seq<string>, t: Topology, ranks: seq<int>, j: nat, stats: map<int, SendRecvStats>,
                    patterns: map<int, Snapshot>, w0: seq<string>, spec: seq<string>, capacity: nat)
    requires j < |ranks|
    requires Continues(w, LeaderLines(t, ranks[j..], stats, patterns), w0, spec, capacity)
    ensures Fails(w, LeaderBlock(t, ranks[j], stats, patterns), capacity) ==>
      Emitted(w, LeaderBlock(t, ranks[j], stats, patterns), capacity) == Emitted(w0, spec, capacity) &&
      Fails(w0, spec, capacity)
    ensures !Fails(w, LeaderBlock(t, ranks[j], stats, patterns), capacity) ==>
      Continues(Emitted(w, LeaderBlock(t, ranks[j], stats, patterns), capacity),
                LeaderLines(t, ranks[j + 1..], stats, patterns), w0, spec, capacity)
  {
    assert ranks[j..][1..] == ranks[j + 1..];
    ContinueRun(w, LeaderBlock(t, ranks[j], stats, patterns), LeaderLines(t, ranks[j + 1..], stats, patterns),
                w0, spec, capacity);
  }

  /** "-> Subcommunicator led by rank %d:\n" and the rank's counts. */
  method WriteLeader(f: Writer, t: Topology, r: int, stats: map<int, SendRecvStats>,
                     patterns: map<int, Snapshot>) returns (failed: bool)
    modifies f
    ensures f.written == Emitted(old(f.written), LeaderBlock(t, r, stats, patterns), f.capacity)
    ensures failed == Fails(old(f.written), LeaderBlock(t, r, stats, patterns), f.capacity)
  {
    ghost var w0 := f.written;
    ghost var spec := LeaderBlock(t, r, stats, patterns);
    var ps := ViewOf(GroupOf(patterns, r), t);
    var total := TotalCalls(stats, r);
    assert spec == [LeaderLine(r)] + (CountLines(ps, 0, total) + []);
    failed := WriteNext(f, LeaderLine(r), CountLines(ps, 0, total) + [], w0, spec);
    if failed {
      return;
    }
    ContinueRun(f.written, CountLines(ps, 0, total), [], w0, spec, f.capacity);
    failed := WriteCounts(f, ps, total);
    if !failed {
      Finished(f.written, w0, spec, f.capacity);
    }
  }
}
