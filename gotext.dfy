/**
  The pieces of Go's `strings`, `strconv` and `bufio` packages that the
  profiler's text handling relies on, written out so that their edge cases
  (cut sets, empty fields, partial last lines) are the ones Go has.
  Strings are sequences of characters; the profiler's files are ASCII.
 */
module GoText {
  import opened Wrappers

  /** strings.HasPrefix */
  predicate HasPrefix(s: string, prefix: string) {
    |prefix| <= |s| && s[..|prefix|] == prefix
  }

  /** strings.TrimLeft: drops leading characters that belong to the cut set. */
  function TrimLeft(s: string, cutset: string): (r: string)
    ensures |r| <= |s| && r == s[|s| - |r|..]
    ensures r != [] ==> r[0] !in cutset
    ensures forall i :: 0 <= i < |s| - |r| ==> s[i] in cutset
  {
    if |s| > 0 && s[0] in cutset then TrimLeft(s[1..], cutset) else s
  }

  /** strings.TrimRight: drops trailing characters that belong to the cut set. */
  function TrimRight(s: string, cutset: string): (r: string)
    ensures |r| <= |s| && r == s[..|r|]
    ensures r != [] ==> r[|r| - 1] !in cutset
    ensures forall i :: |r| <= i < |s| ==> s[i] in cutset
  {
    if |s| > 0 && s[|s| - 1] in cutset then TrimRight(s[..|s| - 1], cutset) else s
  }

  /** TrimLeft removes a leading run made of cut-set characters and stops
      at the first character outside the set. */
  lemma {:induction false} TrimLeftPrefix(p: string, s: string, cutset: string)
    requires forall i :: 0 <= i < |p| ==> p[i] in cutset
    requires s == [] || s[0] !in cutset
    ensures TrimLeft(p + s, cutset) == s
    decreases |p|
  {
    if p != [] {
      assert (p + s)[1..] == p[1..] + s;
      TrimLeftPrefix(p[1..], s, cutset);
    } else {
      assert p + s == s;
    }
  }

  /** TrimRight(s + "\n", "\n") gives back a line without newlines. */
  lemma TrimRightNewline(s: string)
    requires '\n' !in s
    ensures TrimRight(s + "\n", "\n") == s
  {
    assert (s + "\n")[..|s|] == s;
    if s != [] {
      assert s[|s| - 1] in s;
    }
  }

  /** Concatenation of a sequence of strings (what a run of writes leaves in a file). */
  function Concat(ws: seq<string>): string {
    if ws == [] then "" else ws[0] + Concat(ws[1..])
  }

  lemma {:induction false} ConcatAppend(a: seq<string>, b: seq<string>)
    ensures Concat(a + b) == Concat(a) + Concat(b)
    decreases |a|
  {
    if a == [] {
      assert a + b == b;
    } else {
      assert (a + b)[1..] == a[1..] + b;
      ConcatAppend(a[1..], b);
    }
  }

  lemma ConcatCons(a: string, ws: seq<string>)
    ensures Concat([a] + ws) == a + Concat(ws)
  {
    assert ([a] + ws)[1..] == ws;
  }

  /** A character occurs in a concatenation iff it occurs in one of the parts. */
  lemma {:induction false} ConcatHas(ws: seq<string>, c: char)
    ensures c in Concat(ws) <==> exists i :: 0 <= i < |ws| && c in ws[i]
    decreases |ws|
  {
    if ws != [] {
      ConcatHas(ws[1..], c);
      assert forall i :: 1 <= i < |ws| ==> ws[i] == ws[1..][i - 1];
    }
  }

  /** strings.Split with a one-character separator: always at least one field;
      `n` separators give `n + 1` fields, some of which may be empty. */
  function Split(s: string, sep: char): (r: seq<string>)
    ensures |r| >= 1
    ensures forall i :: 0 <= i < |r| ==> sep !in r[i]
  {
    if s == [] then [""]
    else if s[0] == sep then [""] + Split(s[1..], sep)
    else
      var rest := Split(s[1..], sep);
      [[s[0]] + rest[0]] + rest[1..]
  }

  /** Fields joined back with the separator, the inverse of Split. */
  function Join(fields: seq<string>, sep: char): string
    requires |fields| >= 1
  {
    if |fields| == 1 then fields[0] else fields[0] + [sep] + Join(fields[1..], sep)
  }

  lemma {:induction false} JoinSplit(s: string, sep: char)
    ensures Join(Split(s, sep), sep) == s
  {
    if s == [] {
    } else if s[0] == sep {
      JoinSplit(s[1..], sep);
      assert ([""] + Split(s[1..], sep))[1..] == Split(s[1..], sep);
    } else {
      JoinSplit(s[1..], sep);
      var rest := Split(s[1..], sep);
      var r := [[s[0]] + rest[0]] + rest[1..];
      if |rest| == 1 {
        assert Join(r, sep) == [s[0]] + rest[0];
      } else {
        assert r[1..] == rest[1..];
        assert Join(rest, sep) == rest[0] + [sep] + Join(rest[1..], sep);
      }
    }
  }

  lemma {:induction false} SplitJoin(fields: seq<string>, sep: char)
    requires |fields| >= 1
    requires forall i :: 0 <= i < |fields| ==> sep !in fields[i]
    ensures Split(Join(fields, sep), sep) == fields
    decreases |fields|, |fields[0]|
  {
    if |fields| == 1 {
      SplitNoSep(fields[0], sep);
    } else {
      var f := fields[0];
      if f == [] {
        assert Join(fields, sep) == [sep] + Join(fields[1..], sep);
        assert ([sep] + Join(fields[1..], sep))[1..] == Join(fields[1..], sep);
        SplitJoin(fields[1..], sep);
      } else {
        var shorter := [f[1..]] + fields[1..];
        assert shorter[1..] == fields[1..];
        assert Join(fields, sep) == [f[0]] + Join(shorter, sep);
        assert ([f[0]] + Join(shorter, sep))[1..] == Join(shorter, sep);
        SplitJoin(shorter, sep);
        assert [f[0]] + f[1..] == f;
      }
    }
  }

  /** A character that is neither the separator nor in any field is not in the joined string. */
  lemma {:induction false} JoinHasNo(fields: seq<string>, sep: char, c: char)
    requires |fields| >= 1 && c != sep
    requires forall i :: 0 <= i < |fields| ==> c !in fields[i]
    ensures c !in Join(fields, sep)
    decreases |fields|
  {
    if |fields| > 1 {
      JoinHasNo(fields[1..], sep, c);
      assert c !in fields[0];
    }
  }

  lemma {:induction false} SplitNoSep(s: string, sep: char)
    requires sep !in s
    ensures Split(s, sep) == [s]
  {
    if s != [] {
      SplitNoSep(s[1..], sep);
      assert [s[0]] + s[1..] == s;
    }
  }

  // ---------------------------------------------------------------------
  // Decimal integers: fmt's %d and strconv.Atoi

  const Int64Min: int := -0x8000_0000_0000_0000
  const Int64Max: int := 0x7fff_ffff_ffff_ffff

  predicate IsDigit(c: char) { '0' <= c <= '9' }

  predicate AllDigits(s: string) { forall i :: 0 <= i < |s| ==> IsDigit(s[i]) }

  /** The value of a string of decimal digits, most significant first. */
  function DigitsValue(s: string): (n: nat)
    requires AllDigits(s)
  {
    if s == [] then 0 else DigitsValue(s[..|s| - 1]) * 10 + (s[|s| - 1] - '0') as nat
  }

  /** The decimal digits of a natural number, without leading zeros. */
  function NatToString(n: nat): (s: string)
    ensures |s| >= 1 && AllDigits(s)
    ensures DigitsValue(s) == n
  {
    if n < 10 then ['0' + n as char]
    else
      var s := NatToString(n / 10) + ['0' + (n % 10) as char];
      assert s[..|s| - 1] == NatToString(n / 10);
      s
  }

  /** fmt's %d: an optional minus sign followed by the digits. */
  function Itoa(n: int): (s: string)
    ensures |s| >= 1
    ensures forall i :: 0 <= i < |s| ==> s[i] == '-' || IsDigit(s[i])
  {
    if n < 0 then "-" + NatToString(-n) else NatToString(n)
  }

  lemma ItoaHasNo(n: int, c: char)
    requires c != '-' && !IsDigit(c)
    ensures c !in Itoa(n)
  {
    var s := Itoa(n);
    assert forall i :: 0 <= i < |s| ==> s[i] != c;
  }

  /** strconv.Atoi: an optional sign then one or more digits, within the
      range of a 64-bit int; anything else is an error (None). */
  function Atoi(s: string): (r: Option<int>)
    ensures r.Some? ==> Int64Min <= r.value <= Int64Max
  {
    var neg := |s| > 0 && s[0] == '-';
    var digits := if |s| > 0 && (s[0] == '-' || s[0] == '+') then s[1..] else s;
    if digits == [] || !AllDigits(digits) then None
    else
      var n: int := if neg then -(DigitsValue(digits) as int) else DigitsValue(digits);
      if Int64Min <= n <= Int64Max then Some(n) else None
  }

  lemma AtoiItoa(n: int)
    requires Int64Min <= n <= Int64Max
    ensures Atoi(Itoa(n)) == Some(n)
  {
    if n < 0 {
      assert Itoa(n)[1..] == NatToString(-n);
    } else {
      var s := NatToString(n);
      assert IsDigit(s[0]);
    }
  }

  // ---------------------------------------------------------------------
  // bufio.Reader.ReadString('\n'); a reader is the text it has not read yet

  /** One ReadString('\n'): the characters up to and including the next
      newline; at the end of the text, whatever is left and `eof`. */
  datatype Read = Read(line: string, rest: string, eof: bool)

  function ReadString(s: string): (r: Read)
    ensures |r.rest| <= |s|
    ensures r.eof ==> r.rest == []
    ensures !r.eof ==> |r.rest| < |s|
  {
    if s == [] then Read("", "", true)
    else if s[0] == '\n' then Read("\n", s[1..], false)
    else
      var r := ReadString(s[1..]);
      Read([s[0]] + r.line, r.rest, r.eof)
  }

  /** A read splits the text; the line ends at its first newline, and
      without one the text has ended. */
  lemma {:induction false} ReadStringLine(s: string)
    ensures var r := ReadString(s);
      && r.line + r.rest == s
      && (r.eof <==> '\n' !in r.line)
      && (!r.eof ==> r.line[|r.line| - 1] == '\n' && '\n' !in r.line[..|r.line| - 1])
    decreases |s|
  {
    if s != [] && s[0] != '\n' {
      ReadStringLine(s[1..]);
      var r := ReadString(s[1..]);
      var line := [s[0]] + r.line;
      assert line + r.rest == [s[0]] + (r.line + r.rest);
      assert [s[0]] + s[1..] == s;
      if !r.eof {
        assert line[..|line| - 1] == [s[0]] + r.line[..|r.line| - 1];
      }
    } else if s != [] {
      assert "\n" + s[1..] == s;
    }
  }

  /** Reading a text that starts with a full line gives that line. */
  lemma {:induction false} ReadLine(line: string, rest: string)
    requires |line| >= 1 && line[|line| - 1] == '\n' && '\n' !in line[..|line| - 1]
    ensures ReadString(line + rest) == Read(line, rest, false)
    decreases |line|
  {
    var s := line + rest;
    if |line| > 1 {
      assert s[0] == line[0] && line[0] != '\n' by {
        assert line[0] in line[..|line| - 1];
      }
      assert s[1..] == line[1..] + rest;
      assert line[1..][..|line[1..]| - 1] == line[..|line| - 1][1..];
      ReadLine(line[1..], rest);
      assert [line[0]] + line[1..] == line;
    } else {
      assert line == "\n";
      assert s[1..] == rest;
    }
  }
}
