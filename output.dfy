/**
  The files the profiler writes. Every write in the source is a
  `fd.WriteString(...)` whose error makes the caller return at once, so a
  file holds the writes made before the first failure. A Writer models one
  open file: `written` is the sequence of strings written so far and
  `capacity` how many writes the file accepts before writes start failing
  (a full disk, a closed descriptor).
 */
module Output {
  import opened GoText

  class Writer {
    var written: seq<string>
    const capacity: nat

    constructor (capacity: nat)
      ensures written == [] && this.capacity == capacity
    {
      written := [];
      this.capacity := capacity;
    }

    /** fd.WriteString: appends `s`, or fails and leaves the file as it was. */
    method WriteString(s: string) returns (failed: bool)
      modifies this
      ensures failed <==> |old(written)| >= capacity
      ensures written == if failed then old(written) else old(written) + [s]
    {
      failed := |written| >= capacity;
      if !failed {
        written := written + [s];
      }
    }

    /** The file's text. */
    function Text(): string
      reads this
    {
      Concat(written)
    }
  }

  /** How many more writes a file that already holds `w` accepts. */
  function Room(w: seq<string>, capacity: nat): nat {
    if |w| < capacity then capacity - |w| else 0
  }

  /** Writing `ws` one after the other, stopping at the first failure. */
  predicate Fails(w: seq<string>, ws: seq<string>, capacity: nat) {
    |ws| > Room(w, capacity)
  }

  function Emitted(w: seq<string>, ws: seq<string>, capacity: nat): seq<string> {
    if Fails(w, ws, capacity) then w + ws[..Room(w, capacity)] else w + ws
  }

  /** A run writes a prefix of its strings, all of them exactly when it
      does not fail. */
  lemma EmittedPrefix(w: seq<string>, ws: seq<string>, capacity: nat)
    ensures Fails(w, ws, capacity) <==> Emitted(w, ws, capacity) != w + ws
    ensures exists k :: 0 <= k <= |ws| && Emitted(w, ws, capacity) == w + ws[..k]
  {
    if Fails(w, ws, capacity) {
      assert |Emitted(w, ws, capacity)| < |w + ws|;
    } else {
      assert ws[..|ws|] == ws;
    }
  }

  /** Two runs of writes, the second only if the first succeeded, write
      exactly what one run of both would have written. */
  lemma EmittedAppend(w: seq<string>, a: seq<string>, b: seq<string>, capacity: nat)
    requires !Fails(w, a, capacity)
    ensures Emitted(Emitted(w, a, capacity), b, capacity) == Emitted(w, a + b, capacity)
    ensures Fails(Emitted(w, a, capacity), b, capacity) == Fails(w, a + b, capacity)
  {
    var w' := w + a;
    assert Emitted(w, a, capacity) == w';
    if Fails(w', b, capacity) {
      assert w' + b[..Room(w', capacity)] == w + (a + b)[..Room(w, capacity)];
    }
  }

  /** A failing run stops everything written after it. */
  lemma FailedRunStops(w: seq<string>, a: seq<string>, b: seq<string>, capacity: nat)
    requires Fails(w, a, capacity)
    ensures Emitted(w, a + b, capacity) == Emitted(w, a, capacity)
    ensures Fails(w, a + b, capacity)
  {
    assert (a + b)[..Room(w, capacity)] == a[..Room(w, capacity)];
  }

  /** One write followed by the rest of a run: a full file stops the run
      where it is, otherwise the rest is written after `s`. */
  lemma WriteStep(w: seq<string>, s: string, rest: seq<string>, capacity: nat)
    ensures |w| >= capacity ==>
      Emitted(w, [s] + rest, capacity) == w && Fails(w, [s] + rest, capacity)
    ensures |w| < capacity ==>
      Emitted(w + [s], rest, capacity) == Emitted(w, [s] + rest, capacity) &&
      Fails(w + [s], rest, capacity) == Fails(w, [s] + rest, capacity)
  {
    if |w| < capacity {
      assert !Fails(w, [s], capacity);
      EmittedAppend(w, [s], rest, capacity);
    } else {
      assert ([s] + rest)[..0] == [];
    }
  }

  /** A run of writes `a` followed by the rest: if `a` fails, nothing after
      it is written; otherwise the rest continues from the file holding `a`. */
  lemma RunStep(w: seq<string>, a: seq<string>, rest: seq<string>, capacity: nat)
    ensures Fails(w, a, capacity) ==>
      Emitted(w, a + rest, capacity) == Emitted(w, a, capacity) && Fails(w, a + rest, capacity)
    ensures !Fails(w, a, capacity) ==>
      Emitted(w + a, rest, capacity) == Emitted(w, a + rest, capacity) &&
      Fails(w + a, rest, capacity) == Fails(w, a + rest, capacity)
  {
    if Fails(w, a, capacity) {
      FailedRunStops(w, a, rest, capacity);
    } else {
      EmittedAppend(w, a, rest, capacity);
    }
  }

  /** Whether a file holding `w`, with the run `todo` still to write, ends
      as a file holding `w0` would after the whole run `spec`. */
  ghost predicate Continues(w: seq<string>, todo: seq<string>, w0: seq<string>, spec: seq<string>, capacity: nat) {
    Emitted(w, todo, capacity) == Emitted(w0, spec, capacity) &&
    Fails(w, todo, capacity) == Fails(w0, spec, capacity)
  }

  /** The next write of a run: on failure the file is final, otherwise the
      rest of the run is still to come. */
  method WriteNext(f: Writer, s: string, ghost rest: seq<string>, ghost w0: seq<string>, ghost spec: seq<string>)
    returns (failed: bool)
    requires Continues(f.written, [s] + rest, w0, spec, f.capacity)
    modifies f
    ensures failed ==> f.written == Emitted(w0, spec, f.capacity) && Fails(w0, spec, f.capacity)
    ensures !failed ==> Continues(f.written, rest, w0, spec, f.capacity)
  {
    WriteStep(f.written, s, rest, f.capacity);
    failed := f.WriteString(s);
  }

  /** A run that has nothing left to write is final. */
  lemma Finished(w: seq<string>, w0: seq<string>, spec: seq<string>, capacity: nat)
    requires Continues(w, [], w0, spec, capacity)
    ensures w == Emitted(w0, spec, capacity) && !Fails(w0, spec, capacity)
  {
  }

  /** Splitting the remaining run in two: what the first part leaves, the
      second continues. */
  lemma ContinueRun(w: seq<string>, a: seq<string>, rest: seq<string>, w0: seq<string>, spec: seq<string>, capacity: nat)
    requires Continues(w, a + rest, w0, spec, capacity)
    ensures Fails(w, a, capacity) ==>
      Emitted(w, a, capacity) == Emitted(w0, spec, capacity) && Fails(w0, spec, capacity)
    ensures !Fails(w, a, capacity) ==> Continues(Emitted(w, a, capacity), rest, w0, spec, capacity)
  {
    RunStep(w, a, rest, capacity);
  }

  /** A sequence of `WriteString` calls, each followed by `if err != nil { return err }`. */
  method WriteAll(f: Writer, ws: seq<string>) returns (failed: bool)
    modifies f
    ensures f.written == Emitted(old(f.written), ws, f.capacity)
    ensures failed == Fails(old(f.written), ws, f.capacity)
  {
    var i := 0;
    failed := false;
    while i < |ws|
      invariant 0 <= i <= |ws|
      invariant f.written == old(f.written) + ws[..i]
      invariant i <= Room(old(f.written), f.capacity)
    {
      failed := f.WriteString(ws[i]);
      if failed {
        return;
      }
      assert ws[..i + 1] == ws[..i] + [ws[i]];
      i := i + 1;
    }
    assert ws[..i] == ws;
  }
}
