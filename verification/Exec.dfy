/** The exec backend: the bounded stderr buffer and the bounded stdout read. */
module Exec {
  import opened BoundedRead
  import opened Wrappers

  /** "...(truncated)" */
  const MARKER: Bytes := [46, 46, 46, 40, 116, 114, 117, 110, 99, 97, 116, 101, 100, 41]

  /** The marker's bytes are the ASCII text "...(truncated)". */
  lemma MarkerText()
    ensures var text := "...(truncated)";
            |MARKER| == |text| && forall i | 0 <= i < |text| :: MARKER[i] as int == text[i] as int
  {
  }

  // ---- limitedWriter --------------------------------------------------------------

  /** The buffer after one Write. */
  function Written(buf: Bytes, overflow: bool, limit: nat, p: Bytes): Bytes {
    var remaining := limit - |buf|;
    var marker := if overflow then [] else MARKER;
    if remaining <= 0 then buf + marker
    else if |p| > remaining then buf + p[..remaining] + marker
    else buf + p
  }

  predicate Overflows(buf: Bytes, limit: nat, p: Bytes) {
    |buf| >= limit || |p| > limit - |buf|
  }

  class LimitedWriter {
    var buf: Bytes
    const limit: nat
    var overflow: bool

    constructor (limit: nat)
      ensures buf == [] && !overflow && this.limit == limit
    {
      this.limit := limit;
      buf, overflow := [], false;
    }

    method Write(p: Bytes) returns (n: nat)
      modifies this
      ensures n == |p|
      ensures buf == Written(old(buf), old(overflow), limit, p)
      ensures overflow == (old(overflow) || Overflows(old(buf), limit, p))
    {
      var remaining := limit - |buf|;
      if remaining <= 0 {
        if !overflow {
          overflow := true;
          buf := buf + MARKER;
        }
        return |p|;
      }
      if |p| > remaining {
        buf := buf + p[..remaining];
        if !overflow {
          overflow := true;
          buf := buf + MARKER;
        }
        return |p|;
      }
      buf := buf + p;
      return |p|;
    }
  }

  /** The buffer and flag after a sequence of writes to a fresh writer. */
  function AfterWrites(limit: nat, ws: seq<Bytes>): (Bytes, bool) {
    if ws == [] then ([], false)
    else
      var (buf, overflow) := AfterWrites(limit, ws[..|ws| - 1]);
      var p := ws[|ws| - 1];
      (Written(buf, overflow, limit, p), overflow || Overflows(buf, limit, p))
  }

  /** The class runs the specification. */
  method WriteAll(w: LimitedWriter, ws: seq<Bytes>)
    requires w.buf == [] && !w.overflow
    modifies w
    ensures (w.buf, w.overflow) == AfterWrites(w.limit, ws)
  {
    for i := 0 to |ws|
      invariant (w.buf, w.overflow) == AfterWrites(w.limit, ws[..i])
    {
      assert ws[..i + 1][..i] == ws[..i];
      var _ := w.Write(ws[i]);
    }
    assert ws[..|ws|] == ws;
  }

  lemma {:induction false} ConcatSnoc(ws: seq<Bytes>, p: Bytes)
    ensures Concat(ws + [p]) == Concat(ws) + p
  {
    if ws == [] {
      assert [] + [p] == [p] && [p][1..] == [];
      assert Concat([p]) == p + Concat([]);
    } else {
      assert (ws + [p])[1..] == ws[1..] + [p];
      ConcatSnoc(ws[1..], p);
    }
  }

  /** Some write came when the buffer was full, or did not fit. */
  ghost predicate Truncated(limit: nat, ws: seq<Bytes>) {
    |Concat(ws)| > limit || exists i | 0 <= i < |ws| :: |Concat(ws[..i])| >= limit
  }

  /** What a buffer holds for the bytes c written so far, cut or not. */
  function Held(limit: nat, c: Bytes, cut: bool): Bytes {
    if cut then Prefix(c, limit) + MARKER else c
  }

  lemma OneWrite(limit: nat, c: Bytes, cut: bool, p: Bytes)
    requires if cut then |c| >= limit else |c| <= limit
    ensures var cut' := cut || |c| >= limit || |c + p| > limit;
            && Written(Held(limit, c, cut), cut, limit, p) == Held(limit, c + p, cut')
            && (cut || Overflows(Held(limit, c, cut), limit, p)) == cut'
  {
    if cut {
      assert Prefix(c + p, limit) == Prefix(c, limit);
      assert Prefix(c, limit) + MARKER + [] == Prefix(c, limit) + MARKER;
    } else if |c| >= limit {
      assert Prefix(c + p, limit) == c;
    } else if |c + p| > limit {
      assert Prefix(c + p, limit) == c + p[..limit - |c|];
    }
  }

  /** The exact contents after any sequence of writes, empty ones included. */
  lemma {:induction false} BufferIs(limit: nat, ws: seq<Bytes>)
    ensures AfterWrites(limit, ws) == (Held(limit, Concat(ws), Truncated(limit, ws)), Truncated(limit, ws))
    ensures Truncated(limit, ws) ==> |Concat(ws)| >= limit
    decreases |ws|
  {
    if ws != [] {
      var init, p := ws[..|ws| - 1], ws[|ws| - 1];
      BufferIs(limit, init);
      assert ws == init + [p];
      ConcatSnoc(init, p);
      TruncatedSnoc(limit, init, p);
      OneWrite(limit, Concat(init), Truncated(limit, init), p);
    }
  }

  lemma TruncatedSnoc(limit: nat, init: seq<Bytes>, p: Bytes)
    ensures Truncated(limit, init + [p]) <==>
            Truncated(limit, init) || |Concat(init)| >= limit || |Concat(init) + p| > limit
  {
    var ws := init + [p];
    ConcatSnoc(init, p);
    assert forall i | 0 <= i < |init| :: init[..i] == ws[..i];
    assert ws[..|init|] == init;
  }

  lemma {:induction false} ConcatSplit(ws: seq<Bytes>, i: nat)
    requires i <= |ws|
    ensures Concat(ws) == Concat(ws[..i]) + Concat(ws[i..])
  {
    if i > 0 {
      ConcatSplit(ws[1..], i - 1);
      assert ws[..i][1..] == ws[1..][..i - 1] && ws[i..] == ws[1..][i - 1..];
    }
  }

  /** With non-empty writes the buffer depends on the bytes written alone, not on their chunking. */
  lemma {:induction false} ChunkingDoesNotMatter(limit: nat, ws: seq<Bytes>)
    requires forall p | p in ws :: p != []
    ensures AfterWrites(limit, ws).0 ==
            if |Concat(ws)| <= limit then Concat(ws) else Prefix(Concat(ws), limit) + MARKER
    ensures |AfterWrites(limit, ws).0| <= limit + |MARKER|
  {
    BufferIs(limit, ws);
    if i :| 0 <= i < |ws| && |Concat(ws[..i])| >= limit {
      ConcatSplit(ws, i);
      assert ws[i..][0] == ws[i] && ws[i] in ws;
    }
  }

  /** An empty write to an exactly full buffer adds the marker although nothing was cut. */
  lemma EmptyWriteMarks(ws: seq<Bytes>)
    requires forall p | p in ws :: p != []
    ensures AfterWrites(|Concat(ws)|, ws).0 == Concat(ws)
    ensures AfterWrites(|Concat(ws)|, ws + [[]]).0 == Concat(ws) + MARKER && Concat(ws + [[]]) == Concat(ws)
  {
    ChunkingDoesNotMatter(|Concat(ws)|, ws);
    ConcatSnoc(ws, []);
    BufferIs(|Concat(ws)|, ws + [[]]);
    assert (ws + [[]])[..|ws|] == ws;
  }

  // ---- GetSecret --------------------------------------------------------------------

  datatype ExecError = StdoutTooLarge | StdoutFailed | TimedOut | CommandFailed

  /** How the process ended: exit status, and whether the context had expired. */
  datatype Exit = Exit(success: bool, expired: bool)

  /** GetSecret after the process was started; New guarantees a positive limit. */
  method GetSecret(stdout: Source, exit: Exit, maxStdout: int) returns (res: Result<Bytes, ExecError>)
    requires 0 < maxStdout <= MAX_INT64
    modifies stdout
    ensures stdout.closes == old(stdout.closes) + 1
    ensures maxStdout < MAX_INT64 ==>
              (res.Ok? <==> exit.success && Wanted(old(stdout.Content()), old(stdout.failure), maxStdout).Some?) &&
              (res.Ok? ==> res.value == old(stdout.Content()))
    ensures maxStdout < MAX_INT64 && |old(stdout.Content())| > maxStdout ==> res == Err(StdoutTooLarge)
    ensures maxStdout < MAX_INT64 && |old(stdout.Content())| <= maxStdout ==>
              res == if old(stdout.failure).Some? then Err(StdoutFailed)
                     else if exit.success then Ok(old(stdout.Content()))
                     else if exit.expired then Err(TimedOut) else Err(CommandFailed)
    ensures maxStdout == MAX_INT64 && exit.success ==> res == Ok([])
    ensures maxStdout == MAX_INT64 && !exit.success ==> res == Err(if exit.expired then TimedOut else CommandFailed)
  {
    var out, copyErr := ReadAllLimited(stdout, Add64(maxStdout, 1));
    stdout.Close();
    if |out| > maxStdout {
      return Err(StdoutTooLarge);
    }
    if copyErr.Some? {
      return Err(StdoutFailed);
    }
    if !exit.success {
      return Err(if exit.expired then TimedOut else CommandFailed);
    }
    return Ok(out);
  }
}
