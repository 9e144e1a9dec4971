/**
 ReadWithContext's two goroutines: the reader that sends its result into a
 channel with room for one, and the caller that selects between that result
 and cancellation. Every interleaving is covered.
 */
module ReadProtocol {
  import opened BoundedRead
  import opened Wrappers

  type ReadResult = Result<Bytes, ReadError>

  datatype Reader = Reading | Sending(res: ReadResult) | Finished

  datatype Outcome = Cancelled | FromRead(res: ReadResult)

  /**
   The caller. CancelSeen and ResultSeen have left the select and are about to
   close the reader; Draining waits for the reader's result after that.
   */
  datatype Caller = Selecting | CancelSeen | Draining | ResultSeen(res: ReadResult) | Returned(outcome: Outcome)

  /** `produced` is history: what the read came to. */
  datatype State = State(
    reader: Reader, caller: Caller, channel: Option<ReadResult>, cancelled: bool, closes: nat,
    produced: Option<ReadResult>)

  predicate Init(s: State) {
    s == State(Reading, Selecting, None, false, 0, None)
  }

  predicate Cancel(s: State, t: State) {
    !s.cancelled && t == s.(cancelled := true)
  }

  /** The read ends, by itself or because the reader was closed under it, with any result. */
  ghost predicate EndRead(s: State, t: State) {
    s.reader == Reading && exists r :: t == s.(reader := Sending(r), produced := Some(r))
  }

  /** A send on a full channel would block. */
  predicate Send(s: State, t: State) {
    s.reader.Sending? && s.channel.None? && t == s.(reader := Finished, channel := Some(s.reader.res))
  }

  predicate SelectCancel(s: State, t: State) {
    s.caller == Selecting && s.cancelled && t == s.(caller := CancelSeen)
  }

  predicate SelectResult(s: State, t: State) {
    s.caller == Selecting && s.channel.Some? && t == s.(caller := ResultSeen(s.channel.value), channel := None)
  }

  predicate CloseOnCancel(s: State, t: State) {
    s.caller == CancelSeen && t == s.(caller := Draining, closes := s.closes + 1)
  }

  predicate Drain(s: State, t: State) {
    s.caller == Draining && s.channel.Some? && t == s.(caller := Returned(Cancelled), channel := None)
  }

  predicate CloseOnResult(s: State, t: State) {
    s.caller.ResultSeen? && t == s.(caller := Returned(FromRead(s.caller.res)), closes := s.closes + 1)
  }

  ghost predicate ProgramStep(s: State, t: State) {
    || EndRead(s, t) || Send(s, t) || SelectCancel(s, t) || SelectResult(s, t)
    || CloseOnCancel(s, t) || Drain(s, t) || CloseOnResult(s, t)
  }

  ghost predicate Step(s: State, t: State) {
    Cancel(s, t) || ProgramStep(s, t)
  }

  ghost predicate IsRun(run: seq<State>) {
    |run| > 0 && Init(run[0]) && forall i | 0 < i < |run| :: Step(run[i - 1], run[i])
  }

  predicate Inv(s: State) {
    && s.closes == (if s.caller == Draining || s.caller.Returned? then 1 else 0)
    && (s.reader == Reading <==> s.produced.None?)
    && (s.reader.Sending? ==> s.produced == Some(s.reader.res))
    && (s.channel.Some? ==> s.reader == Finished && s.channel == s.produced)
    && (s.reader != Finished ==>
          s.channel.None? && (s.caller == Selecting || s.caller == CancelSeen || s.caller == Draining))
    && (s.caller.ResultSeen? ==> s.channel.None? && Some(s.caller.res) == s.produced)
    && (s.reader == Finished && s.channel.None? ==> s.caller.ResultSeen? || s.caller.Returned?)
    && (s.caller == CancelSeen || s.caller == Draining ==> s.cancelled)
    && (s.caller.Returned? ==>
          && s.reader == Finished && s.channel.None?
          && match s.caller.outcome
             case Cancelled => s.cancelled
             case FromRead(r) => s.produced == Some(r))
  }

  lemma {:induction false} Reachable(run: seq<State>, k: nat)
    requires IsRun(run) && k < |run|
    ensures Inv(run[k])
  {
    if k > 0 {
      Reachable(run, k - 1);
    }
  }

  /**
   When the call returns, the reader was closed exactly once, the goroutine
   has sent its result and gone, nothing is left in the channel, and the
   outcome is the read's own result or a cancellation that really happened.
   */
  lemma ReturnsCleanly(run: seq<State>, k: nat)
    requires IsRun(run) && k < |run| && run[k].caller.Returned?
    ensures run[k].closes == 1 && run[k].reader == Finished && run[k].channel.None?
    ensures match run[k].caller.outcome
            case Cancelled => run[k].cancelled
            case FromRead(r) => run[k].produced == Some(r)
  {
    Reachable(run, k);
  }

  /** At no point is the reader closed twice, and the goroutine's send never blocks. */
  lemma SendNeverBlocks(run: seq<State>, k: nat)
    requires IsRun(run) && k < |run|
    ensures run[k].closes <= 1
    ensures run[k].reader.Sending? ==> Send(run[k], run[k].(reader := Finished, channel := Some(run[k].reader.res)))
  {
    Reachable(run, k);
  }

  function Measure(s: State): nat {
    (match s.reader case Reading => 2 case Sending(_) => 1 case Finished => 0) +
    (match s.caller
     case Selecting => 3 case CancelSeen => 2 case Draining => 1 case ResultSeen(_) => 1 case Returned(_) => 0) +
    (if s.cancelled then 0 else 1)
  }

  lemma {:induction false} MeasureAlong(run: seq<State>, k: nat)
    requires IsRun(run) && k < |run|
    ensures Measure(run[k]) + k <= 6
  {
    if k > 0 {
      MeasureAlong(run, k - 1);
      assert Step(run[k - 1], run[k]);
    }
  }

  ghost predicate Stuck(s: State) {
    forall t :: !ProgramStep(s, t)
  }

  /** Every run has at most six steps, and one that cannot go on has returned. */
  lemma Terminates(run: seq<State>)
    requires IsRun(run)
    ensures |run| <= 7
    ensures Stuck(run[|run| - 1]) ==> run[|run| - 1].caller.Returned?
  {
    MeasureAlong(run, |run| - 1);
    Reachable(run, |run| - 1);
    var s := run[|run| - 1];
    if !s.caller.Returned? {
      var t := if s.reader == Reading then s.(reader := Sending(Ok([])), produced := Some(Ok([])))
               else if s.reader.Sending? then s.(reader := Finished, channel := Some(s.reader.res))
               else if s.caller == CancelSeen then s.(caller := Draining, closes := s.closes + 1)
               else if s.caller.ResultSeen? then s.(caller := Returned(FromRead(s.caller.res)), closes := s.closes + 1)
               else if s.caller == Draining then s.(caller := Returned(Cancelled), channel := None)
               else s.(caller := ResultSeen(s.channel.value), channel := None);
      assert ProgramStep(s, t);
    }
  }

  /** The environment is free: the context may end at any time, and the read with any result. */
  lemma AnythingMayHappen(s: State, r: ReadResult)
    ensures !s.cancelled ==> Step(s, s.(cancelled := true))
    ensures s.reader == Reading ==> Step(s, s.(reader := Sending(r), produced := Some(r)))
  {
    if !s.cancelled {
      assert Cancel(s, s.(cancelled := true));
    }
    if s.reader == Reading {
      assert EndRead(s, s.(reader := Sending(r), produced := Some(r)));
    }
  }
}
