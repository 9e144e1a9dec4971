/**
 First-error shutdown in keeper.Serve and the webhook's run: any number of
 server goroutines, one mutex, a channel with room for one message, and the
 main goroutine that waits for all of them.
 */
module Shutdown {
  import opened Wrappers

  type Error = string

  /**
   A server goroutine: serving, about to report, then through notifyErr's
   critical section (entered, sending on errCh, about to unlock), or returned.
   */
  datatype Server = Serving | Failing(err: Error) | Locked(err: Error) | Sending | Unlocking | Exited

  /** The main goroutine; Noticed has received from errCh and is about to call getErr. */
  datatype Main = Selecting | Noticed | Closing | Joining | Returned(result: Option<Error>)

  /** `reports` and `sent` are history: the errors in the order notifyErr saw them, and all sends so far. */
  datatype State = State(
    servers: seq<Server>, mutex: Option<nat>, firstErr: Option<Error>, errCh: nat,
    signalled: bool, closing: bool, shutdownErr: Option<Error>, main: Main,
    reports: seq<Error>, sent: nat)

  predicate AllAre(s: State, v: Server) {
    forall i | 0 <= i < |s.servers| :: s.servers[i] == v
  }

  predicate Init(s: State) {
    && AllAre(s, Serving)
    && s.mutex == None && s.firstErr == None && s.errCh == 0 && !s.signalled && !s.closing
    && s.shutdownErr == None && s.main == Selecting && s.reports == [] && s.sent == 0
  }

  function With(s: State, i: nat, v: Server): State
    requires i < |s.servers|
  {
    s.(servers := s.servers[i := v])
  }

  // ---- Steps of the environment -----------------------------------------------------

  predicate Signal(s: State, t: State) {
    !s.signalled && t == s.(signalled := true)
  }

  /** ServeTLS or ListenAndServe returns an error other than ErrServerClosed, at any time. */
  predicate Fail(s: State, t: State, i: nat, err: Error) {
    i < |s.servers| && s.servers[i] == Serving && t == With(s, i, Failing(err))
  }

  // ---- Steps of the program ------------------------------------------------------------

  /** After Shutdown was called a server returns ErrServerClosed and reports nothing. */
  predicate StopServing(s: State, t: State, i: nat) {
    i < |s.servers| && s.servers[i] == Serving && s.closing && t == With(s, i, Exited)
  }

  predicate Lock(s: State, t: State, i: nat) {
    && i < |s.servers| && s.servers[i].Failing? && s.mutex == None
    && t == With(s, i, Locked(s.servers[i].err)).(mutex := Some(i))
  }

  predicate Report(s: State, t: State, i: nat) {
    && i < |s.servers| && s.servers[i].Locked?
    && var err := s.servers[i].err;
       t == if s.firstErr == None
            then With(s, i, Sending).(firstErr := Some(err), reports := s.reports + [err])
            else With(s, i, Unlocking).(reports := s.reports + [err])
  }

  /** errCh has room for one message; a send on a full channel would block with the mutex held. */
  predicate Send(s: State, t: State, i: nat) {
    && i < |s.servers| && s.servers[i] == Sending && s.errCh < 1
    && t == With(s, i, Unlocking).(errCh := s.errCh + 1, sent := s.sent + 1)
  }

  predicate Unlock(s: State, t: State, i: nat) {
    i < |s.servers| && s.servers[i] == Unlocking && t == With(s, i, Exited).(mutex := None)
  }

  predicate ServerStep(s: State, t: State, i: nat) {
    StopServing(s, t, i) || Lock(s, t, i) || Report(s, t, i) || Send(s, t, i) || Unlock(s, t, i)
  }

  predicate TakeSignal(s: State, t: State) {
    s.main == Selecting && s.signalled && t == s.(main := Closing)
  }

  predicate TakeError(s: State, t: State) {
    s.main == Selecting && s.errCh > 0 && t == s.(main := Noticed, errCh := s.errCh - 1)
  }

  /** getErr for the log line, then cancel(). */
  predicate LogError(s: State, t: State) {
    s.main == Noticed && s.mutex == None && t == s.(main := Closing)
  }

  ghost predicate CallShutdown(s: State, t: State) {
    s.main == Closing && exists e :: t == s.(main := Joining, closing := true, shutdownErr := e)
  }

  /** wg.Wait() has returned; getErr; return. */
  predicate Return(s: State, t: State) {
    && s.main == Joining && AllAre(s, Exited) && s.mutex == None
    && t == s.(main := Returned(if s.firstErr.Some? then s.firstErr else s.shutdownErr))
  }

  ghost predicate MainStep(s: State, t: State) {
    TakeSignal(s, t) || TakeError(s, t) || LogError(s, t) || CallShutdown(s, t) || Return(s, t)
  }

  ghost predicate ProgramStep(s: State, t: State) {
    MainStep(s, t) || exists i: nat :: ServerStep(s, t, i)
  }

  ghost predicate Step(s: State, t: State) {
    Signal(s, t) || (exists i: nat, err :: Fail(s, t, i, err)) || ProgramStep(s, t)
  }

  ghost predicate IsRun(run: seq<State>) {
    |run| > 0 && Init(run[0]) && forall i | 0 < i < |run| :: Step(run[i - 1], run[i])
  }

  // ---- Safety ----------------------------------------------------------------------------

  predicate InCritical(v: Server) {
    v.Locked? || v == Sending || v == Unlocking
  }

  ghost predicate Inv(s: State) {
    && (s.mutex.Some? ==> s.mutex.value < |s.servers| && InCritical(s.servers[s.mutex.value]))
    && (forall i | 0 <= i < |s.servers| && InCritical(s.servers[i]) :: s.mutex == Some(i))
    && s.firstErr == (if s.reports == [] then None else Some(s.reports[0]))
    && s.errCh <= s.sent <= 1
    && (forall i | 0 <= i < |s.servers| && s.servers[i] == Sending :: s.firstErr.Some? && s.sent == 0)
    && (forall i | 0 <= i < |s.servers| && s.servers[i] == Unlocking :: s.firstErr.Some?)
    && ((forall i | 0 <= i < |s.servers| :: s.servers[i] != Sending) ==> s.sent == if s.firstErr.Some? then 1 else 0)
    && (s.main == Selecting ==> s.errCh == s.sent)
    && (s.main == Noticed ==> s.sent == 1)
    && (s.closing <==> s.main == Joining || s.main.Returned?)
    && (!s.closing ==> forall i | 0 <= i < |s.servers| :: s.servers[i] == Exited ==> s.firstErr.Some?)
    && (s.main.Returned? ==>
          && AllAre(s, Exited)
          && s.main.result == if s.firstErr.Some? then s.firstErr else s.shutdownErr)
  }

  /** Reporting and sending, the steps inside the critical section. */
  lemma CriticalStepKeepsInv(s: State, t: State, i: nat)
    requires Inv(s) && (Report(s, t, i) || Send(s, t, i))
    ensures Inv(t)
  {
  }

  lemma OuterStepKeepsInv(s: State, t: State, i: nat)
    requires Inv(s) && (StopServing(s, t, i) || Lock(s, t, i) || Unlock(s, t, i) || exists err :: Fail(s, t, i, err))
    ensures Inv(t)
  {
  }

  lemma StepKeepsInv(s: State, t: State)
    requires Inv(s) && Step(s, t)
    ensures Inv(t)
  {
    if i: nat, err :| Fail(s, t, i, err) {
      OuterStepKeepsInv(s, t, i);
    } else if i: nat :| ServerStep(s, t, i) {
      if Report(s, t, i) || Send(s, t, i) {
        CriticalStepKeepsInv(s, t, i);
      } else {
        OuterStepKeepsInv(s, t, i);
      }
    } else {
      assert Signal(s, t) || MainStep(s, t);
    }
  }

  lemma {:induction false} Reachable(run: seq<State>, k: nat)
    requires IsRun(run) && k < |run|
    ensures Inv(run[k])
  {
    if k > 0 {
      Reachable(run, k - 1);
      StepKeepsInv(run[k - 1], run[k]);
    }
  }

  /** errCh gets at most one message ever, and the send under the mutex always finds it empty. */
  lemma SendNeverBlocks(run: seq<State>, k: nat)
    requires IsRun(run) && k < |run|
    ensures run[k].sent <= 1
    ensures forall i | 0 <= i < |run[k].servers| && run[k].servers[i] == Sending ::
              Send(run[k], With(run[k], i, Unlocking).(errCh := 1, sent := 1), i)
  {
    Reachable(run, k);
  }

  /**
   What is returned is the first error any server reported in the whole run,
   also one reported after the shutdown began; without one, Shutdown's own.
   */
  lemma ReturnsFirstReport(run: seq<State>, k: nat)
    requires IsRun(run) && k < |run| && run[k].main.Returned?
    ensures run[k].main.result == if run[k].reports != [] then Some(run[k].reports[0]) else run[k].shutdownErr
    ensures AllAre(run[k], Exited)
  {
    Reachable(run, k);
  }

  /** The webhook's run only looks at getErr: exit code 1 exactly when some server reported an error. */
  function WebhookExitCode(s: State): int {
    if s.firstErr.Some? then 1 else 0
  }

  lemma WebhookExitsNonZeroIff(run: seq<State>, k: nat)
    requires IsRun(run) && k < |run|
    ensures WebhookExitCode(run[k]) == 1 <==> run[k].reports != []
  {
    Reachable(run, k);
  }

  // ---- Every run ends, and ends in Returned -----------------------------------------

  function ServerWeight(v: Server): nat {
    match v
    case Serving => 5 case Failing(_) => 4 case Locked(_) => 3 case Sending => 2 case Unlocking => 1 case Exited => 0
  }

  function Weight(servers: seq<Server>): nat {
    if servers == [] then 0 else ServerWeight(servers[0]) + Weight(servers[1..])
  }

  function Measure(s: State): nat {
    Weight(s.servers) +
    (match s.main case Selecting => 4 case Noticed => 3 case Closing => 2 case Joining => 1 case Returned(_) => 0) +
    (if s.signalled then 0 else 1)
  }

  lemma {:induction false} WeightUpdate(servers: seq<Server>, i: nat, v: Server)
    requires i < |servers|
    ensures Weight(servers[i := v]) == Weight(servers) - ServerWeight(servers[i]) + ServerWeight(v)
  {
    if i == 0 {
      assert servers[i := v][1..] == servers[1..];
    } else {
      assert servers[i := v][1..] == servers[1..][i - 1 := v];
      WeightUpdate(servers[1..], i - 1, v);
    }
  }

  lemma ServerStepDecreases(s: State, t: State, i: nat)
    requires ServerStep(s, t, i) || exists err :: Fail(s, t, i, err)
    ensures Measure(t) < Measure(s)
  {
    LighterServer(s, t, i);
    WeightUpdate(s.servers, i, t.servers[i]);
  }

  lemma LighterServer(s: State, t: State, i: nat)
    requires ServerStep(s, t, i) || exists err :: Fail(s, t, i, err)
    ensures i < |s.servers| == |t.servers| && t.servers == s.servers[i := t.servers[i]]
    ensures ServerWeight(t.servers[i]) < ServerWeight(s.servers[i])
    ensures t.main == s.main && t.signalled == s.signalled
  {
  }

  lemma MainStepDecreases(s: State, t: State)
    requires Signal(s, t) || MainStep(s, t)
    ensures Measure(t) < Measure(s)
  {
  }

  lemma StepDecreases(s: State, t: State)
    requires Step(s, t)
    ensures Measure(t) < Measure(s)
  {
    if i: nat, err :| Fail(s, t, i, err) {
      ServerStepDecreases(s, t, i);
    } else if i: nat :| ServerStep(s, t, i) {
      ServerStepDecreases(s, t, i);
    } else {
      MainStepDecreases(s, t);
    }
  }

  lemma {:induction false} InitWeight(servers: seq<Server>)
    requires forall i | 0 <= i < |servers| :: servers[i] == Serving
    ensures Weight(servers) == 5 * |servers|
  {
    if servers != [] {
      InitWeight(servers[1..]);
    }
  }

  lemma {:induction false} MeasureAlong(run: seq<State>, k: nat)
    requires IsRun(run) && k < |run|
    ensures Measure(run[k]) + k <= Measure(run[0])
  {
    if k > 0 {
      StepDecreases(run[k - 1], run[k]);
      MeasureAlong(run, k - 1);
    }
  }

  /** No run is longer than five steps for each server and a few for the main goroutine. */
  lemma RunsAreBounded(run: seq<State>)
    requires IsRun(run)
    ensures |run| <= 5 * |run[0].servers| + 6
  {
    MeasureAlong(run, |run| - 1);
    InitWeight(run[0].servers);
  }

  ghost predicate Stuck(s: State) {
    forall t :: !ProgramStep(s, t)
  }

  /** The program has a step as long as it has not returned, once a signal came or a server stopped serving. */
  lemma Progress(run: seq<State>, k: nat)
    requires IsRun(run) && k < |run| && !run[k].main.Returned?
    requires run[k].signalled || !AllAre(run[k], Serving)
    ensures !Stuck(run[k])
  {
    Reachable(run, k);
    var s := run[k];
    if s.mutex.Some? {
      var i := s.mutex.value;
      CriticalMoves(s, i);
    } else if i :| 0 <= i < |s.servers| && s.servers[i].Failing? {
      var t := With(s, i, Locked(s.servers[i].err)).(mutex := Some(i));
      assert ServerStep(s, t, i);
      assert ProgramStep(s, t);
    } else {
      MainMoves(s);
    }
  }

  lemma CriticalMoves(s: State, i: nat)
    requires Inv(s) && i < |s.servers| && InCritical(s.servers[i])
    ensures !Stuck(s)
  {
    var v := s.servers[i];
    var t := if v == Unlocking then With(s, i, Exited).(mutex := None)
             else if v == Sending then With(s, i, Unlocking).(errCh := s.errCh + 1, sent := s.sent + 1)
             else if s.firstErr == None
             then With(s, i, Sending).(firstErr := Some(v.err), reports := s.reports + [v.err])
             else With(s, i, Unlocking).(reports := s.reports + [v.err]);
    assert ServerStep(s, t, i);
    assert ProgramStep(s, t);
  }

  lemma MainMoves(s: State)
    requires Inv(s) && s.mutex.None? && !s.main.Returned? && (s.signalled || !AllAre(s, Serving))
    requires forall i | 0 <= i < |s.servers| :: !s.servers[i].Failing?
    ensures !Stuck(s)
  {
    if i :| 0 <= i < |s.servers| && s.servers[i] == Serving && s.closing {
      assert ServerStep(s, With(s, i, Exited), i);
      assert ProgramStep(s, With(s, i, Exited));
    } else {
      var t := if s.main == Selecting
               then (if s.signalled then s.(main := Closing) else s.(main := Noticed, errCh := 0))
               else if s.main == Noticed then s.(main := Closing)
               else if s.main == Closing then s.(main := Joining, closing := true, shutdownErr := None)
               else s.(main := Returned(if s.firstErr.Some? then s.firstErr else s.shutdownErr));
      assert s.main == Closing ==> CallShutdown(s, t);
      assert MainStep(s, t);
      assert ProgramStep(s, t);
    }
  }

  /**
   Every run that got a signal or lost a server, and that the program cannot
   continue, has returned.
   */
  lemma StuckMeansReturned(run: seq<State>)
    requires IsRun(run)
    requires var s := run[|run| - 1]; s.signalled || !AllAre(s, Serving)
    requires Stuck(run[|run| - 1])
    ensures run[|run| - 1].main.Returned?
  {
    if !run[|run| - 1].main.Returned? {
      Progress(run, |run| - 1);
    }
  }

  /** The environment is free: a serving server may fail with any error, and the signal may come at any time. */
  lemma AnythingMayHappen(s: State, i: nat, err: Error)
    ensures i < |s.servers| && s.servers[i] == Serving ==> Step(s, With(s, i, Failing(err)))
    ensures !s.signalled ==> Step(s, s.(signalled := true))
  {
    if i < |s.servers| && s.servers[i] == Serving {
      assert Fail(s, With(s, i, Failing(err)), i, err);
    }
    if !s.signalled {
      assert Signal(s, s.(signalled := true));
    }
  }
}
