/**
 The concurrency limit of both HTTP handlers: a buffered channel as a
 semaphore and a gauge beside it, over every interleaving of any number of
 requests.
 */
module Semaphore {

  /** Where a request's goroutine is. Acquired and Released are between the channel and the gauge operation. */
  datatype Phase = Waiting | Acquired | Inside | Released | Done | TimedOut

  datatype State = State(capacity: nat, channel: nat, gauge: int, timeouts: nat, requests: seq<Phase>)

  function Count(s: State, p: Phase): nat {
    multiset(s.requests)[p]
  }

  predicate Init(s: State) {
    s.channel == 0 && s.gauge == 0 && s.timeouts == 0 && s.requests == []
  }

  // ---- Steps -------------------------------------------------------------------

  predicate Arrive(s: State, t: State) {
    t == s.(requests := s.requests + [Waiting])
  }

  /** `sem <- struct{}{}` wins the select. */
  predicate Acquire(s: State, t: State, i: nat) {
    && i < |s.requests| && s.requests[i] == Waiting && s.channel < s.capacity
    && t == s.(channel := s.channel + 1, requests := s.requests[i := Acquired])
  }

  /** `<-r.Context().Done()` wins the select. */
  predicate TimeOut(s: State, t: State, i: nat) {
    && i < |s.requests| && s.requests[i] == Waiting
    && t == s.(timeouts := s.timeouts + 1, requests := s.requests[i := TimedOut])
  }

  predicate GaugeInc(s: State, t: State, i: nat) {
    && i < |s.requests| && s.requests[i] == Acquired
    && t == s.(gauge := s.gauge + 1, requests := s.requests[i := Inside])
  }

  /** `<-sem` in the deferred function; it would block on an empty channel. */
  predicate Release(s: State, t: State, i: nat) {
    && i < |s.requests| && s.requests[i] == Inside && s.channel > 0
    && t == s.(channel := s.channel - 1, requests := s.requests[i := Released])
  }

  predicate GaugeDec(s: State, t: State, i: nat) {
    && i < |s.requests| && s.requests[i] == Released
    && t == s.(gauge := s.gauge - 1, requests := s.requests[i := Done])
  }

  predicate RequestStep(s: State, t: State, i: nat) {
    Acquire(s, t, i) || TimeOut(s, t, i) || GaugeInc(s, t, i) || Release(s, t, i) || GaugeDec(s, t, i)
  }

  ghost predicate Step(s: State, t: State) {
    Arrive(s, t) || exists i: nat :: RequestStep(s, t, i)
  }

  ghost predicate IsRun(run: seq<State>) {
    |run| > 0 && Init(run[0]) && forall i | 0 < i < |run| :: Step(run[i - 1], run[i])
  }

  // ---- Safety --------------------------------------------------------------------

  predicate Inv(s: State) {
    && s.channel == Count(s, Acquired) + Count(s, Inside)
    && s.channel <= s.capacity
    && s.gauge == Count(s, Inside) + Count(s, Released)
    && s.timeouts == Count(s, TimedOut)
  }

  /** One request changing phase moves one unit between two counts. */
  lemma Moved(rs: seq<Phase>, i: nat, v: Phase)
    requires i < |rs|
    ensures multiset(rs)[rs[i]] > 0
    ensures forall p :: multiset(rs[i := v])[p] ==
                        multiset(rs)[p] - (if p == rs[i] then 1 else 0) + (if p == v then 1 else 0)
  {
    assert rs[i] in multiset(rs);
    assert rs == rs[..i] + [rs[i]] + rs[i + 1..];
    assert rs[i := v] == rs[..i] + [v] + rs[i + 1..];
  }

  lemma RequestStepKeepsInv(s: State, t: State, i: nat, v: Phase)
    requires Inv(s) && i < |s.requests| && RequestStep(s, t, i) && t.requests == s.requests[i := v]
    ensures Inv(t) && t.capacity == s.capacity
  {
    Moved(s.requests, i, v);
    assert t.requests[i] == v;
  }

  lemma StepKeepsInv(s: State, t: State)
    requires Inv(s) && Step(s, t)
    ensures Inv(t) && t.capacity == s.capacity
  {
    if !Arrive(s, t) {
      var i: nat :| RequestStep(s, t, i);
      RequestStepKeepsInv(s, t, i, t.requests[i]);
    }
  }

  /** In every reachable state: holders are exactly the channel's length and within capacity. */
  lemma {:induction false} Safety(run: seq<State>, k: nat)
    requires IsRun(run) && k < |run|
    ensures Inv(run[k]) && run[k].capacity == run[0].capacity
  {
    if k > 0 {
      Safety(run, k - 1);
      StepKeepsInv(run[k - 1], run[k]);
    }
  }

  /** The gauge is the channel's length up to the requests between their two operations; releases never block. */
  lemma GaugeAccount(run: seq<State>, k: nat)
    requires IsRun(run) && k < |run|
    ensures run[k].gauge == run[k].channel - Count(run[k], Acquired) + Count(run[k], Released)
    ensures 0 <= run[k].gauge <= run[k].capacity + Count(run[k], Released)
    ensures forall i | 0 <= i < |run[k].requests| && run[k].requests[i] == Inside :: run[k].channel > 0
  {
    Safety(run, k);
    forall i | 0 <= i < |run[k].requests| && run[k].requests[i] == Inside ensures run[k].channel > 0 {
      assert run[k].requests[i] in multiset(run[k].requests);
    }
  }

  predicate Quiescent(s: State) {
    forall p | p in s.requests :: p == Waiting || p == Done || p == TimedOut
  }

  /** With no request between acquiring and the end, both counters are back at zero. */
  lemma QuiescentIsZero(run: seq<State>, k: nat)
    requires IsRun(run) && k < |run| && Quiescent(run[k])
    ensures run[k].channel == 0 && run[k].gauge == 0
  {
    Safety(run, k);
    forall p | p == Acquired || p == Inside || p == Released ensures Count(run[k], p) == 0 {
      assert p !in run[k].requests;
    }
  }

  /** Some unfinished request can always move without timing out, so nothing is stuck. */
  lemma NoDeadlock(run: seq<State>, k: nat, i: nat)
    requires IsRun(run) && k < |run| && run[0].capacity > 0
    requires i < |run[k].requests| && run[k].requests[i] != Done && run[k].requests[i] != TimedOut
    ensures exists t, j: nat :: RequestStep(run[k], t, j) && !TimeOut(run[k], t, j)
  {
    Safety(run, k);
    var s := run[k];
    var j := i;
    if s.requests[i] == Waiting && s.channel == s.capacity {
      var m := multiset(s.requests);
      assert Acquired in m || Inside in m;
      j :| 0 <= j < |s.requests| && (s.requests[j] == Acquired || s.requests[j] == Inside);
    }
    assert s.requests[j] in multiset(s.requests);
    var p := s.requests[j];
    var t := if p == Waiting then s.(channel := s.channel + 1, requests := s.requests[j := Acquired])
             else if p == Acquired then s.(gauge := s.gauge + 1, requests := s.requests[j := Inside])
             else if p == Inside then s.(channel := s.channel - 1, requests := s.requests[j := Released])
             else s.(gauge := s.gauge - 1, requests := s.requests[j := Done]);
    assert RequestStep(s, t, j);
  }

  /** A run and one more step, of request i. */
  lemma Then(run: seq<State>, t: State, i: nat) returns (longer: seq<State>)
    requires IsRun(run) && RequestStep(run[|run| - 1], t, i)
    ensures IsRun(longer) && longer[|longer| - 1] == t
  {
    longer := run + [t];
  }

  /** Two requests at capacity one. */
  function Two(channel: nat, gauge: int, first: Phase, second: Phase): State {
    State(1, channel, gauge, 0, [first, second])
  }

  lemma TwoArrive() returns (run: seq<State>)
    ensures IsRun(run) && run[|run| - 1] == Two(0, 0, Waiting, Waiting)
  {
    var s0 := State(1, 0, 0, 0, []);
    var s1, s2 := s0.(requests := [Waiting]), Two(0, 0, Waiting, Waiting);
    assert Arrive(s0, s1) && Arrive(s1, s2);
    run := [s0, s1, s2];
  }

  /** The gauge is not bounded by the capacity: a released request may still be counted. */
  lemma GaugeMayExceedCapacity() returns (run: seq<State>)
    ensures IsRun(run) && run[|run| - 1].gauge > run[|run| - 1].capacity
  {
    run := TwoArrive();
    run := Then(run, Two(1, 0, Acquired, Waiting), 0);
    run := Then(run, Two(1, 1, Inside, Waiting), 0);
    run := Then(run, Two(0, 1, Released, Waiting), 0);
    run := Then(run, Two(1, 1, Released, Acquired), 1);
    run := Then(run, Two(1, 2, Released, Inside), 1);
  }

  /** Requests arrive at any time; a waiting one may always give up, and gets in exactly where there is room. */
  lemma WaitingMay(s: State, i: nat)
    requires i < |s.requests| && s.requests[i] == Waiting
    ensures exists t :: Step(s, t) && t.requests == s.requests + [Waiting]
    ensures exists t :: Step(s, t) && t.requests == s.requests[i := TimedOut] && t.timeouts == s.timeouts + 1
    ensures (exists t :: Step(s, t) && t.requests == s.requests[i := Acquired]) <==> s.channel < s.capacity
  {
    assert Arrive(s, s.(requests := s.requests + [Waiting]));
    assert RequestStep(s, s.(timeouts := s.timeouts + 1, requests := s.requests[i := TimedOut]), i);
    if s.channel < s.capacity {
      assert RequestStep(s, s.(channel := s.channel + 1, requests := s.requests[i := Acquired]), i);
    }
    forall t | Step(s, t) && t.requests == s.requests[i := Acquired] ensures s.channel < s.capacity {
      OnlyByAcquiring(s, t, i);
    }
  }

  lemma OnlyByAcquiring(s: State, t: State, i: nat)
    requires i < |s.requests| && s.requests[i] == Waiting && Step(s, t) && t.requests == s.requests[i := Acquired]
    ensures s.channel < s.capacity
  {
    assert !Arrive(s, t);
    var j: nat :| RequestStep(s, t, j);
    assert t.requests[i] == Acquired && t.requests[j] != s.requests[j];
  }
}
