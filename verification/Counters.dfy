/**
 The webhook's counters while handlers run side by side: each review
 increments several counters one after the other, and nothing locks them.
 */
module Counters {
  import opened Mutator
  import opened WebhookServer
  import opened Wrappers

  /** What a handler has to count: a review of some case, or a request that got no slot. */
  datatype Event = Reviewed(c: Class) | TimedOut

  /** One increment. */
  datatype Tick =
    | Requested(c: Class)
    | Resulted(l: ResultLabel)
    | Erred(reason: ErrorReason)
    | Injecting(provider: string)

  /** The increments of an event, in the order the program makes them. */
  function Plan(e: Event): seq<Tick> {
    match e
    case TimedOut => [Erred(Timeout)]
    case Reviewed(c) =>
      match c
      case Malformed => [Requested(c)]
      case Refused(_) => [Erred(ValidationError), Resulted(ErrorResult), Requested(c)]
      case Untouched => [Resulted(AllowedResult), Requested(c)]
      case DryRun => [Resulted(AllowedResult), Requested(c)]
      case Unencodable(p) => [Injecting(p), Erred(Internal), Resulted(ErrorResult), Requested(c)]
      case Injected(p, _) => [Injecting(p), Resulted(MutatedResult), Requested(c)]
  }

  function Count(b: Books, t: Tick): Books {
    Books(
      if t.Requested? then b.requests + multiset{Labels(Answer(None, t.c))} else b.requests,
      if t.Resulted? then b.results + multiset{t.l} else b.results,
      if t.Erred? then b.errors + multiset{t.reason} else b.errors,
      if t.Injecting? then b.injections + multiset{t.provider} else b.injections,
      if t.Requested? && t.c.Malformed? then b.malformed + 1 else b.malformed,
      if t == Erred(Internal) then b.unencodable + 1 else b.unencodable)
  }

  function CountAll(b: Books, ticks: seq<Tick>): Books
    decreases |ticks|
  {
    if ticks == [] then b else CountAll(Count(b, ticks[0]), ticks[1..])
  }

  lemma CountCons(b: Books, t: Tick, rest: seq<Tick>)
    ensures CountAll(b, [t] + rest) == CountAll(Count(b, t), rest)
  {
    assert ([t] + rest)[1..] == rest;
  }

  lemma CountFew(b: Books, s: Tick, t: Tick, u: Tick)
    ensures CountAll(b, [s]) == Count(b, s)
    ensures CountAll(b, [s, t]) == Count(Count(b, s), t)
    ensures CountAll(b, [s, t, u]) == Count(Count(Count(b, s), t), u)
  {
    assert [s] == [s] + [] && [s, t] == [s] + [t] && [t] == [t] + [] && [s, t, u] == [s] + [t, u];
    assert [t, u] == [t] + [u] && [u] == [u] + [];
    CountCons(b, s, []);
    CountCons(b, s, [t]);
    CountCons(Count(b, s), t, []);
    CountCons(b, s, [t, u]);
    CountCons(Count(b, s), t, [u]);
    CountCons(Count(Count(b, s), t), u, []);
  }

  /** The plan of a review is what the server's method does as a whole. */
  lemma PlanIsBooked(b: Books, c: Class)
    ensures CountAll(b, Plan(Reviewed(c))) == Booked(b, c)
  {
    if c.Malformed? {
      PlanOfMalformed(b, c);
    } else if c.Refused? {
      PlanOfRefused(b, c);
    } else if c.Unencodable? {
      PlanOfUnencodable(b, c);
    } else if c.Injected? {
      PlanOfInjected(b, c);
    } else {
      PlanOfAllowed(b, c);
    }
  }

  lemma PlanOfMalformed(b: Books, c: Class)
    requires c.Malformed?
    ensures CountAll(b, Plan(Reviewed(c))) == Booked(b, c)
  {
    var last := Requested(c);
    CountFew(b, last, last, last);
    assert Plan(Reviewed(c)) == [last];
    assert b.results + multiset{} == b.results && b.errors + multiset{} == b.errors;
    assert b.injections + multiset{} == b.injections;
  }

  lemma PlanOfAllowed(b: Books, c: Class)
    requires c.Untouched? || c.DryRun?
    ensures CountAll(b, Plan(Reviewed(c))) == Booked(b, c)
  {
    var last := Requested(c);
    CountFew(b, Resulted(AllowedResult), last, last);
    assert Plan(Reviewed(c)) == [Resulted(AllowedResult), last];
    assert Count(b, Resulted(AllowedResult)) == b.(results := b.results + multiset{AllowedResult});
    assert b.errors + multiset{} == b.errors && b.injections + multiset{} == b.injections;
  }

  lemma PlanOfRefused(b: Books, c: Class)
    requires c.Refused?
    ensures CountAll(b, Plan(Reviewed(c))) == Booked(b, c)
  {
    var b1 := Count(b, Erred(ValidationError));
    CountFew(b, Erred(ValidationError), Resulted(ErrorResult), Requested(c));
    assert Plan(Reviewed(c)) == [Erred(ValidationError), Resulted(ErrorResult), Requested(c)];
    assert b1 == b.(errors := b.errors + multiset{ValidationError});
    assert Count(b1, Resulted(ErrorResult)) == b1.(results := b.results + multiset{ErrorResult});
    assert b.injections + multiset{} == b.injections;
  }

  lemma PlanOfInjected(b: Books, c: Class)
    requires c.Injected?
    ensures CountAll(b, Plan(Reviewed(c))) == Booked(b, c)
  {
    var b1 := Count(b, Injecting(c.provider));
    CountFew(b, Injecting(c.provider), Resulted(MutatedResult), Requested(c));
    assert Plan(Reviewed(c)) == [Injecting(c.provider), Resulted(MutatedResult), Requested(c)];
    assert b1 == b.(injections := b.injections + multiset{c.provider});
    assert Count(b1, Resulted(MutatedResult)) == b1.(results := b.results + multiset{MutatedResult});
    assert b.errors + multiset{} == b.errors;
  }

  lemma PlanOfUnencodable(b: Books, c: Class)
    requires c.Unencodable?
    ensures CountAll(b, Plan(Reviewed(c))) == Booked(b, c)
  {
    var rest := [Erred(Internal), Resulted(ErrorResult), Requested(c)];
    assert Plan(Reviewed(c)) == [Injecting(c.provider)] + rest;
    CountCons(b, Injecting(c.provider), rest);
    var b1 := Count(b, Injecting(c.provider));
    CountFew(b1, Erred(Internal), Resulted(ErrorResult), Requested(c));
    var b2 := Count(b1, Erred(Internal));
    assert b1 == b.(injections := b.injections + multiset{c.provider});
    assert b2 == b1.(errors := b.errors + multiset{Internal}, unencodable := b.unencodable + 1);
    assert Count(b2, Resulted(ErrorResult)) == b2.(results := b.results + multiset{ErrorResult});
  }

  const EMPTY := Books(multiset{}, multiset{}, multiset{}, multiset{}, 0, 0)

  /** The books after these events, one after the other. */
  function BooksAfter(events: seq<Event>): Books {
    if events == [] then EMPTY else CountAll(BooksAfter(events[..|events| - 1]), Plan(events[|events| - 1]))
  }

  /** From a new server on, every sequence of requests leaves the books balanced. */
  lemma {:induction false} SequenceBalances(events: seq<Event>)
    ensures Conserved(BooksAfter(events))
  {
    if events != [] {
      var init, e := events[..|events| - 1], events[|events| - 1];
      SequenceBalances(init);
      var b := BooksAfter(init);
      match e {
        case TimedOut =>
          assert CountAll(b, Plan(e)) == Count(b, Erred(Timeout));
          assert |b.errors + multiset{Timeout}| == |b.errors| + 1;
        case Reviewed(c) =>
          PlanIsBooked(b, c);
          BookedBalances(b, c);
      }
    }
  }

  // ---- Handlers side by side --------------------------------------------------------

  /** A handler that has made the first `done` increments of its plan. */
  datatype Handler = Handler(event: Event, done: nat)

  datatype State = State(handlers: seq<Handler>, books: Books)

  predicate Valid(s: State) {
    forall i | 0 <= i < |s.handlers| :: s.handlers[i].done <= |Plan(s.handlers[i].event)|
  }

  predicate Init(s: State) {
    s.books == EMPTY && forall i | 0 <= i < |s.handlers| :: s.handlers[i].done == 0
  }

  /** Handler i makes its next increment. */
  predicate Step(s: State, t: State, i: nat) {
    && i < |s.handlers|
    && s.handlers[i].done < |Plan(s.handlers[i].event)|
    && t.handlers == s.handlers[i := s.handlers[i].(done := s.handlers[i].done + 1)]
    && t.books == Count(s.books, Plan(s.handlers[i].event)[s.handlers[i].done])
  }

  ghost predicate Next(s: State, t: State) {
    exists i: nat :: Step(s, t, i)
  }

  ghost predicate IsRun(run: seq<State>) {
    && run != [] && Init(run[0])
    && forall k | 0 < k < |run| :: Next(run[k - 1], run[k])
  }

  // A handler between two increments is in one of three places.

  /** Its last increment was t, and another one follows. */
  predicate After(h: Handler, t: Tick) {
    0 < h.done < |Plan(h.event)| && Plan(h.event)[h.done - 1] == t
  }

  /** Counted as a result with this label, but not yet as a request. */
  predicate Unrequested(h: Handler, l: ResultLabel) {
    After(h, Resulted(l))
  }

  /** Counted as an error, but not yet as a result. */
  predicate Unresulted(h: Handler) {
    After(h, Erred(ValidationError)) || After(h, Erred(Internal))
  }

  /** Counted as an injection, but not yet by how it ended. */
  predicate Undecided(h: Handler) {
    0 < h.done < |Plan(h.event)| && Plan(h.event)[h.done - 1].Injecting?
  }

  function Number(hs: seq<Handler>, p: Handler -> bool): nat {
    if hs == [] then 0 else (if p(hs[0]) then 1 else 0) + Number(hs[1..], p)
  }

  lemma {:induction false} NumberUpdate(hs: seq<Handler>, i: nat, h: Handler, p: Handler -> bool)
    requires i < |hs|
    ensures Number(hs[i := h], p) + (if p(hs[i]) then 1 else 0) == Number(hs, p) + (if p(h) then 1 else 0)
  {
    if i > 0 {
      NumberUpdate(hs[1..], i - 1, h, p);
      assert hs[i := h][1..] == hs[1..][i - 1 := h];
    }
  }

  lemma {:induction false} NumberZero(hs: seq<Handler>, p: Handler -> bool)
    requires forall i | 0 <= i < |hs| :: !p(hs[i])
    ensures Number(hs, p) == 0
  {
    if hs != [] {
      NumberZero(hs[1..], p);
    }
  }

  function Late(s: State, l: ResultLabel): nat {
    Number(s.handlers, (h: Handler) => Unrequested(h, l))
  }

  /** The equations between requests and results, each off by exactly the handlers between the two increments. */
  predicate ResultsAccounted(s: State) {
    var b := s.books;
    && |b.requests| + Late(s, ErrorResult) + Late(s, AllowedResult) + Late(s, MutatedResult) ==
       |b.results| + b.malformed
    && b.requests[(true, true)] + Late(s, MutatedResult) == b.results[MutatedResult] && b.requests[(false, true)] == 0
    && b.requests[(true, false)] + Late(s, AllowedResult) == b.results[AllowedResult]
    && |b.results| == b.results[ErrorResult] + b.results[AllowedResult] + b.results[MutatedResult]
  }

  /** The same for errors and injections. */
  predicate CausesAccounted(s: State) {
    var b := s.books;
    && |b.errors| == b.results[ErrorResult] + b.errors[Timeout] + Number(s.handlers, Unresulted)
    && |b.injections| == b.results[MutatedResult] + b.unencodable + Number(s.handlers, Undecided)
  }

  predicate Accounted(s: State) {
    ResultsAccounted(s) && CausesAccounted(s)
  }

  function One(p: bool): nat {
    if p then 1 else 0
  }

  /** The label a review's request is counted under tells its result, and that result came just before. */
  function ResultOf(c: Class): ResultLabel {
    if !Answer(None, c).allowed then ErrorResult
    else if Answer(None, c).patch.None? then AllowedResult else MutatedResult
  }

  /** What comes before and after each increment of a plan. */
  lemma PlanShape(e: Event, k: nat)
    requires k < |Plan(e)|
    ensures var plan := Plan(e);
            match plan[k]
            case Requested(c) =>
              k + 1 == |plan| &&
              (if k == 0 then c.Malformed?
               else !c.Malformed? && plan[k - 1] == Resulted(ResultOf(c))) &&
              (Answer(None, c).patch.Some? ==> Answer(None, c).allowed) &&
              (c.Malformed? ==> !Answer(None, c).allowed)
            case Resulted(l) =>
              k + 1 < |plan| &&
              (match l
               case ErrorResult => k > 0 && (plan[k - 1] == Erred(ValidationError) || plan[k - 1] == Erred(Internal))
               case AllowedResult => k == 0
               case MutatedResult => k > 0 && plan[k - 1].Injecting?)
            case Erred(r) =>
              (match r
               case Timeout => k == 0 && k + 1 == |plan|
               case ValidationError => k == 0 && k + 1 < |plan|
               case Internal => k > 0 && plan[k - 1].Injecting? && k + 1 < |plan|)
            case Injecting(_) => k == 0 && k + 1 < |plan|
  {
  }

  /** Each increment opens or closes one of the gaps the handler is in. */
  lemma HandlerStep(h: Handler, t: Tick)
    requires h.done < |Plan(h.event)| && t == Plan(h.event)[h.done]
    ensures var h' := h.(done := h.done + 1);
            && (forall l :: Unrequested(h', l) <==> t == Resulted(l))
            && (Unresulted(h') <==> t == Erred(ValidationError) || t == Erred(Internal))
            && (Undecided(h') <==> t.Injecting?)
    ensures Unresulted(h) <==> t == Resulted(ErrorResult)
    ensures Undecided(h) <==> t == Resulted(MutatedResult) || t == Erred(Internal)
    ensures forall l :: Unrequested(h, l) <==>
              t.Requested? && !t.c.Malformed? &&
              l == ResultOf(t.c)
  {
    PlanShape(h.event, h.done);
    if h.done > 0 {
      PlanShape(h.event, h.done - 1);
    }
  }

  /** What one increment adds to each side of the equations. */
  lemma CountAdds(b: Books, t: Tick, l: ResultLabel, labels: (bool, bool))
    ensures var b' := Count(b, t);
            && |b'.requests| == |b.requests| + One(t.Requested?)
            && b'.malformed == b.malformed + One(t.Requested? && t.c.Malformed?)
            && b'.requests[labels] == b.requests[labels] +
                 One(t.Requested? && Labels(Answer(None, t.c)) == labels)
            && |b'.results| == |b.results| + One(t.Resulted?)
            && b'.results[l] == b.results[l] + One(t == Resulted(l))
            && |b'.errors| == |b.errors| + One(t.Erred?)
            && b'.errors[Timeout] == b.errors[Timeout] + One(t == Erred(Timeout))
            && |b'.injections| == |b.injections| + One(t.Injecting?)
            && b'.unencodable == b.unencodable + One(t == Erred(Internal))
  {
    match t {
      case Requested(c) =>
        assert |b.requests + multiset{Labels(Answer(None, c))}| == |b.requests| + 1;
      case Resulted(l) => assert |b.results + multiset{l}| == |b.results| + 1;
      case Erred(r) => assert |b.errors + multiset{r}| == |b.errors| + 1;
      case Injecting(p) => assert |b.injections + multiset{p}| == |b.injections| + 1;
    }
  }

  /** ... and to each number of handlers in between. */
  lemma LateMoves(s: State, t: State, i: nat, tick: Tick, l: ResultLabel)
    requires Step(s, t, i) && tick == Plan(s.handlers[i].event)[s.handlers[i].done]
    ensures Late(t, l) + One(tick.Requested? && !tick.c.Malformed? && l == ResultOf(tick.c)) ==
            Late(s, l) + One(tick == Resulted(l))
  {
    HandlerStep(s.handlers[i], tick);
    NumberUpdate(s.handlers, i, t.handlers[i], (h: Handler) => Unrequested(h, l));
  }

  lemma NumbersMove(s: State, t: State, i: nat, tick: Tick)
    requires Step(s, t, i) && tick == Plan(s.handlers[i].event)[s.handlers[i].done]
    ensures Number(t.handlers, Unresulted) + One(tick == Resulted(ErrorResult)) ==
            Number(s.handlers, Unresulted) + One(tick == Erred(ValidationError) || tick == Erred(Internal))
    ensures Number(t.handlers, Undecided) + One(tick == Resulted(MutatedResult) || tick == Erred(Internal)) ==
            Number(s.handlers, Undecided) + One(tick.Injecting?)
  {
    HandlerStep(s.handlers[i], tick);
    NumberUpdate(s.handlers, i, t.handlers[i], Unresulted);
    NumberUpdate(s.handlers, i, t.handlers[i], Undecided);
  }

  lemma StepKeepsResults(s: State, t: State, i: nat)
    requires ResultsAccounted(s) && Step(s, t, i)
    ensures ResultsAccounted(t)
  {
    var tick := Plan(s.handlers[i].event)[s.handlers[i].done];
    CountAdds(s.books, tick, ErrorResult, (false, true));
    CountAdds(s.books, tick, AllowedResult, (true, false));
    CountAdds(s.books, tick, MutatedResult, (true, true));
    LateMoves(s, t, i, tick, ErrorResult);
    LateMoves(s, t, i, tick, AllowedResult);
    LateMoves(s, t, i, tick, MutatedResult);
    PlanShape(s.handlers[i].event, s.handlers[i].done);
  }

  lemma StepKeepsCauses(s: State, t: State, i: nat)
    requires CausesAccounted(s) && Step(s, t, i)
    ensures CausesAccounted(t)
  {
    var tick := Plan(s.handlers[i].event)[s.handlers[i].done];
    CountAdds(s.books, tick, ErrorResult, (true, true));
    CountAdds(s.books, tick, MutatedResult, (true, true));
    NumbersMove(s, t, i, tick);
    PlanShape(s.handlers[i].event, s.handlers[i].done);
  }

  lemma InitAccounted(s: State)
    requires Init(s)
    ensures Accounted(s)
  {
    forall p: Handler -> bool | forall h: Handler :: h.done == 0 ==> !p(h) ensures Number(s.handlers, p) == 0 {
      NumberZero(s.handlers, p);
    }
  }

  /**
   In every interleaving of any number of handlers the counters differ from
   balance by exactly the handlers between the increments in question.
   */
  lemma {:induction false} AlwaysAccounted(run: seq<State>, k: nat)
    requires IsRun(run) && k < |run|
    ensures Accounted(run[k])
  {
    if k == 0 {
      InitAccounted(run[0]);
    } else {
      AlwaysAccounted(run, k - 1);
      var i: nat :| Step(run[k - 1], run[k], i);
      StepKeepsResults(run[k - 1], run[k], i);
      StepKeepsCauses(run[k - 1], run[k], i);
    }
  }

  /** With every handler finished the books balance. */
  lemma QuietBalances(run: seq<State>, k: nat)
    requires IsRun(run) && k < |run|
    requires forall i | 0 <= i < |run[k].handlers| :: run[k].handlers[i].done == |Plan(run[k].handlers[i].event)|
    ensures Conserved(run[k].books)
  {
    var s := run[k];
    AlwaysAccounted(run, k);
    forall l ensures Late(s, l) == 0 {
      NumberZero(s.handlers, (h: Handler) => Unrequested(h, l));
    }
    NumberZero(s.handlers, Unresulted);
    NumberZero(s.handlers, Undecided);
  }

  /** Handlers keep no order among themselves: any unfinished one may make the next increment. */
  lemma AnyMayStep(s: State, i: nat)
    requires i < |s.handlers| && s.handlers[i].done < |Plan(s.handlers[i].event)|
    ensures exists t :: Next(s, t) && t.handlers == s.handlers[i := s.handlers[i].(done := s.handlers[i].done + 1)]
  {
    var h := s.handlers[i];
    var t := State(s.handlers[i := h.(done := h.done + 1)], Count(s.books, Plan(h.event)[h.done]));
    assert Step(s, t, i);
  }
}
