/** internal/webhook/server.go: the answer to each admission review, and what the counters say about them. */
module WebhookServer {
  import opened JsonPatch
  import opened Mutator
  import opened Pods
  import opened WebhookConfig
  import opened Wrappers

  datatype Kind = Kind(group: string, version: string, kind: string)

  /**
   A decoded review's request. `pod` is None when the object does not decode;
   `marshals` is whether encoding the patch succeeds.
   */
  datatype AdmissionRequest = AdmissionRequest(
    uid: string, kind: Kind, pod: Option<Pod>, dryRun: Option<bool>, marshals: bool)

  datatype Response = Response(uid: Option<string>, allowed: bool, code: Option<int>, patch: Option<seq<Op>>)

  datatype ErrorReason = ValidationError | Internal | Timeout

  datatype ResultLabel = ErrorResult | AllowedResult | MutatedResult

  predicate IsPodRequest(kind: Kind) {
    kind == Kind("", "v1", "Pod")
  }

  // ---- The decision, as one case distinction -----------------------------------------

  datatype Class =
    | Malformed
    | Refused(why: Reason)
    | Untouched
    | DryRun
    | Unencodable(provider: string)
    | Injected(provider: string, ops: seq<Op>)

  /** The case of a request whose pod went through the mutator with this outcome. */
  function ClassOf(req: AdmissionRequest, outcome: Outcome): Class {
    match outcome
    case Rejected(_, why) => Refused(why)
    case Skipped => Untouched
    case Patched(audit, ops) =>
      if req.dryRun == Some(true) then DryRun
      else if !req.marshals then Unencodable(audit.provider)
      else Injected(audit.provider, ops)
  }

  ghost function Classify(review: Option<AdmissionRequest>, cfg: Config): Class {
    if review.None? || !IsPodRequest(review.value.kind) || review.value.pod.None? then Malformed
    else ClassOf(review.value, Mutation(review.value.pod.value, cfg))
  }

  /** The answer each case gets. */
  function Answer(uid: Option<string>, c: Class): Response {
    match c
    case Malformed => Response(uid, false, Some(400), None)
    case Refused(_) => Response(uid, false, Some(400), None)
    case Untouched => Response(uid, true, None, None)
    case DryRun => Response(uid, true, None, None)
    case Unencodable(_) => Response(uid, false, Some(500), None)
    case Injected(_, ops) => Response(uid, true, None, Some(ops))
  }

  /** The results label each case is counted under; a malformed review has none. */
  function Results(c: Class): multiset<ResultLabel> {
    match c
    case Malformed => multiset{}
    case Refused(_) => multiset{ErrorResult}
    case Unencodable(_) => multiset{ErrorResult}
    case Untouched => multiset{AllowedResult}
    case DryRun => multiset{AllowedResult}
    case Injected(_, _) => multiset{MutatedResult}
  }

  function Errors(c: Class): multiset<ErrorReason> {
    match c
    case Refused(_) => multiset{ValidationError}
    case Unencodable(_) => multiset{Internal}
    case _ => multiset{}
  }

  function Injections(c: Class): multiset<string> {
    match c
    case Unencodable(provider) => multiset{provider}
    case Injected(provider, _) => multiset{provider}
    case _ => multiset{}
  }

  /** All counters; a counter vector is the multiset of the labels it was incremented with. */
  datatype Books = Books(
    requests: multiset<(bool, bool)>, results: multiset<ResultLabel>, errors: multiset<ErrorReason>,
    injections: multiset<string>, malformed: nat, unencodable: nat)

  /** The books balance. Labels of `requests` are (allowed, mutated). */
  predicate Conserved(b: Books) {
    && |b.requests| == |b.results| + b.malformed
    && |b.errors| == b.results[ErrorResult] + b.errors[Timeout]
    && b.requests[(true, true)] == b.results[MutatedResult] && b.requests[(false, true)] == 0
    && b.requests[(true, false)] == b.results[AllowedResult]
    && |b.injections| == b.results[MutatedResult] + b.unencodable
    && |b.results| == b.results[ErrorResult] + b.results[AllowedResult] + b.results[MutatedResult]
  }

  /** The labels a review is counted under. */
  function Labels(resp: Response): (bool, bool) {
    (resp.allowed, resp.patch.Some?)
  }

  /** The books after the decision on a review of this case, before its request is counted. */
  function Decided(b: Books, c: Class): Books {
    Books(
      b.requests, b.results + Results(c), b.errors + Errors(c), b.injections + Injections(c),
      b.malformed + (if c.Malformed? then 1 else 0), b.unencodable + (if c.Unencodable? then 1 else 0))
  }

  /** The books after a review of this case. */
  function Booked(b: Books, c: Class): Books {
    Decided(b, c).(requests := b.requests + multiset{Labels(Answer(None, c))})
  }

  /** One review adds one unit to each side of every equation. */
  lemma OneReview(c: Class)
    ensures |Results(c)| + (if c.Malformed? then 1 else 0) == 1
    ensures |Errors(c)| == Results(c)[ErrorResult] && Errors(c)[Timeout] == 0
    ensures |Injections(c)| == Results(c)[MutatedResult] + (if c.Unencodable? then 1 else 0)
    ensures |Results(c)| == Results(c)[ErrorResult] + Results(c)[AllowedResult] + Results(c)[MutatedResult]
    ensures var a := Answer(None, c);
            && Results(c)[MutatedResult] == (if a.allowed && a.patch.Some? then 1 else 0)
            && Results(c)[AllowedResult] == (if a.allowed && a.patch.None? then 1 else 0)
            && (a.patch.Some? ==> a.allowed)
  {
  }

  lemma BookedBalances(b: Books, c: Class)
    requires Conserved(b)
    ensures Conserved(Booked(b, c))
  {
    OneReview(c);
    assert |b.requests + multiset{Labels(Answer(None, c))}| == |b.requests| + 1;
    assert |b.results + Results(c)| == |b.results| + |Results(c)|;
    assert |b.errors + Errors(c)| == |b.errors| + |Errors(c)|;
    assert |b.injections + Injections(c)| == |b.injections| + |Injections(c)|;
  }

  /** The uid has no part in the labels, so counting the request completes the books. */
  lemma RequestCompletes(b: Books, c: Class, uid: Option<string>)
    ensures Decided(b, c).(requests := b.requests + multiset{Labels(Answer(uid, c))}) == Booked(b, c)
  {
    assert Labels(Answer(uid, c)) == Labels(Answer(None, c));
  }

  function UidOf(review: Option<AdmissionRequest>): Option<string> {
    if review.Some? then Some(review.value.uid) else None
  }

  /** What arrives at the handler, and how its select and its decoder turn out. */
  datatype HttpRequest = HttpRequest(post: bool, admitted: bool, review: Option<Option<AdmissionRequest>>)

  class Server {
    const cfg: Config
    var requests: multiset<(bool, bool)>
    var results: multiset<ResultLabel>
    var errors: multiset<ErrorReason>
    var injections: multiset<string>
    ghost var malformed: nat
    ghost var unencodable: nat

    constructor (cfg: Config)
      ensures TheBooks() == Books(multiset{}, multiset{}, multiset{}, multiset{}, 0, 0) && this.cfg == cfg
      ensures Conserved(TheBooks())
    {
      this.cfg := cfg;
      requests, results, errors, injections := multiset{}, multiset{}, multiset{}, multiset{};
      malformed, unencodable := 0, 0;
    }

    ghost function TheBooks(): Books
      reads this
    {
      Books(requests, results, errors, injections, malformed, unencodable)
    }

    /** The part of mutate after MutatePod. */
    method Conclude(req: AdmissionRequest, outcome: Outcome) returns (resp: Response)
      modifies this`results, this`errors, this`injections, this`unencodable
      ensures var c := ClassOf(req, outcome);
              && resp == Answer(Some(req.uid), c)
              && results == old(results) + Results(c)
              && errors == old(errors) + Errors(c)
              && injections == old(injections) + Injections(c)
              && unencodable == old(unencodable) + (if c.Unencodable? then 1 else 0)
    {
      assert results + multiset{} == results && errors + multiset{} == errors && injections + multiset{} == injections;
      ghost var c := ClassOf(req, outcome);
      match outcome {
        case Rejected(_, _) =>
          assert c.Refused?;
          errors := errors + multiset{ValidationError};
          results := results + multiset{ErrorResult};
          return Response(Some(req.uid), false, Some(400), None);
        case Skipped =>
          assert c.Untouched?;
          results := results + multiset{AllowedResult};
          return Response(Some(req.uid), true, None, None);
        case Patched(audit, patch) =>
          if req.dryRun == Some(true) {
            assert c.DryRun?;
            results := results + multiset{AllowedResult};
            return Response(Some(req.uid), true, None, None);
          }
          injections := injections + multiset{audit.provider};
          if !req.marshals {
            assert c == Unencodable(audit.provider);
            errors := errors + multiset{Internal};
            results := results + multiset{ErrorResult};
            unencodable := unencodable + 1;
            return Response(Some(req.uid), false, Some(500), None);
          }
          assert c == Injected(audit.provider, patch);
          results := results + multiset{MutatedResult};
          return Response(Some(req.uid), true, None, Some(patch));
      }
    }

    /** mutate: the decision tree with its counters. */
    method Mutate(review: Option<AdmissionRequest>) returns (resp: Response)
      modifies this
      ensures var c := Classify(review, cfg);
              && resp == Answer(UidOf(review), c)
              && results == old(results) + Results(c)
              && errors == old(errors) + Errors(c)
              && injections == old(injections) + Injections(c)
              && malformed == old(malformed) + (if c.Malformed? then 1 else 0)
              && unencodable == old(unencodable) + (if c.Unencodable? then 1 else 0)
      ensures requests == old(requests)
    {
      assert results + multiset{} == results && errors + multiset{} == errors && injections + multiset{} == injections;
      if review.None? {
        malformed := malformed + 1;
        return Response(None, false, Some(400), None);
      }
      var req := review.value;
      if !IsPodRequest(req.kind) || req.pod.None? {
        malformed := malformed + 1;
        return Response(Some(req.uid), false, Some(400), None);
      }
      var outcome := MutatePod(req.pod.value, cfg);
      assert Classify(review, cfg) == ClassOf(req, outcome);
      resp := Conclude(req, outcome);
    }

    /** mutateWithMetrics: every review is counted once, under its own answer. */
    method MutateWithMetrics(review: Option<AdmissionRequest>) returns (resp: Response)
      requires Conserved(TheBooks())
      modifies this
      ensures Conserved(TheBooks())
      ensures resp == Answer(UidOf(review), Classify(review, cfg))
      ensures TheBooks() == Booked(old(TheBooks()), Classify(review, cfg))
    {
      ghost var c, b := Classify(review, cfg), TheBooks();
      BookedBalances(b, c);
      resp := Mutate(review);
      requests := requests + multiset{Labels(resp)};
      RequestCompletes(b, c, UidOf(review));
    }

    /** ServeHTTP around the semaphore: None is an HTTP error without a review. */
    method ServeHTTP(r: HttpRequest) returns (status: int, resp: Option<Response>)
      requires Conserved(TheBooks())
      modifies this
      ensures Conserved(TheBooks())
      ensures resp == (if r.post && r.admitted && r.review.Some?
                       then Some(Answer(UidOf(r.review.value), Classify(r.review.value, cfg)))
                       else None)
      ensures status == if !r.post then 405 else if !r.admitted then 503 else if r.review.None? then 400 else 200
      ensures TheBooks() ==
              if r.post && !r.admitted then old(TheBooks()).(errors := old(errors) + multiset{Timeout})
              else if resp.Some? then Booked(old(TheBooks()), Classify(r.review.value, cfg))
              else old(TheBooks())
    {
      if !r.post {
        return 405, None;
      }
      if !r.admitted {
        errors := errors + multiset{Timeout};
        return 503, None;
      }
      if r.review.None? {
        return 400, None;
      }
      var answer := MutateWithMetrics(r.review.value);
      return 200, Some(answer);
    }
  }

  lemma AnswerByClass(uid: Option<string>, c: Class)
    ensures var resp := Answer(uid, c);
            && resp.patch == (if c.Injected? then Some(c.ops) else None)
            && (resp.code == Some(500) <==> c.Unencodable?)
            && (resp.allowed <==> resp.code.None?) && (c.Injected? ==> resp.allowed)
  {
  }

  lemma InjectedIff(review: Option<AdmissionRequest>, cfg: Config)
    ensures var c := Classify(review, cfg);
            && (c.Injected? <==>
                  && review.Some? && IsPodRequest(review.value.kind) && review.value.pod.Some?
                  && Admit(review.value.pod.value, cfg).Accept?
                  && review.value.dryRun != Some(true) && review.value.marshals)
            && (c.Injected? ==> c.ops == Ops(review.value.pod.value, cfg, Admit(review.value.pod.value, cfg).req))
            && (c.Unencodable? ==> Admit(review.value.pod.value, cfg).Accept? && !review.value.marshals)
  {
  }

  /**
   A pod is patched exactly when it is a real request for an annotated, valid
   pod; a dry run or a refusal never carries a patch, and every refusal of the
   mutator is a 400: the internal code comes from encoding alone.
   */
  lemma PatchOnlyWhenInjected(review: Option<AdmissionRequest>, cfg: Config)
    ensures var resp := Answer(UidOf(review), Classify(review, cfg));
            && (resp.patch.Some? <==>
                  && review.Some? && IsPodRequest(review.value.kind) && review.value.pod.Some?
                  && Admit(review.value.pod.value, cfg).Accept?
                  && review.value.dryRun != Some(true) && review.value.marshals)
            && (resp.patch.Some? ==>
                  resp.allowed &&
                  resp.patch.value == Ops(review.value.pod.value, cfg, Admit(review.value.pod.value, cfg).req))
            && (resp.code == Some(500) ==> Admit(review.value.pod.value, cfg).Accept? && !review.value.marshals)
            && (resp.allowed <==> resp.code.None?)
  {
    AnswerByClass(UidOf(review), Classify(review, cfg));
    InjectedIff(review, cfg);
  }

  /** A review is answered under its own uid; only a missing request has none to answer under. */
  lemma AnswersItsReview(review: Option<AdmissionRequest>, cfg: Config)
    ensures var resp := Answer(UidOf(review), Classify(review, cfg));
            resp.uid == match review case Some(req) => Some(req.uid) case None => None
  {
  }

  /** What the answer says: a pod is judged only in a review of a core/v1 Pod, and each code has its cause. */
  lemma CodesByCause(review: Option<AdmissionRequest>, cfg: Config)
    ensures var resp := Answer(UidOf(review), Classify(review, cfg));
            var judged := review.Some? && review.value.pod.Some? && review.value.kind.group == "" &&
                          review.value.kind.version == "v1" && review.value.kind.kind == "Pod";
            && (resp.code == Some(400) <==> !judged || Mutation(review.value.pod.value, cfg).Rejected?)
            && (resp.code == Some(500) <==>
                  && judged && Mutation(review.value.pod.value, cfg).Patched?
                  && review.value.dryRun != Some(true) && !review.value.marshals)
            && (resp.allowed <==> resp.code == None)
            && (resp.code == None || resp.code == Some(400) || resp.code == Some(500))
  {
  }
}
