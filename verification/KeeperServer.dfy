/** internal/keeper/server.go: the secret endpoint, its answers and its one counter. */
module KeeperServer {
  import opened BoundedRead
  import opened Validate
  import opened Wrappers

  datatype Status = OkStatus | ErrorStatus

  /**
   A request, with how its select turned out (`admitted`) and the ref its body
   decoded to, None if it did not.
   */
  datatype Request = Request(post: bool, path: string, admitted: bool, ref: Option<string>)

  datatype Response = Response(code: int, body: Option<Bytes>)

  const ENDPOINT := "/v1/secrets/get"

  predicate PastSemaphore(r: Request) {
    r.post && r.path == ENDPOINT && r.admitted
  }

  /** The secret a request is entitled to: a valid ref, found by the backend, within the limit. */
  function Entitled(r: Request, backend: string -> Option<Bytes>, maxSize: int): Option<Bytes> {
    if PastSemaphore(r) && r.ref.Some? && ValidKeeperRef(r.ref.value) then
      match backend(r.ref.value)
      case None => None
      case Some(data) => if |data| <= maxSize then Some(data) else None
    else None
  }

  class Handler {
    const maxSize: int
    const backend: string -> Option<Bytes>
    var requests: multiset<Status>

    constructor (maxSize: int, backend: string -> Option<Bytes>)
      ensures this.maxSize == maxSize && this.backend == backend && requests == multiset{}
    {
      this.maxSize, this.backend := maxSize, backend;
      requests := multiset{};
    }

    /** handleGetSecret. */
    method HandleGetSecret(r: Request) returns (resp: Response)
      modifies this
      // A secret goes out, whole and with 200, exactly to the entitled; nothing else carries a body.
      ensures resp.body == Entitled(r, backend, maxSize)
      ensures resp.code == 200 <==> resp.body.Some?
      // Each request past the semaphore is counted exactly once, as ok iff the answer is 200.
      ensures requests == old(requests) +
              (if PastSemaphore(r) then multiset{if resp.code == 200 then OkStatus else ErrorStatus} else multiset{})
      ensures resp.code in {200, 400, 404, 405, 413, 500, 503}
      ensures resp.code == 405 <==> !r.post
      ensures resp.code == 404 <==> r.post && r.path != "/v1/secrets/get"
      ensures resp.code == 400 <==> PastSemaphore(r) && (r.ref.None? || !ValidKeeperRef(r.ref.value))
      ensures resp.code == 503 <==> r.post && r.path == ENDPOINT && !r.admitted
      ensures resp.code == 413 <==>
              && PastSemaphore(r) && r.ref.Some? && ValidKeeperRef(r.ref.value)
              && backend(r.ref.value).Some? && |backend(r.ref.value).value| > maxSize
      ensures resp.code == 500 <==>
              PastSemaphore(r) && r.ref.Some? && ValidKeeperRef(r.ref.value) && backend(r.ref.value).None?
    {
      assert requests + multiset{} == requests;
      if !r.post {
        return Response(405, None);
      }
      if r.path != ENDPOINT {
        return Response(404, None);
      }
      if !r.admitted {
        return Response(503, None);
      }
      if r.ref.None? {
        requests := requests + multiset{ErrorStatus};
        return Response(400, None);
      }
      var ref := r.ref.value;
      if ref == "" {
        requests := requests + multiset{ErrorStatus};
        return Response(400, None);
      }
      if !ValidKeeperRef(ref) {
        requests := requests + multiset{ErrorStatus};
        return Response(400, None);
      }
      var found := backend(ref);
      if found.None? {
        requests := requests + multiset{ErrorStatus};
        return Response(500, None);
      }
      if |found.value| > maxSize {
        requests := requests + multiset{ErrorStatus};
        return Response(413, None);
      }
      requests := requests + multiset{OkStatus};
      return Response(200, found);
    }
  }
}
