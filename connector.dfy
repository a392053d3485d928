/** The backend (FOLIO) client as an abstract oracle. Each call is
    answered by `respond`, which sees how many calls came before it, so the
    backend may answer the same request differently over time. A call the
    client does not support fails before reaching the backend. */
module Connector {
  import opened Wrappers
  import opened PyJson

  datatype Request =
    | HttpGet(url: string)
    | HttpPost(url: string, body: Json)
    | HttpPostAllowErrors(url: string, body: Json)
    | HttpDelete(url: string)

  class Client {
    /** The backend: the answer to the n-th call (counting from 0). */
    const respond: (nat, Request) -> Result<Json>
    /** Whether `post_request` takes an `allow_errors` argument. */
    const acceptsAllowErrors: bool
    /** Whether the client has a `delete_request` method. */
    const hasDelete: bool
    var calls: nat
    ghost var log: seq<Request>

    ghost predicate Valid()
      reads this
    {
      calls == |log|
    }

    constructor (respond: (nat, Request) -> Result<Json>, acceptsAllowErrors: bool, hasDelete: bool)
      ensures this.respond == respond && this.acceptsAllowErrors == acceptsAllowErrors && this.hasDelete == hasDelete
      ensures Valid() && log == []
    {
      this.respond := respond;
      this.acceptsAllowErrors := acceptsAllowErrors;
      this.hasDelete := hasDelete;
      calls := 0;
      log := [];
    }

    /** Whether the client can issue the request at all: `allow_errors=True`
        is a TypeError and `delete_request` an AttributeError on a client
        without them. */
    predicate Reaches(req: Request)
    {
      !(req.HttpPostAllowErrors? && !acceptsAllowErrors) && !(req.HttpDelete? && !hasDelete)
    }

    /** The requests a call leaves in the log: itself, if it reached the
        backend. */
    function Sent(req: Request): (s: seq<Request>)
      ensures |s| <= 1
    {
      if Reaches(req) then [req] else []
    }

    /** What the call `req` returns when `n` calls came before it. */
    function Answer(n: nat, req: Request): (r: Result<Json>)
      ensures !Reaches(req) ==> r.Err? && r.error == (if req.HttpDelete? then AttributeError else TypeError)
      ensures Reaches(req) ==> r == respond(n, req)
    {
      if req.HttpPostAllowErrors? && !acceptsAllowErrors then Err(TypeError)
      else if req.HttpDelete? && !hasDelete then Err(AttributeError)
      else respond(n, req)
    }

    /** `get_request(url)`, `post_request(url, body)`,
        `post_request(url, body, allow_errors=True)` and
        `delete_request(url)`, by the shape of `req`. */
    method Send(req: Request) returns (r: Result<Json>)
      requires Valid()
      modifies this
      ensures Valid()
      ensures r == Answer(old(calls), req)
      ensures log == old(log) + Sent(req)
    {
      if !Reaches(req) {
        return if req.HttpDelete? then Err(AttributeError) else Err(TypeError);
      }
      r := respond(calls, req);
      calls := calls + 1;
      log := log + [req];
    }
  }
}
