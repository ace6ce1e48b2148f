/**
 * The shared REST client's two interceptors. Outgoing requests carry the
 * session's token as a bearer header; a rejected call with status 401 ends
 * the session and sends the browser to the login page, and every rejection
 * still reaches the caller.
 */
module Api {
  import opened Wrappers
  import opened Text
  import opened Store

  const DefaultBaseUrl: string := "http://localhost:3001"

  /** The build-time `VITE_API_BASE_URL`, or the local backend when it is missing or empty. */
  function BaseUrl(env: Option<string>): (url: string)
    ensures Present(env) ==> url == env.value
    ensures !Present(env) ==> url == DefaultBaseUrl
    ensures url != ""
  {
    if Present(env) then env.value else DefaultBaseUrl
  }

  /** The parts of an outgoing request the client sets. */
  datatype Config = Config(url: string, headers: map<string, string>)

  /**
   * The request interceptor: an `Authorization: Bearer <token>` header is
   * set exactly when the token is truthy; nothing else of the request changes.
   */
  function WithAuth(c: Config, token: Option<string>): (r: Config)
    ensures r.url == c.url
    ensures Present(token) ==> r.headers == c.headers["Authorization" := "Bearer " + token.value]
    ensures !Present(token) ==> r == c
  {
    if Present(token) then c.(headers := c.headers["Authorization" := "Bearer " + token.value]) else c
  }

  /** Attaching the header again with the same token changes nothing more. */
  lemma WithAuthIdempotent(c: Config, token: Option<string>)
    ensures WithAuth(WithAuth(c, token), token) == WithAuth(c, token)
  {
  }

  class Client {
    const session: Session
    /** Where the interceptor sent the browser (`window.location.href`), if anywhere. */
    var redirectedTo: Option<string>

    constructor(session: Session)
      ensures this.session == session && redirectedTo == None
    {
      this.session := session;
      redirectedTo := None;
    }

    /** Outgoing: the request with the current token attached. */
    method OnRequest(c: Config) returns (r: Config)
      ensures r == WithAuth(c, session.token)
    {
      r := WithAuth(c, session.token);
    }

    /**
     * Settled: a success passes through unchanged and a failure is rejected
     * unchanged. A 401 logs out and redirects to /login first; any other
     * failure leaves the session alone.
     */
    method OnResponse<T>(reply: Reply<T>) returns (r: Reply<T>)
      modifies this, session
      ensures r == reply
      ensures reply.Failure? && reply.status == Some(401) ==>
        session.token == None && session.user == None && redirectedTo == Some("/login")
      ensures !(reply.Failure? && reply.status == Some(401)) ==>
        session.token == old(session.token) && session.user == old(session.user) && redirectedTo == old(redirectedTo)
    {
      if reply.Failure? && reply.status == Some(401) {
        session.Logout();
        redirectedTo := Some("/login");
      }
      r := reply;
    }
  }
}
