/**
 * The handlers ("kontrollers") registered by the application. Each binds one
 * (method, address) route; the one defined in the application itself is the
 * private endpoint, whose handler is an authorization gate in front of a
 * fixed greeting. The other four come from a separate crate and only their
 * routes are modelled.
 */
module Kontrollers {
  import opened Wrappers
  import opened Kong

  /** The body of the private endpoint's success response: {"message": "Hello World"}. */
  function HelloWorld(): Json {
    JObject([("message", JString("Hello World"))])
  }

  /**
   * A registered handler. The shared account/blog/newsletter database handles
   * are not fields here: the only thing the private endpoint reads from its
   * database is the identity lookup, passed to `Kontrol` as it stands at the
   * time of the call.
   */
  datatype Kontroller =
    | CreateAccountKontroller(address: string, httpMethod: Method)
    | LoginKontroller(address: string, httpMethod: Method)
    | CreateBlogPostKontroller(address: string, httpMethod: Method)
    | PrivateKontroller(address: string, httpMethod: Method)
    | SubscribeNewsletterKontroller(address: string, httpMethod: Method)
  {
    /** The endpoint address this handler was registered with. */
    function Address(): string {
      address
    }

    /** The HTTP method this handler was registered with. */
    function HttpMethod(): Method {
      httpMethod
    }

    /**
     * The private endpoint's handler: the authorization gate.
     * `isAdmin` is the identity lookup against the accounts database as it is
     * when the request is handled; it either fails or says whether the session
     * belongs to an administrator.
     *   - no session                 -> Unauthorized
     *   - lookup fails               -> Internal
     *   - lookup says not an admin   -> Unauthorized
     *   - lookup says admin          -> 200 {"message": "Hello World"}
     */
    function Kontrol<P, E>(kong: Kong<P>, isAdmin: P -> Result<bool, E>): (r: Response)
      requires PrivateKontroller?
      // success exactly for an administrator's session, and then the greeting
      ensures r.JsonResponse? <==>
                kong.kpassport.Some? && isAdmin(kong.kpassport.value) == Success(true)
      ensures r.JsonResponse? ==> r.StatusCode() == 200 && r.body == HelloWorld()
      // a lookup fault is reported as Internal, and nothing else is
      ensures r == ErrorResponse(Internal) <==>
                kong.kpassport.Some? && isAdmin(kong.kpassport.value).Failure?
      // a policy denial (no session, or not an admin) is Unauthorized, and nothing else is
      ensures r == ErrorResponse(Unauthorized) <==>
                kong.kpassport.None? || isAdmin(kong.kpassport.value) == Success(false)
    {
      match kong.kpassport
      case Some(k) =>
        (match isAdmin(k)
         case Success(admin) =>
           if admin then JsonResponse(200, HelloWorld()) else ErrorResponse(Unauthorized)
         case Failure(_) => ErrorResponse(Internal))
      case None => ErrorResponse(Unauthorized)
    }
  }

  /** Without a session the gate denies, whatever the identity store holds. */
  lemma NoPassportIsUnauthorized<P, E>(k: Kontroller, isAdmin: P -> Result<bool, E>)
    requires k.PrivateKontroller?
    ensures k.Kontrol(Kong(None), isAdmin) == ErrorResponse(Unauthorized)
  {
  }

  /** The status code is 200 exactly when the session belongs to an administrator;
      every other input gets an error status. */
  lemma OkOnlyForAdmin<P, E>(k: Kontroller, kong: Kong<P>, isAdmin: P -> Result<bool, E>)
    requires k.PrivateKontroller?
    ensures k.Kontrol(kong, isAdmin).StatusCode() == 200 <==>
              kong.kpassport.Some? && isAdmin(kong.kpassport.value) == Success(true)
  {
  }

  /** The gate reads the identity store only through the lookup of the current
      session: two stores that agree on it give the same response. */
  lemma KontrolReadsOnlyCurrentLookup<P, E>(
    k: Kontroller, kong: Kong<P>, isAdmin: P -> Result<bool, E>, isAdmin': P -> Result<bool, E>)
    requires k.PrivateKontroller?
    requires kong.kpassport.Some? ==> isAdmin(kong.kpassport.value) == isAdmin'(kong.kpassport.value)
    ensures k.Kontrol(kong, isAdmin) == k.Kontrol(kong, isAdmin')
  {
  }

  /** One request as the private endpoint sees it: its context and the identity
      lookup against the store as it is when that request is handled. */
  datatype Request<!P, E> = Request(kong: Kong<P>, isAdmin: P -> Result<bool, E>)

  /**
   * A run of requests served one after another by the same handler.
   * Each response is computed from its own request and the store at that time
   * alone: nothing carries over from earlier requests (no cached decision).
   * This holds by construction: the private handler has no field that could
   * cache a decision, `Kontrol` is a function of the context and the current
   * lookup, and `Serve` maps it over the run. The lemmas below are corollaries.
   */
  function Serve<P, E>(k: Kontroller, requests: seq<Request<P, E>>): (rs: seq<Response>)
    requires k.PrivateKontroller?
    ensures |rs| == |requests|
    ensures forall i :: 0 <= i < |requests| ==>
              rs[i] == k.Kontrol(requests[i].kong, requests[i].isAdmin)
  {
    if requests == [] then []
    else
      var last := requests[|requests| - 1];
      Serve(k, requests[..|requests| - 1]) + [k.Kontrol(last.kong, last.isAdmin)]
  }

  /** Revocation takes effect on the very next request: once the session's
      administrator flag is cleared, the same session is denied. */
  lemma RevocationTakesEffect<P, E>(k: Kontroller, requests: seq<Request<P, E>>, i: nat, j: nat)
    requires k.PrivateKontroller?
    requires i < j < |requests|
    requires requests[i].kong.kpassport.Some?
    requires requests[j].kong == requests[i].kong
    requires requests[i].isAdmin(requests[i].kong.kpassport.value) == Success(true)
    requires requests[j].isAdmin(requests[i].kong.kpassport.value) == Success(false)
    ensures Serve(k, requests)[i] == JsonResponse(200, HelloWorld())
    ensures Serve(k, requests)[j] == ErrorResponse(Unauthorized)
  {
  }

  /** Authorization leaves no trace: the same request against the same store
      state gets the same response wherever it occurs in a run. */
  lemma RepeatedRequestSameResponse<P, E>(k: Kontroller, requests: seq<Request<P, E>>, i: nat, j: nat)
    requires k.PrivateKontroller?
    requires i < |requests| && j < |requests|
    requires requests[j].kong == requests[i].kong
    requires requests[i].kong.kpassport.Some? ==>
               requests[j].isAdmin(requests[i].kong.kpassport.value) ==
               requests[i].isAdmin(requests[i].kong.kpassport.value)
    ensures Serve(k, requests)[i] == Serve(k, requests)[j]
  {
  }
}
