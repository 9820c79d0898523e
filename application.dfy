/**
 * The application's route table: the five handlers handed to the router at
 * start-up, in registration order, and the (method, address) routes they bind.
 */
module Application {
  import opened Kong
  import opened Kontrollers

  /** A route: the HTTP method and the exact address a handler answers. */
  type Route = (Method, string)

  /** The handlers registered at start-up, in the order the router receives them. */
  function Registrations(): seq<Kontroller> {
    [
      CreateAccountKontroller("/accounts", Post),
      LoginKontroller("/login", Post),
      CreateBlogPostKontroller("/blog", Post),
      PrivateKontroller("/private", Get),
      SubscribeNewsletterKontroller("/newsletter", Post)
    ]
  }

  /** The route a handler binds, as the router reads it through `HttpMethod()` and `Address()`. */
  function RouteOf(k: Kontroller): Route {
    (k.HttpMethod(), k.Address())
  }

  /** The routes bound by a list of handlers, position by position. */
  function Routes(ks: seq<Kontroller>): (rs: seq<Route>)
    ensures |rs| == |ks|
    ensures forall i :: 0 <= i < |ks| ==> rs[i] == (ks[i].HttpMethod(), ks[i].Address())
  {
    if ks == [] then [] else [RouteOf(ks[0])] + Routes(ks[1..])
  }

  /** The five registered routes are pairwise distinct, so under exact
      (method, address) matching every route selects exactly one handler. */
  lemma RegisteredRoutesDistinct()
    ensures forall i, j :: 0 <= i < j < |Registrations()| ==>
              Routes(Registrations())[i] != Routes(Registrations())[j]
  {
  }

  /** The private endpoint is registered exactly once, at `/private` for `GET`,
      and `GET /private` is bound to it and to nothing else. */
  lemma PrivateRouteIsGet()
    ensures forall i :: 0 <= i < |Registrations()| ==>
              (Registrations()[i].PrivateKontroller? <==> i == 3)
    ensures Registrations()[3].Address() == "/private"
    ensures Registrations()[3].HttpMethod() == Get
    ensures forall i :: 0 <= i < |Registrations()| && Routes(Registrations())[i] == (Get, "/private") ==>
              Registrations()[i].PrivateKontroller?
  {
  }
}
