# ktest private endpoint — Dafny model

This project models the core of the `ktest` application built on the `kong`
web framework: the authorization gate of its private endpoint
(`PrivateKontroller::kontrol`) and the route table that `main` hands to the
router.

- `wrappers.dfy` — `Option` (the session token may be absent) and `Result`
  (the identity lookup may fail).
- `kong.dfy` — the framework boundary: HTTP `Method`, JSON values, the
  `Response` model (a JSON response with a status code, or one of the
  standard error responses `Unauthorized`, `BadRequest`, `Internal`,
  `NotFound`) and the request context `Kong`, which carries the optional
  session token `kpassport`.
- `kontrollers.dfy` — the registered handlers as one datatype with their
  `address` and `method`; the private endpoint's gate `Kontrol`; `Serve`, a
  run of requests handled one after another by the same handler, used to
  state that the decision is recomputed from the store on every request.
- `application.dfy` — the five registrations of `main`, the routes they bind,
  and the facts that the routes are pairwise distinct and that `/private` is
  bound to `GET`.

The identity lookup `is_admin(passport, accounts_database)` lives in another
crate. It is modelled as a parameter `isAdmin: P -> Result<bool, E>`: the
lookup against the accounts database as it stands when the request is
handled. The gate is proved correct for every such function, so nothing
is assumed about how accounts are stored.

## Model

| member | source | states |
|---|---|---|
| `Kontrollers.Kontroller.Kontrol` | src/main.rs:73-88 | success exactly when a session is present and the lookup says admin, and then status 200 with body `{"message": "Hello World"}`; `Internal` exactly when a session is present and the lookup fails; `Unauthorized` exactly when there is no session or the lookup says not admin |
| `Kontrollers.NoPassportIsUnauthorized` | src/main.rs:74-86 | with no session the response is `Unauthorized`, whatever the identity store holds |
| `Kontrollers.OkOnlyForAdmin` | src/main.rs:73-88 | the status code is 200 if and only if a session is present and its lookup returns admin; every other input gets an error status |
| `Kontrollers.KontrolReadsOnlyCurrentLookup` | src/main.rs:73-75 | the response depends on the store only through the lookup of the current session |
| `Kontrollers.Serve` | src/main.rs:56-88 | serving a run of requests with the same handler gives, at every position, the response the gate computes from that request and the store at that moment alone; nothing carries over between requests |
| `Kontrollers.RevocationTakesEffect` | src/main.rs:74-81 | if a session's admin flag is cleared between two requests, the earlier one succeeds and the later one is `Unauthorized` |
| `Kontrollers.RepeatedRequestSameResponse` | src/main.rs:73-88 | the same request against the same store state gets the same response wherever it occurs in a run |
| `Kong.Response.StatusCode` | src/main.rs:77-86 | error responses carry a 4xx/5xx status, `Unauthorized` carries 401, so no error shares the success status 200 |
| `Application.Routes` | src/main.rs:26-53 | the route list has one (method, address) pair per registered handler, in registration order, read through the handler's `HttpMethod()` and `Address()` |
| `Application.RegisteredRoutesDistinct` | src/main.rs:26-53 | the routes of `Registrations`, the five handlers `main` registers, are pairwise distinct: `POST /accounts`, `POST /login`, `POST /blog`, `GET /private`, `POST /newsletter` |
| `Application.PrivateRouteIsGet` | src/main.rs:43-71 | the private endpoint is registered exactly once, and its `Address()` and `HttpMethod()` give `/private` and `GET`, the fields it was registered with; it is the only handler bound to `GET /private` |

## Left out

- Database construction and `connect()` on the three SQLite files (src/main.rs:17-24): I/O. The `database` fields of the handlers are therefore not part of the `Kontroller` datatype; the private handler sees the accounts database only through the lookup passed to `Kontrol`.
- `Arc<Mutex<…>>` sharing and locking: concurrency. The gate's decision does not depend on it; `Serve` models requests handled one after another.
- `is_admin`, password checking, session-cookie issuance and the handlers `CreateAccountKontroller`, `LoginKontroller`, `CreateBlogPostKontroller`, `SubscribeNewsletterKontroller`: they live in the `kong_kontrollers` crate, which is not part of this model. Only their registrations (address, method) are modelled.
- `kroute`, the server loop, the router's matching rules, `ErrorResponse`'s bodies and JSON serialisation: they live in the `kong` crate, which is not part of this model. The route table is modelled, and so is the fact that its routes are distinct; how the router searches it is not.
- `Kong.Response.StatusCode`: the codes the `kong` crate gives `BadRequest`, `NotFound` and `Internal` are not known here (the crate is not part of this model). The values 400, 404 and 500 in the model are placeholders, and the contract deliberately does not promise them: it promises only that every error carries a 4xx/5xx status and that `Unauthorized` carries 401, the code the application's tests expect.
- `Kong.Method`: the framework's method enum is not part of this model; `Get` and `Post` are the two the application uses, and any other method is represented by its name.
- The raw request inside the context (headers, body): the private endpoint reads only the session token.
- The test module (src/main.rs:91-220): it issues HTTP requests and deletes files. Its expectations for the private endpoint (401 without a session, 200 for a logged-in admin) are consequences of `Kontrol`'s contract.
