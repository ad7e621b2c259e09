# Ownership-check middleware and middleware chaining, in Dafny

This project models `main.go` of a small Go sample. The sample puts request-authorization middleware in front of an HTTP route `/account/{id}`. A request passes only when its `Authorization` header is non-empty and equal to the `id` path variable. Everyone else gets a bare 401. The sample writes this gate several ways:

- directly, as `AuthorizationMiddleware`;
- as a deliberately defective variant, `AuthorizationMiddleware_Bad`, that never compares the header with the id;
- as `AuthFunc`, a `Middleware` for a slice-based `Chain`;
- as `MWAuthFunc`, a `mux.MiddlewareFunc`.

It also has pass-through middlewares, `LoggingFunc` and `MWSayHello`, and a `Chain` function that folds a list of middlewares around a terminal handler.

Modules:

- `Http` (`http.dfy`): the net/http vocabulary as values.
  - A `Request` is the already-looked-up header value and path variable. An absent and an empty entry are the same value, `""`.
  - An `Event` is one effect, in order: `Status` (`WriteHeader`), `Body` (a write to the ResponseWriter), `Log` / `LogRequest` (console output).
  - A `Handler` is a function from a request to its trace. A `Middleware` is a function from handler to handler.
  - `Writes` keeps what reaches the client. `StatusOf` applies net/http's rule for the status code the client sees: the first `WriteHeader` wins, a body written first implies 200, and a handler that writes nothing answers 200.
- `Gates` (`gates.dfy`): every middleware of `main.go`.
  - Each middleware does some work first, then either returns or calls `next` once as its last step. A `Verdict` per request records which: `Next(before)` or `Stop(response)`. `Around` turns the verdict into the wrapped handler.
  - "`next` is not invoked" is stated as "the trace does not depend on `next`".
  - The terminal handlers `GetAccount` and `SayHello` write their fixed bodies.
- `Chaining` (`chain.dfy`): `Chain` as a method with the source's loop, proved equal to the fold `Fold`. The ordering and short-circuit theorems are stated over lists of the source's own middlewares (`Stage`). The chained handler is proved equal to a reference pipeline semantics, `Run` (`ChainRunsLastFirst`).
- `Servers` (`servers.dfy`): the handler that each `main_*` function installs on the route, and what it answers.

`Chain` applies `f = m(f)` in list order, so the last middleware listed is outermost and runs first, as the comment at main.go:168 says. `ChainLastOutermost`, `ChainRunsLastFirst` and `MainChainLogsFirst` state this.

## Model

| member | source | states |
|---|---|---|
| `Gates.AuthorizationRejectsMissing` | main.go:17-22 | an empty Authorization header gets exactly "missing auth token" on the console and a bare 401, whatever the id and whatever `next` is (so `next` does not run) |
| `Gates.AuthorizationRejectsMismatch` | main.go:23-30 | a non-empty header that differs from the id gets exactly "ownership not matched" and a bare 401; `next` does not run |
| `Gates.AuthorizationPassesOwner` | main.go:26-31 | when the header is non-empty and equals the id, the output is exactly `next`'s output on the same request; the gate writes nothing itself |
| `Gates.AuthorizationDecision` | main.go:15-33 | the gate hands over to `next` if and only if the header is non-empty and equals the id; when it hands over it emits nothing first; when it refuses, the client receives exactly one write, a 401 |
| `Gates.AuthFuncAgrees` | main.go:131-150 | AuthFunc hands over exactly when AuthorizationMiddleware does, and the client receives the same writes from both, for every request and every `next`; the traces are identical on refusal, and on handing over AuthFunc's trace is AuthorizationMiddleware's preceded by the console line "tokenID: " + id |
| `Gates.MWAuthFuncAgrees` | main.go:179-199 | MWAuthFunc hands over exactly when AuthorizationMiddleware does, and the client receives the same writes from both; the traces are identical on refusal, and on handing over MWAuthFunc's trace is AuthorizationMiddleware's preceded by the console line "tokenID: " + id |
| `Gates.AuthorizationBadDecision` | main.go:35-47 | the defective gate hands over if and only if the header is non-empty; when it refuses, the client receives a single 401 |
| `Gates.AuthorizationBadAgreesOnMissing` | main.go:37-42 | on an empty header the defective gate behaves exactly like the good one |
| `Gates.AuthorizationBadAdmitsStrangers` | main.go:43-45 | the defective gate admits everyone the good one admits; for any non-empty header its trace is the console line "tokenID: " + id followed by `next`'s; for a non-empty header naming another account it sends the client exactly what `next` writes, while the good gate answers a bare 401 |
| `Gates.AuthorizationBadWitness` | main.go:35-47 | header "123" on account "456" is admitted by the defective gate and refused by the good one |
| `Gates.LoggingPassesThrough` | main.go:114-129 | LoggingFunc prints the request, then gives exactly `next`'s output; it never short-circuits and the client's writes are `next`'s |
| `Gates.MWSayHelloAlwaysGreets` | main.go:201-208 | MWSayHello always writes "Hello client\n" and then calls `next`; the client sees status 200 whatever `next` writes after that |
| `Chaining.Chain` | main.go:157-162 | the loop `f = m(f)` over the middlewares in list order returns the fold in which the last middleware wraps the chain of the others |
| `Chaining.ChainEmpty` | main.go:157-161 | with no middlewares the terminal handler comes back unchanged |
| `Chaining.ChainLastOutermost` | main.go:158-160 | appending a middleware to the list wraps it around everything listed before it |
| `Chaining.ChainAppend` | main.go:157-162 | chaining a list in two parts equals chaining the concatenated list |
| `Chaining.ChainRunsLastFirst` | main.go:157-169 | serving a chain of the source's middlewares runs them from the last listed to the first, then the terminal handler, as the pipeline semantics `Run` defines |
| `Chaining.ChainAllPass` | main.go:157-162 | when every middleware hands over, the terminal handler runs once, after every middleware's own output in execution order (last listed first) |
| `Chaining.ChainShortCircuits` | main.go:157-162 | when the middleware at position k refuses, the middlewares listed before it and the terminal handler never run: the trace is that of `ms[k..]` around an arbitrary handler |
| `Servers.MainBadServesEveryone` | main.go:49-68 | with no gate, every caller receives the account body with status 200 |
| `Servers.MainGoodServesOnlyOwner` | main.go:82-88 | behind AuthorizationMiddleware, the owner receives the account body with 200 and every other caller a bare 401 |
| `Servers.MainBad2ServesAnyHeader` | main.go:90-105 | behind the defective gate, any non-empty header receives the account body with 200, owner or not; only an empty header gets 401 |
| `Servers.MainChain` | main.go:165-170 | the handler of main_chain is the fold of `[AuthFunc(), LoggingFunc()]` around SayHello |
| `Servers.MainChainLogsFirst` | main.go:165-170 | in main_chain the logging stage, listed last, prints the request before the authorization check runs; the owner gets "Hello client\n" with 200, everyone else a bare 401 |
| `Servers.MainUsesChainServesOnlyOwner` | main.go:211-219 | SayHello behind MWAuthFunc gives the owner the greeting with 200 and everyone else a bare 401 |

## Left out

- The `main`, `main_bad`, `main_good`, `main_bad2`, `main_chain` and `main_uses_chain` bootstraps: the router, route registration and `http.ListenAndServe` are server plumbing. The `Servers` module models only the handler each one puts on the route.
- gorilla/mux route matching and `mux.Vars`: the model receives the `id` variable already extracted.
- `Servers.MainUsesChainServesOnlyOwner`: assumes that `r.Use` wraps the matched route's handler in the registered middleware. The GET-only method restriction (`.Methods(http.MethodGet)`) is not modelled.
- The `*mux.Router` parameter of `MWAuthFunc` and `MWSayHello` is not modelled; neither body uses it.
- The header lookup is not modelled: case-insensitive name canonicalisation and the choice among several values of one header are foreign calls. The header is the already-looked-up string.
- `LoggingFunc`'s deferred `recover`: it stops every panic from a later handler, writes 500 only when the recovered value is an `error`, and silently swallows any other panic value. Go panics have no counterpart in this sequential model. `LoggingFunc` is a pass-through that records the request on the console.
- Console output (`fmt.Println`) is recorded as `Log` / `LogRequest` events so that ordering can be stated. What is proved about it: the exact lines AuthorizationMiddleware prints on refusal (`AuthorizationRejectsMissing`, `AuthorizationRejectsMismatch`), which the defective gate shares on an empty header (`AuthorizationBadAgreesOnMissing`); the "tokenID: " + id line that AuthFunc, MWAuthFunc and the defective gate print before calling `next` (`AuthFuncAgrees`, `MWAuthFuncAgrees`, `AuthorizationBadAdmitsStrangers`); the `LogRequest` line of LoggingFunc (`LoggingPassesThrough`); and that `LogRequest` comes first in `MainChainLogsFirst`. AuthFunc's and MWAuthFunc's refusal lines equal AuthorizationMiddleware's through the same lemmas. The format Go uses to print a request is not modelled.
- The two Go middleware types are merged into one: `Middleware` (`func(http.HandlerFunc) http.HandlerFunc`, the type of `LoggingFunc()` and `AuthFunc()`) and `func(http.Handler) http.Handler` (`AuthorizationMiddleware`, `AuthorizationMiddleware_Bad` and the results of `MWAuthFunc`, `MWSayHello`). A `Stage` list can therefore describe chains that Go's `Chain` does not accept. The chain theorems cover those too.
- `GetAccount` and `SayHello` are terminal handlers with fixed bodies. I/O errors from the writes are not modelled.
- The static-analysis (taint) query of the repository is not part of this model. It is not executable logic.
