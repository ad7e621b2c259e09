/** The middlewares of main.go and the two terminal handlers they protect.
    Every middleware there does some work first and then either returns
    (short-circuits) or calls `next` exactly once as its last step; a
    `Verdict` records which, and `Around` turns it into the wrapped handler. */
module Gates {
  import opened Http

  /** What a middleware does with one request before `next` would run:
      `Next(before)` emits `before` and then hands over to `next`;
      `Stop(response)` emits `response` and returns without calling `next`. */
  datatype Verdict = Next(before: Trace) | Stop(response: Trace)

  /** The handler a middleware builds around `next`, applied to `r`. */
  function Around(v: Verdict, next: Handler, r: Request): Trace {
    match v
    case Next(before) => before + next(r)
    case Stop(response) => response
  }

  /** The ownership policy the sample sets out to enforce: a credential is
      present and names the account of the path. */
  predicate Owns(r: Request) {
    r.auth != "" && r.auth == r.id
  }

  const MissingToken: string := "missing auth token"
  const NotMatched: string := "ownership not matched"
  const AccountJson: string := "{\"message\": \"hello world..\"}"
  const Hello: string := "Hello client\n"

  /** The console line the gates print on the way to `next`. */
  function TokenLine(id: string): string {
    "tokenID: " + id
  }

  // ---------------------------------------------------------------------------
  // The decisions, one per middleware

  /** AuthorizationMiddleware: an empty header is refused, so is a header
      that differs from the path id; otherwise hand over silently. */
  function AuthorizationCheck(r: Request): Verdict {
    if |r.auth| == 0 then Stop([Log(MissingToken), Status(Unauthorized)])
    else if r.auth != r.id then Stop([Log(NotMatched), Status(Unauthorized)])
    else Next([])
  }

  /** AuthorizationMiddleware_Bad: only an empty header is refused; the path
      id is printed and never compared. */
  function AuthorizationCheckBad(r: Request): Verdict {
    if |r.auth| == 0 then Stop([Log(MissingToken), Status(Unauthorized)])
    else Next([Log(TokenLine(r.id))])
  }

  /** AuthFunc: the same two refusals, and the matched id is printed. */
  function AuthFuncCheck(r: Request): Verdict {
    if |r.auth| == 0 then Stop([Log(MissingToken), Status(Unauthorized)])
    else if r.auth != r.id then Stop([Log(NotMatched), Status(Unauthorized)])
    else Next([Log(TokenLine(r.id))])
  }

  /** MWAuthFunc: written out separately in the source, with AuthFunc's steps. */
  function MWAuthCheck(r: Request): Verdict {
    if |r.auth| == 0 then Stop([Log(MissingToken), Status(Unauthorized)])
    else if r.auth != r.id then Stop([Log(NotMatched), Status(Unauthorized)])
    else Next([Log(TokenLine(r.id))])
  }

  /** LoggingFunc: print the request, then hand over. */
  function LoggingCheck(r: Request): Verdict {
    Next([LogRequest(r)])
  }

  /** MWSayHello: greet the client, then hand over. */
  function MWSayHelloCheck(r: Request): Verdict {
    Next([Body(Hello)])
  }

  // ---------------------------------------------------------------------------
  // The middlewares and the terminal handlers

  function AuthorizationMiddleware(next: Handler): Handler {
    (r: Request) => Around(AuthorizationCheck(r), next, r)
  }

  function AuthorizationMiddlewareBad(next: Handler): Handler {
    (r: Request) => Around(AuthorizationCheckBad(r), next, r)
  }

  function LoggingFunc(): Middleware {
    (next: Handler) => (r: Request) => Around(LoggingCheck(r), next, r)
  }

  function AuthFunc(): Middleware {
    (next: Handler) => (r: Request) => Around(AuthFuncCheck(r), next, r)
  }

  function MWAuthFunc(): Middleware {
    (next: Handler) => (r: Request) => Around(MWAuthCheck(r), next, r)
  }

  function MWSayHello(): Middleware {
    (next: Handler) => (r: Request) => Around(MWSayHelloCheck(r), next, r)
  }

  /** The protected account handler: a fixed JSON body. */
  function GetAccount(r: Request): Trace {
    [Body(AccountJson)]
  }

  /** The greeting handler: a fixed plain-text body. */
  function SayHello(r: Request): Trace {
    [Body(Hello)]
  }

  // ---------------------------------------------------------------------------
  // Every middleware of main.go, of either Go middleware type, as data, so
  // that lists of them can be reasoned about

  datatype Stage = Logging | Auth | MWAuth | MWHello | Authorization | AuthorizationBad

  function Check(s: Stage, r: Request): Verdict {
    match s
    case Logging => LoggingCheck(r)
    case Auth => AuthFuncCheck(r)
    case MWAuth => MWAuthCheck(r)
    case MWHello => MWSayHelloCheck(r)
    case Authorization => AuthorizationCheck(r)
    case AuthorizationBad => AuthorizationCheckBad(r)
  }

  function Instantiate(s: Stage): Middleware {
    match s
    case Logging => LoggingFunc()
    case Auth => AuthFunc()
    case MWAuth => MWAuthFunc()
    case MWHello => MWSayHello()
    case Authorization => AuthorizationMiddleware
    case AuthorizationBad => AuthorizationMiddlewareBad
  }

  /** Every stage's middleware serves a request by its verdict. */
  lemma InstantiateServes(s: Stage, next: Handler, r: Request)
    ensures Instantiate(s)(next)(r) == Around(Check(s, r), next, r)
  {
  }

  // ---------------------------------------------------------------------------
  // AuthorizationMiddleware

  /** An empty header is refused with a bare 401, whatever the id and
      whatever `next` is: `next` does not run. */
  lemma AuthorizationRejectsMissing(next: Handler, r: Request)
    requires r.auth == ""
    ensures AuthorizationMiddleware(next)(r) == [Log(MissingToken), Status(Unauthorized)]
    ensures Writes(AuthorizationMiddleware(next)(r)) == [Status(Unauthorized)]
  {
  }

  /** A header naming another account is refused with a bare 401; `next`
      does not run. */
  lemma AuthorizationRejectsMismatch(next: Handler, r: Request)
    requires r.auth != "" && r.auth != r.id
    ensures AuthorizationMiddleware(next)(r) == [Log(NotMatched), Status(Unauthorized)]
    ensures Writes(AuthorizationMiddleware(next)(r)) == [Status(Unauthorized)]
  {
  }

  /** The owner is served exactly what `next` serves; the gate writes nothing itself. */
  lemma AuthorizationPassesOwner(next: Handler, r: Request)
    requires Owns(r)
    ensures AuthorizationMiddleware(next)(r) == next(r)
  {
  }

  /** The gate hands over if and only if the caller owns the account, and
      refuses with exactly one write, a 401. */
  lemma AuthorizationDecision(r: Request)
    ensures AuthorizationCheck(r).Next? <==> Owns(r)
    ensures AuthorizationCheck(r).Next? ==> AuthorizationCheck(r).before == []
    ensures AuthorizationCheck(r).Stop? ==> Writes(AuthorizationCheck(r).response) == [Status(Unauthorized)]
  {
  }

  // ---------------------------------------------------------------------------
  // The other gate variants against AuthorizationMiddleware

  /** AuthFunc decides as AuthorizationMiddleware does, and the client
      receives the same writes from both; they differ only in the console
      line AuthFunc prints on the way to `next`. */
  lemma {:induction false} AuthFuncAgrees(next: Handler, r: Request)
    ensures AuthFuncCheck(r).Next? <==> AuthorizationCheck(r).Next?
    ensures Owns(r) ==> AuthFunc()(next)(r) == [Log(TokenLine(r.id))] + AuthorizationMiddleware(next)(r)
    ensures !Owns(r) ==> AuthFunc()(next)(r) == AuthorizationMiddleware(next)(r)
    ensures Writes(AuthFunc()(next)(r)) == Writes(AuthorizationMiddleware(next)(r))
  {
    if Owns(r) {
      WritesIgnoreConsole([Log(TokenLine(r.id))], next(r));
      assert AuthFunc()(next)(r) == [Log(TokenLine(r.id))] + next(r);
      assert AuthorizationMiddleware(next)(r) == [] + next(r) == next(r);
    } else {
      assert AuthFunc()(next)(r) == AuthorizationMiddleware(next)(r);
    }
  }

  /** MWAuthFunc, the router-level variant, decides as AuthorizationMiddleware
      does, and the client receives the same writes from both; they differ
      only in the console line MWAuthFunc prints on the way to `next`. */
  lemma {:induction false} MWAuthFuncAgrees(next: Handler, r: Request)
    ensures MWAuthCheck(r).Next? <==> AuthorizationCheck(r).Next?
    ensures Owns(r) ==> MWAuthFunc()(next)(r) == [Log(TokenLine(r.id))] + AuthorizationMiddleware(next)(r)
    ensures !Owns(r) ==> MWAuthFunc()(next)(r) == AuthorizationMiddleware(next)(r)
    ensures Writes(MWAuthFunc()(next)(r)) == Writes(AuthorizationMiddleware(next)(r))
  {
    if Owns(r) {
      WritesIgnoreConsole([Log(TokenLine(r.id))], next(r));
      assert MWAuthFunc()(next)(r) == [Log(TokenLine(r.id))] + next(r);
      assert AuthorizationMiddleware(next)(r) == [] + next(r) == next(r);
    } else {
      assert MWAuthFunc()(next)(r) == AuthorizationMiddleware(next)(r);
    }
  }

  /** The defective gate refuses only an empty header. */
  lemma AuthorizationBadDecision(r: Request)
    ensures AuthorizationCheckBad(r).Next? <==> r.auth != ""
    ensures AuthorizationCheckBad(r).Stop? ==> Writes(AuthorizationCheckBad(r).response) == [Status(Unauthorized)]
  {
  }

  /** On an empty header the two gates behave identically. */
  lemma AuthorizationBadAgreesOnMissing(next: Handler, r: Request)
    requires r.auth == ""
    ensures AuthorizationMiddlewareBad(next)(r) == AuthorizationMiddleware(next)(r)
  {
  }

  /** The defective gate admits everyone the good one admits, and also every
      caller with some non-empty header for someone else's account, whom the
      good gate refuses with 401. On the way to `next` it prints the path id. */
  lemma AuthorizationBadAdmitsStrangers(next: Handler, r: Request)
    ensures Owns(r) ==> AuthorizationCheckBad(r).Next?
    ensures r.auth != "" ==> AuthorizationMiddlewareBad(next)(r) == [Log(TokenLine(r.id))] + next(r)
    ensures r.auth != "" && r.auth != r.id ==>
      Writes(AuthorizationMiddlewareBad(next)(r)) == Writes(next(r)) &&
      Writes(AuthorizationMiddleware(next)(r)) == [Status(Unauthorized)]
  {
    WritesIgnoreConsole([Log(TokenLine(r.id))], next(r));
    if r.auth != "" {
      assert AuthorizationMiddlewareBad(next)(r) == [Log(TokenLine(r.id))] + next(r);
    }
  }

  /** A concrete intruder: header 123 on account 456. */
  lemma AuthorizationBadWitness()
    ensures var r := Request("123", "456");
      AuthorizationCheckBad(r).Next? && AuthorizationCheck(r).Stop? && !Owns(r)
  {
  }

  // ---------------------------------------------------------------------------
  // The pass-through middlewares

  /** LoggingFunc never short-circuits and sends nothing to the client itself. */
  lemma LoggingPassesThrough(next: Handler, r: Request)
    ensures LoggingFunc()(next)(r) == [LogRequest(r)] + next(r)
    ensures Writes(LoggingFunc()(next)(r)) == Writes(next(r))
  {
    WritesIgnoreConsole([LogRequest(r)], next(r));
  }

  /** MWSayHello always greets and then calls `next`; since the greeting is a
      write, the status is 200 whatever `next` writes afterwards. */
  lemma MWSayHelloAlwaysGreets(next: Handler, r: Request)
    ensures MWSayHello()(next)(r) == [Body(Hello)] + next(r)
    ensures Writes(MWSayHello()(next)(r)) == [Body(Hello)] + Writes(next(r))
    ensures StatusOf(MWSayHello()(next)(r)) == StatusOK
  {
    WritesAppend([Body(Hello)], next(r));
  }
}
