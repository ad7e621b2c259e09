/** The handlers that the main_* functions of main.go put behind the route
    /account/{id}, and what each of them answers. */
module Servers {
  import opened Http
  import opened Gates
  import opened Chaining

  /** main_bad: the account handler with no gate answers every caller. */
  lemma MainBadServesEveryone(r: Request)
    ensures Writes(GetAccount(r)) == [Body(AccountJson)]
    ensures StatusOf(GetAccount(r)) == StatusOK
  {
  }

  /** main_good: only the owner gets the account; everyone else gets a bare 401. */
  lemma MainGoodServesOnlyOwner(r: Request)
    ensures Writes(AuthorizationMiddleware(GetAccount)(r)) ==
      if Owns(r) then [Body(AccountJson)] else [Status(Unauthorized)]
    ensures StatusOf(AuthorizationMiddleware(GetAccount)(r)) ==
      if Owns(r) then StatusOK else Unauthorized
  {
    if Owns(r) {
      AuthorizationPassesOwner(GetAccount, r);
    } else if r.auth == "" {
      AuthorizationRejectsMissing(GetAccount, r);
    } else {
      AuthorizationRejectsMismatch(GetAccount, r);
    }
  }

  /** main_bad2: any non-empty header gets the account, owner or not. */
  lemma MainBad2ServesAnyHeader(r: Request)
    ensures Writes(AuthorizationMiddlewareBad(GetAccount)(r)) ==
      if r.auth != "" then [Body(AccountJson)] else [Status(Unauthorized)]
    ensures StatusOf(AuthorizationMiddlewareBad(GetAccount)(r)) ==
      if r.auth != "" then StatusOK else Unauthorized
  {
    if r.auth != "" {
      WritesIgnoreConsole([Log(TokenLine(r.id))], GetAccount(r));
    }
  }

  /** The handler of main_chain: `Chain(SayHello, AuthFunc(), LoggingFunc())`. */
  method MainChain() returns (h: Handler)
    ensures h == Fold(SayHello, [AuthFunc(), LoggingFunc()])
  {
    h := Chain(SayHello, [AuthFunc(), LoggingFunc()]);
  }

  /** In main_chain the logging stage, listed last, is entered before the
      authorization check; the greeting reaches the owner only. */
  lemma {:induction false} MainChainLogsFirst(r: Request)
    ensures var t := Fold(SayHello, [AuthFunc(), LoggingFunc()])(r);
      t != [] && t[0] == LogRequest(r) &&
      Writes(t) == (if Owns(r) then [Body(Hello)] else [Status(Unauthorized)]) &&
      StatusOf(t) == (if Owns(r) then StatusOK else Unauthorized)
  {
    var ss := [Auth, Logging];
    assert Stages(ss) == [AuthFunc(), LoggingFunc()];
    ChainRunsLastFirst(SayHello, ss, r);
    assert Reversed(ss) == [Logging, Auth];
    var t := Fold(SayHello, [AuthFunc(), LoggingFunc()])(r);
    var inner := Run([Auth], SayHello, r);
    assert t == [LogRequest(r)] + inner;
    WritesIgnoreConsole([LogRequest(r)], inner);
    if Owns(r) {
      assert inner == [Log(TokenLine(r.id))] + SayHello(r);
      WritesIgnoreConsole([Log(TokenLine(r.id))], SayHello(r));
    }
  }

  /** main_uses_chain: the greeting behind MWAuthFunc reaches the owner only. */
  lemma MainUsesChainServesOnlyOwner(r: Request)
    ensures Writes(MWAuthFunc()(SayHello)(r)) ==
      if Owns(r) then [Body(Hello)] else [Status(Unauthorized)]
    ensures StatusOf(MWAuthFunc()(SayHello)(r)) ==
      if Owns(r) then StatusOK else Unauthorized
  {
    InstantiateServes(MWAuth, SayHello, r);
    if Owns(r) {
      assert MWAuthCheck(r) == Next([Log(TokenLine(r.id))]);
      WritesIgnoreConsole([Log(TokenLine(r.id))], SayHello(r));
    }
  }
}
