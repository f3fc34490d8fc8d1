/** A model of a credential-provider contract: a provider reports a client id
    and an access token that is either usable or in need of refreshing, and a
    refresh decision procedure turns "needs refresh" into a fresh token or a
    wrapped refresh error.

    The two capability interfaces of the source are modelled as dictionaries
    of functions over a provider state `S` (one record per interface, the
    second holding the first as its super-interface). A concrete provider is a
    state type together with such a dictionary. */
module Auth {

  datatype Result<+T, +E> = Ok(value: T) | Err(error: E)

  /** The fixed error kind the static provider's refresh fails with. It
      carries no data. */
  datatype AccessTokenExpired = AccessTokenExpired

  // ---------------------------------------------------------------------
  // Client identity
  // ---------------------------------------------------------------------

  /** The capability of answering "who is this credential for". */
  datatype ClientIdProvider<!S> = ClientIdProvider(clientId: S -> string)

  /** The simplest client id provider: a wrapper around the id string. */
  datatype ClientId = ClientId(id: string)

  /** Builds a `ClientId` wrapper; its provider reports exactly the string it
      was built from. */
  function NewClientId(clientId: string): (c: ClientId)
    ensures ClientIdImpl().clientId(c) == clientId
  {
    ClientId(clientId)
  }

  /** `ClientId` as a client id provider: it reports the wrapped string. */
  function ClientIdImpl(): (p: ClientIdProvider<ClientId>)
    ensures forall c: ClientId :: p.clientId(c) == c.id
  {
    ClientIdProvider((c: ClientId) => c.id)
  }

  // ---------------------------------------------------------------------
  // Credential state
  // ---------------------------------------------------------------------

  /** A snapshot of a provider's credential: a usable token, or a signal that
      the caller must refresh before going on. */
  datatype AccessToken = Token(token: string) | NeedsRefresh

  /** Converting a string into a credential always gives a usable token
      holding that string. */
  function AccessTokenFrom(token: string): (a: AccessToken)
    ensures !a.NeedsRefresh?
    ensures a.Token? && a.token == token
  {
    Token(token)
  }

  // ---------------------------------------------------------------------
  // Access token providers
  // ---------------------------------------------------------------------

  /** What one refresh attempt yields: the new token or the provider's own
      error, together with the provider state afterwards (a provider that
      caches refreshed tokens changes its state here; others leave it). */
  datatype Refreshed<S, +E> = Refreshed(result: Result<string, E>, next: S)

  /** The access token capability. It extends the client id capability.
      `accessToken` is a pure read of the state; `refreshToken` is the one
      operation of the interface allowed to change the state. `elapse` is not
      an operation of the interface: it stands for the clock the provider
      consults, and says how the state moves when time passes (a stored token
      reaching its expiry makes `accessToken` report `NeedsRefresh`). */
  datatype AccessTokenProvider<!S, E> = AccessTokenProvider(
    base: ClientIdProvider<S>,
    accessToken: S -> AccessToken,
    refreshToken: S -> Refreshed<S, E>,
    elapse: S -> S)
  {
    function ClientIdOf(self: S): string
    {
      base.clientId(self)
    }
  }

  // ---------------------------------------------------------------------
  // The static reference provider
  // ---------------------------------------------------------------------

  /** A provider holding a fixed client id and a fixed token. */
  datatype AccessTokenOnly = AccessTokenOnly(clientId: string, token: string)

  /** Builds a static provider from a client id and a token. */
  function NewAccessTokenOnly(clientId: string, accessToken: string): (p: AccessTokenOnly)
    ensures AccessTokenOnlyImpl().ClientIdOf(p) == clientId
    ensures AccessTokenOnlyImpl().accessToken(p) == Token(accessToken)
  {
    AccessTokenOnly(clientId, accessToken)
  }

  /** The static provider's client id: the one it was built with. */
  function AccessTokenOnlyClientId(self: AccessTokenOnly): (id: string)
    ensures id == self.clientId
  {
    self.clientId
  }

  /** The static provider never asks for a refresh: it always reports its
      fixed token. */
  function AccessTokenOnlyAccessToken(self: AccessTokenOnly): (a: AccessToken)
    ensures !a.NeedsRefresh?
    ensures a == Token(self.token)
  {
    Token(self.token)
  }

  /** The static provider cannot refresh: every attempt fails with
      `AccessTokenExpired` and leaves the provider as it was. */
  function AccessTokenOnlyRefreshToken(self: AccessTokenOnly): (r: Refreshed<AccessTokenOnly, AccessTokenExpired>)
    ensures r.result == Err(AccessTokenExpired)
    ensures r.next == self
  {
    Refreshed(Err(AccessTokenExpired), self)
  }

  /** `AccessTokenOnly` as an access token provider. Its token has no expiry,
      so the passing of time leaves it as it is. */
  function AccessTokenOnlyImpl(): (p: AccessTokenProvider<AccessTokenOnly, AccessTokenExpired>)
    ensures forall s: AccessTokenOnly :: p.ClientIdOf(s) == s.clientId
    ensures forall s: AccessTokenOnly :: p.accessToken(s) == Token(s.token)
    ensures forall s: AccessTokenOnly :: p.refreshToken(s) == Refreshed(Err(AccessTokenExpired), s)
    ensures forall s: AccessTokenOnly :: p.elapse(s) == s
  {
    AccessTokenProvider(
      ClientIdProvider(AccessTokenOnlyClientId),
      AccessTokenOnlyAccessToken,
      AccessTokenOnlyRefreshToken,
      (s: AccessTokenOnly) => s)
  }

  // ---------------------------------------------------------------------
  // Calls made on a provider, and a session of them
  // ---------------------------------------------------------------------

  /** A call a client can make on an access token provider, or the passing
      of time between two calls. */
  datatype Request = ClientIdRequest | AccessTokenRequest | RefreshTokenRequest | TimePasses

  /** The provider's answer to one call. */
  datatype Reply<+E> =
    | ClientIdReply(id: string)
    | AccessTokenReply(access: AccessToken)
    | RefreshTokenReply(refreshed: Result<string, E>)
    | TimePassed

  /** A reply answers the kind of call that was made. */
  predicate Answers<E>(q: Request, a: Reply<E>)
  {
    match q
    case ClientIdRequest => a.ClientIdReply?
    case AccessTokenRequest => a.AccessTokenReply?
    case RefreshTokenRequest => a.RefreshTokenReply?
    case TimePasses => a.TimePassed?
  }

  /** The outcome of a sequence of calls: one reply per call, and the state
      the provider is left in. */
  datatype Session<S, +E> = Session(replies: seq<Reply<E>>, final: S)

  /** Answers one call. Reads answer from the current state and leave it;
      only a refresh or the passing of time moves the provider to a new
      state. */
  function Step<S, E>(p: AccessTokenProvider<S, E>, self: S, q: Request): (r: Session<S, E>)
    ensures |r.replies| == 1 && Answers(q, r.replies[0])
    ensures q == ClientIdRequest ==> r.replies[0].id == p.ClientIdOf(self)
    ensures q == AccessTokenRequest ==> r.replies[0].access == p.accessToken(self)
    ensures q == RefreshTokenRequest ==>
      r.replies[0].refreshed == p.refreshToken(self).result && r.final == p.refreshToken(self).next
    ensures q == TimePasses ==> r.final == p.elapse(self)
    ensures q in {ClientIdRequest, AccessTokenRequest} ==> r.final == self
  {
    match q
    case ClientIdRequest => Session([ClientIdReply(p.ClientIdOf(self))], self)
    case AccessTokenRequest => Session([AccessTokenReply(p.accessToken(self))], self)
    case RefreshTokenRequest =>
      var f := p.refreshToken(self);
      Session([RefreshTokenReply(f.result)], f.next)
    case TimePasses => Session([TimePassed], p.elapse(self))
  }

  /** Answers a sequence of calls in order, threading the provider state. */
  function Serve<S, E>(p: AccessTokenProvider<S, E>, self: S, qs: seq<Request>): (r: Session<S, E>)
    ensures |r.replies| == |qs|
    ensures forall i :: 0 <= i < |qs| ==> Answers(qs[i], r.replies[i])
    ensures RefreshTokenRequest !in qs && TimePasses !in qs ==> r.final == self
    decreases |qs|
  {
    if qs == [] then Session([], self)
    else
      var first := Step(p, self, qs[0]);
      var rest := Serve(p, first.final, qs[1..]);
      assert forall i :: 1 <= i < |qs| ==> qs[i] == qs[1..][i - 1];
      Session(first.replies + rest.replies, rest.final)
  }

  /** The reply to the `i`-th call of a session is the provider's answer to
      that call in the state the first `i` calls left it in. */
  lemma {:induction false} ServeReplyAt<S, E>(p: AccessTokenProvider<S, E>, self: S, qs: seq<Request>, i: nat)
    requires i < |qs|
    ensures Serve(p, self, qs).replies[i] == Step(p, Serve(p, self, qs[..i]).final, qs[i]).replies[0]
    decreases |qs|
  {
    var first := Step(p, self, qs[0]);
    var rest := Serve(p, first.final, qs[1..]);
    assert Serve(p, self, qs).replies == first.replies + rest.replies;
    if i == 0 {
      assert qs[..0] == [];
    } else {
      ServeReplyAt(p, first.final, qs[1..], i - 1);
      var pre := qs[..i];
      assert pre[0] == qs[0] && pre[1..] == qs[1..][..i - 1];
      assert Serve(p, self, pre).final == Serve(p, first.final, qs[1..][..i - 1]).final;
      assert qs[1..][i - 1] == qs[i];
    }
  }

  // ---------------------------------------------------------------------
  // The refresh decision procedure
  // ---------------------------------------------------------------------

  /** The outcome of the refresh decision procedure: the token, or the
      caller's enclosing error; the provider state afterwards; and the calls
      it made on the provider, in order. */
  datatype Obtained<S, +W> = Obtained(result: Result<string, W>, provider: S, calls: seq<Request>)

  /** How many refresh calls a trace holds. */
  function RefreshCalls(calls: seq<Request>): nat
  {
    if calls == [] then 0
    else (if calls[0] == RefreshTokenRequest then 1 else 0) + RefreshCalls(calls[1..])
  }

  /** The refresh decision procedure. It reads the provider's credential; a
      usable token is returned as it is, without a refresh; otherwise it
      refreshes exactly once and returns the new token, or wraps the
      provider's error with `wrap` (the caller's "refresh failed" variant,
      followed by the conversion into the enclosing function's error type). */
  function ObtainAccessToken<S, E, W>(p: AccessTokenProvider<S, E>, self: S, wrap: E -> W): (x: Obtained<S, W>)
    ensures x.calls == if p.accessToken(self).NeedsRefresh?
      then [AccessTokenRequest, RefreshTokenRequest] else [AccessTokenRequest]
    ensures RefreshCalls(x.calls) <= 1
    ensures RefreshCalls(x.calls) == 1 <==> p.accessToken(self).NeedsRefresh?
    ensures p.accessToken(self).Token? ==>
      x.result == Ok(p.accessToken(self).token) && x.provider == self
    ensures p.accessToken(self).NeedsRefresh? ==> x.provider == p.refreshToken(self).next
    ensures x.result.Err? <==>
      p.accessToken(self).NeedsRefresh? && p.refreshToken(self).result.Err?
    ensures x.result.Err? ==> x.result.error == wrap(p.refreshToken(self).result.error)
    ensures x.result.Ok? && p.accessToken(self).NeedsRefresh? ==>
      p.refreshToken(self).result == Ok(x.result.value)
  {
    match p.accessToken(self)
    case Token(token) => Obtained(Ok(token), self, [AccessTokenRequest])
    case NeedsRefresh =>
      var f := p.refreshToken(self);
      var result := match f.result
        case Ok(token) => Ok(token)
        case Err(e) => Err(wrap(e));
      Obtained(result, f.next, [AccessTokenRequest, RefreshTokenRequest])
  }

  // ---------------------------------------------------------------------
  // Properties
  // ---------------------------------------------------------------------

  /** The procedure's trace is a session the provider itself would serve: it
      ends in the same provider state, and the procedure's outcome is what
      the replies of that session say. */
  lemma ObtainAccessTokenFollowsSession<S, E, W>(p: AccessTokenProvider<S, E>, self: S, wrap: E -> W)
    ensures var x := ObtainAccessToken(p, self, wrap);
      var s := Serve(p, self, x.calls);
      s.final == x.provider
      && s.replies[0] == AccessTokenReply(p.accessToken(self))
      && (|x.calls| == 1 ==> x.result == Ok(p.accessToken(self).token))
      && (|x.calls| == 2 ==>
            s.replies[1] == RefreshTokenReply(p.refreshToken(self).result)
            && x.result == match p.refreshToken(self).result
                 case Ok(t) => Ok(t)
                 case Err(e) => Err(wrap(e)))
  {
  }

  /** Over the static provider, the procedure always yields the fixed token,
      never calls refresh and never fails, whatever the enclosing error. */
  lemma AccessTokenOnlyNeverRefreshes<W>(clientId: string, token: string, wrap: AccessTokenExpired -> W)
    ensures var self := NewAccessTokenOnly(clientId, token);
      var x := ObtainAccessToken(AccessTokenOnlyImpl(), self, wrap);
      x == Obtained(Ok(token), self, [AccessTokenRequest])
  {
  }

  /** The reply the static provider built from `clientId` and `token` gives
      to a call. */
  function AccessTokenOnlyReply(clientId: string, token: string, q: Request): Reply<AccessTokenExpired>
  {
    match q
    case ClientIdRequest => ClientIdReply(clientId)
    case AccessTokenRequest => AccessTokenReply(Token(token))
    case RefreshTokenRequest => RefreshTokenReply(Err(AccessTokenExpired))
    case TimePasses => TimePassed
  }

  /** Over any number of calls in any order, and however much time passes,
      the static provider keeps reporting the same client id and the same
      token (also after failed refreshes), every refresh fails with `AccessTokenExpired`, and the
      provider ends as it started. */
  lemma {:induction false} AccessTokenOnlySession(clientId: string, token: string, qs: seq<Request>)
    ensures var self := NewAccessTokenOnly(clientId, token);
      var s := Serve(AccessTokenOnlyImpl(), self, qs);
      s.final == self
      && forall i :: 0 <= i < |qs| ==> s.replies[i] == AccessTokenOnlyReply(clientId, token, qs[i])
    decreases |qs|
  {
    var self := NewAccessTokenOnly(clientId, token);
    if qs != [] {
      AccessTokenOnlySession(clientId, token, qs[1..]);
      var s := Serve(AccessTokenOnlyImpl(), self, qs);
      var first := Step(AccessTokenOnlyImpl(), self, qs[0]);
      assert first.final == self;
      var rest := Serve(AccessTokenOnlyImpl(), self, qs[1..]);
      assert s.replies == first.replies + rest.replies;
      forall i | 0 <= i < |qs|
        ensures s.replies[i] == AccessTokenOnlyReply(clientId, token, qs[i])
      {
        if i > 0 {
          assert qs[i] == qs[1..][i - 1];
        }
      }
    }
  }

  /** A provider whose client id changes neither by a refresh nor with the
      passing of time. */
  ghost predicate KeepsClientId<S(!new), E>(p: AccessTokenProvider<S, E>)
  {
    (forall s :: p.ClientIdOf(p.refreshToken(s).next) == p.ClientIdOf(s))
    && (forall s :: p.ClientIdOf(p.elapse(s)) == p.ClientIdOf(s))
  }

  /** For a provider that keeps its client id, every client id call
      in a session of any length reports the id the provider started with,
      and so does the provider it is left in. */
  lemma {:induction false} ClientIdStable<S(!new), E>(p: AccessTokenProvider<S, E>, self: S, qs: seq<Request>)
    requires KeepsClientId(p)
    ensures var s := Serve(p, self, qs);
      p.ClientIdOf(s.final) == p.ClientIdOf(self)
      && forall i :: 0 <= i < |qs| && qs[i] == ClientIdRequest ==>
           s.replies[i] == ClientIdReply(p.ClientIdOf(self))
    decreases |qs|
  {
    if qs != [] {
      var first := Step(p, self, qs[0]);
      assert p.ClientIdOf(first.final) == p.ClientIdOf(self);
      ClientIdStable(p, first.final, qs[1..]);
      var s := Serve(p, self, qs);
      var rest := Serve(p, first.final, qs[1..]);
      assert s.replies == first.replies + rest.replies;
      forall i | 0 <= i < |qs| && qs[i] == ClientIdRequest
        ensures s.replies[i] == ClientIdReply(p.ClientIdOf(self))
      {
        if i > 0 {
          assert qs[i] == qs[1..][i - 1];
        }
      }
    }
  }

  /** The static provider keeps its client id, so the general result applies
      to it. */
  lemma AccessTokenOnlyKeepsClientId()
    ensures KeepsClientId(AccessTokenOnlyImpl())
  {
  }

  /** The end-to-end scenario: build the static provider, read its client id
      and token, attempt a refresh, and read the token again. */
  lemma AccessTokenOnlyScenario()
    ensures var self := NewAccessTokenOnly("client-123", "tok-abc");
      var s := Serve(AccessTokenOnlyImpl(), self,
        [ClientIdRequest, AccessTokenRequest, RefreshTokenRequest, AccessTokenRequest]);
      s.replies == [
        ClientIdReply("client-123"),
        AccessTokenReply(Token("tok-abc")),
        RefreshTokenReply(Err(AccessTokenExpired)),
        AccessTokenReply(Token("tok-abc"))]
  {
  }
}
