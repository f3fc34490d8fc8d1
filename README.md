# Access token provider model

A Dafny model of the authentication contract of a Rust client library
(`src/auth.rs`): a client id provider, the two-state access token
(`Token(t)` or `NeedsRefresh`), the access token provider interface with its
read (`access_token`) and its refresh (`refresh_token`), the static provider
`AccessTokenOnly` that holds a fixed client id and token and cannot refresh,
and the `access_token!` macro that decides whether to refresh.

Everything is in `auth.dfy`, module `Auth`.

How the source's shapes are modelled:

- The traits `ClientIdProvider` and `AccessTokenProvider` become dictionary
  datatypes: a record of functions over a provider state `S`.
  `AccessTokenProvider` holds a `ClientIdProvider` as its `base`, just as the
  trait requires its super-trait. A concrete provider is a state type plus
  one such record: `ClientIdImpl` for `ClientId`, `AccessTokenOnlyImpl` for
  `AccessTokenOnly`.
- `access_token` is a pure function of the state. `refresh_token` returns the
  refresh result together with the provider state afterwards. A provider that
  caches refreshed tokens through interior mutability can therefore be
  expressed, and "the static provider's refresh changes nothing" becomes a
  statement that can be proved.
- The trait's documentation says `access_token` reports `NeedsRefresh` once
  the token has expired, so a provider's answer may change as time passes.
  Each provider record therefore also carries `elapse: S -> S`, which says
  how the state moves when time passes. It is not a method of the trait; it
  stands for the clock a provider consults. The static provider's `elapse`
  is the identity.
- A sequence of calls on a provider, with the passing of time between them,
  is a list of `Request`s (`TimePasses` being the time step). `Serve` answers
  them in order and threads the state. This is how the model states
  properties "across any number of calls".
- The macro becomes the function `ObtainAccessToken`. The function
  `wrap: E -> W` stands for the caller's `$error_type::RefreshToken` variant
  followed by the `From` conversion that `?` applies into the enclosing
  function's error type. The `?` early return becomes an `Err` result. The
  function also returns the trace of calls it made on the provider. The trace
  shows that the token path never calls `refresh_token` and that the refresh
  path calls it exactly once, with no retry.

## Model

| member | source | states |
|---|---|---|
| `Auth.NewClientId` | src/auth.rs:17-25 | the `ClientId` built from a string reports exactly that string as its client id |
| `Auth.ClientIdImpl` | src/auth.rs:22-26 | `ClientId` as a client id provider reports the string it wraps |
| `Auth.AccessTokenFrom` | src/auth.rs:38-42 | converting a string gives `Token` of that same string and never `NeedsRefresh` |
| `Auth.NewAccessTokenOnly` | src/auth.rs:71-91 | a static provider built from `(c, t)` reports client id `c` and access token `Token(t)` |
| `Auth.AccessTokenOnlyClientId` | src/auth.rs:79-83 | the static provider's client id is the one stored at construction |
| `Auth.AccessTokenOnlyAccessToken` | src/auth.rs:89-91 | the static provider's `access_token` is `Token` of its stored token and never `NeedsRefresh` |
| `Auth.AccessTokenOnlyRefreshToken` | src/auth.rs:93-95 | the static provider's `refresh_token` always fails with `AccessTokenExpired` and leaves the provider (client id and token) unchanged |
| `Auth.AccessTokenOnlyImpl` | src/auth.rs:85-96 | the static provider as an access token provider: for every state, client id is the stored id, access token is `Token` of the stored token, refresh fails with `AccessTokenExpired` and keeps the state, and time passing keeps the state |
| `Auth.Step` | src/auth.rs:47-58 | one call gets one reply of the matching kind, carrying the provider's answer: `client_id` of the state, `access_token` of the state, or the refresh result. Reads leave the state unchanged; a refresh moves it to the refresh's next state; time passing moves it by `elapse` |
| `Auth.Serve` | src/auth.rs:47-58 | a session gives one reply per call, of the matching kind; a session with neither refresh calls nor time passing leaves the provider unchanged |
| `Auth.ServeReplyAt` | src/auth.rs:47-58 | the reply to the `i`-th call of a session is the provider's answer to that call in the state the first `i` calls left it in |
| `Auth.ObtainAccessToken` | src/auth.rs:101-111 | the macro always reads `access_token` first. On `Token(t)` it returns `t`, does not refresh and leaves the provider unchanged. On `NeedsRefresh` it calls `refresh_token` exactly once and then either returns the refreshed token or fails with `wrap(e)` for the provider's own error `e`. It fails if and only if a refresh was needed and that refresh failed |
| `Auth.ObtainAccessTokenFollowsSession` | src/auth.rs:101-111 | the macro's trace of calls, replayed against the provider, leaves the provider in the same state; the macro's outcome is what that session's replies say |
| `Auth.AccessTokenOnlyNeverRefreshes` | src/auth.rs:86-111 | with the static provider, the macro returns the stored token after a single `access_token` call, with no refresh and no error |
| `Auth.AccessTokenOnlySession` | src/auth.rs:79-95 | over any sequence of calls and time steps, the static provider always reports client id `c` and `Token(t)`, including after failed refreshes. Every refresh fails with `AccessTokenExpired`, and the provider ends as it started |
| `Auth.ClientIdStable` | src/auth.rs:44-58 | for a provider whose client id survives refreshes and the passing of time, every client id call in a session of any length reports the initial id |
| `Auth.AccessTokenOnlyKeepsClientId` | src/auth.rs:79-95 | the static provider keeps its client id through refreshes and the passing of time, so `ClientIdStable` applies to it |
| `Auth.AccessTokenOnlyScenario` | src/auth.rs:69-95 | for `new("client-123", "tok-abc")`: the client id is `"client-123"`, the token is `Token("tok-abc")`, refresh fails with `AccessTokenExpired`, and the token read after that is still `Token("tok-abc")` |

## Left out

- `async`/`.await` and `#[async_trait]`: `refresh_token` is an ordinary function returning a result. Suspension and cancellation are not modelled.
- Concurrency: two callers that both see `NeedsRefresh` may both refresh. The source does nothing to coordinate them, and the model is sequential.
- The `Display + Debug` bounds on the error type, and the `Debug` and `Clone` derives: these are formatting and copying, with no behaviour to verify. Datatypes are values, so a clone is the value itself.
- `AccessTokenExpired` is defined outside `src/auth.rs`. It is modelled as a unit datatype, and its definition is not part of this model.
- `impl Into<String>` arguments: the constructors take a `string`, which is the result of the conversion.
- The macro's hygiene and the `?` operator's early return from the enclosing function: the macro returns a `Result` whose `Err` is what `?` would return.
- ObtainAccessToken: the macro pastes the provider expression `$auth` twice, once for the read and once for the refresh. The model evaluates it once and assumes it has no side effects, so the refresh acts on the same provider that was read. The model also lets no time pass between the read and the refresh.
- The macro's `await` ordering relative to other work in the caller is not modelled, because the model has no caller.
- ClientIdStable: a trait implementation's refresh, or the passing of time, could change the reported client id through interior mutability. The source promises nothing about that for arbitrary providers, so the lemma requires that both keep the client id. The static provider meets this requirement, as `AccessTokenOnlyKeepsClientId` shows.
- Step: time is modelled only as discrete `TimePasses` steps that a provider's `elapse` interprets. There is no clock value and no duration, so a provider whose expiry depends on how much time passed is expressed by the state it keeps.
- The trait methods take `&self`, so the source gives `refresh_token` no way to change a provider except through interior mutability. The model lets refresh return a new state so that caching providers can be expressed. For `AccessTokenOnly` that state is always the old one.
