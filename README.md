# Brisa middleware engine, in Dafny

This project models the decision engine of Brisa, an SMTP gateway. An SMTP
session runs one chain of middlewares at each stage: when the connection
opens, and at the MAIL, RCPT and DATA commands (section 4.1.1 of RFC 5321).
A chain's middlewares decide an `Action`. These actions are bit flags:
`Pass`=1, `Reject`=2, `Deliver`=4 and `Quarantine`=8. The same type holds the
status that the session's context accumulates. A middleware is skipped when
its `IgnoreFlags` share a bit with the current status. A `Reject` stops the
chain without writing the status. Any other verdict overwrites the status
("re-judgment").

The gateway (`Brisa`) publishes one set of four chains. Each session takes
the set that is published when it is created. All stages of a session run on
that session's one `Context`. Contexts come from a pool and are reset before
they go back to it.

Files and modules:

- `actions.dfy` (`Actions`): the flag constants and the default skip mask.
- `middleware.dfy` (`Middlewares`): chain execution and the four-chain set.
  - `TraceAfter` specifies a run as a left fold over the chain. It records the
    status, whether a handler rejected, and which handlers were invoked.
  - `Execute` is the loop of the source, proved against that fold.
  - `MiddlewareChains` is the class whose `Register*` methods append to one
    chain.
- `context.dfy` (`Contexts`): the `Context` class, its two resets, its lazily
  allocated key store, and the context pool.
- `brisa.dfy` (`Gateway`): the `Brisa` and `Session` classes.
- `registry.dfy` (`Registries`): the name-to-factory registry.
- `errors.dfy` (`SmtpErrors`): the four classified SMTP errors.
- `wrappers.dfy` (`Wrappers`): `Option`.

Modelling decisions:

- `Action` is `bv64`, because Go's `int` is 64 bits here. The engine only
  applies `&`, `|` and `==` to actions, so handlers may return any 64-bit
  value, as they can in Go.
- A handler is a total function from a `View` of the context to an
  `Action`. The view holds the connection of the owning session (Go's
  `ctx.Session.conn`), the logger handle, the mail fields, the status and
  the key store. The handler sees the status as it stands when the
  handler runs.
- context.go declares the status field as `Action`, while middleware.go reads
  and writes `ctx.Status`. The model has one field, `Context.status`.
- Go's `atomic.Pointer` is a plain field.
- The client connection, the `uuid` session id and the success or failure of `io.ReadAll` in `Data`
  are parameters.
- Go's `sync.Pool` is a `ContextPool` object that holds a set of free
  contexts. Its invariant is that every pooled context is clean.
  `NewContext` returns any one of the free contexts, or a new one.
- Go's `any` values in the key store are `Value = Nil | Datum(id)`. Logger,
  reader and SMTP option pointers are opaque `Handle`s.

Where the design description and the code disagree, the model follows the
code:

- `UpdateChains` stores the caller's object, not a clone.
  `Gateway.PublishedSetStaysShared` proves the consequence: registering on a
  published set changes what live sessions run.
- `execute` has no panic recovery and returns only an `Action`.
- `Session.Reset` does nothing. It does not even clear the mail fields.
- There are no disposition chains (deliver, quarantine, discard, reject), no
  `Discard` action, and no mapping to the classified errors. The session
  returns the plain `ErrRejected`. The four classified errors are declared
  and never used.
- `Registry.Register` overwrites a name that is already registered; it does
  not report a duplicate.
- A context whose connection was refused is never returned to the pool.

## Model

| member | source | states |
|---|---|---|
| Actions.ActionsAreDistinctBits | middleware.go:7-26 | Pass, Reject, Deliver and Quarantine are distinct single bits; DefaultIgnoreFlags is Deliver\|Quarantine and shares no bit with Pass or Reject |
| Middlewares.Execute | middleware.go:46-67 | the loop returns the outcome of the chain specification and leaves the final status in the context; the handlers it calls are exactly the ones the specification's trace invokes, in that order; nothing else in the context changes; a status other than Reject never becomes Reject |
| Middlewares.InvokedExactly | middleware.go:47-53 | handler k is invoked iff no earlier handler rejected and its IgnoreFlags share no bit with the status at that point |
| Middlewares.SkippedChangesNothing | middleware.go:49-51 | a skipped middleware leaves status and trace unchanged |
| Middlewares.InvokedInOrder | middleware.go:47-65 | the invoked positions are strictly increasing, so handlers run in chain order and each at most once |
| Middlewares.RejectStops | middleware.go:57-59 | after a handler returns Reject, the chain returns Reject, no later handler is invoked and the status keeps its pre-Reject value |
| Middlewares.RejectedStaysRejected | middleware.go:57-59 | once rejected, the rest of the chain changes nothing |
| Middlewares.StepFacts | middleware.go:49-64 | one more middleware either is skipped, rejects, or overwrites the status with its verdict |
| Middlewares.FinalStatusIsLastVerdict | middleware.go:61-66 | without a rejection, the final status is the verdict of the last invoked handler, or the initial status when none ran |
| Middlewares.NoRejectReturnsStatus | middleware.go:66 | without a rejection the chain returns the final status; an empty chain returns the initial status |
| Middlewares.StatusNeverBecomesReject | middleware.go:57-64 | a run that starts from a status other than Reject never leaves Reject in the status |
| Middlewares.RejectOutcomeIffHandlerRejected | middleware.go:57-66 | from a non-Reject status, the chain returns Reject iff some invoked handler returned Reject |
| Middlewares.FirstRejection | middleware.go:57-59 | a rejected run names the first invoked handler that rejected: it was invoked and returned Reject, and no handler invoked before it returned Reject |
| Middlewares.RejectedPersists | middleware.go:57-59 | once a run has rejected, it stays rejected for the rest of the chain |
| Middlewares.RejudgmentScenario | middleware_test.go:102-114 | Deliver, then a skipped IgnoreDeliver middleware, then Quarantine: the outcome is Quarantine and handlers 0 and 2 ran |
| Middlewares.RejectScenario | middleware_test.go:67-78 | a first handler that rejects stops the chain; the second never runs and the status stays Pass |
| Middlewares.SkipScenario | middleware_test.go:115-125 | a middleware masked with both dispositions is skipped under Quarantine |
| Middlewares.WithDefaultFlags | middleware.go:85-88 | a zero mask becomes DefaultIgnoreFlags, a non-zero mask is kept, the handler is kept, and the stored mask is never zero |
| Middlewares.DefaultMaskSkipsDispositions | middleware.go:24-25 | a middleware registered without a mask is skipped exactly when the status has the Deliver or Quarantine bit |
| Middlewares.MiddlewareChains.constructor | middleware.go:80-82 | all four chains start empty |
| Middlewares.MiddlewareChains.Register | middleware.go:85-90 | appends exactly the defaulted middleware to the chosen chain; the other three chains are unchanged |
| Middlewares.MiddlewareChains.RegisterConnMiddleware | middleware.go:93-95 | appends to the connection chain only |
| Middlewares.MiddlewareChains.RegisterMailFromMiddleware | middleware.go:98-100 | appends to the MAIL FROM chain only |
| Middlewares.MiddlewareChains.RegisterRcptToMiddleware | middleware.go:103-105 | appends to the RCPT TO chain only |
| Middlewares.MiddlewareChains.RegisterDataMiddleware | middleware.go:108-110 | appends to the DATA chain only |
| Gateway.Brisa.constructor | brisa.go:25-30 | New publishes a fresh set whose four chains are empty |
| Gateway.Brisa.UpdateChains | brisa.go:34-37 | the published set becomes the given object |
| Gateway.Brisa.NewSession | brisa.go:40-54 | the connection is refused with ErrRejected, and no session is returned, iff the connection chain returns Reject on a fresh context of that connection; otherwise the session holds the connection, the published set and a context that carries the chain's final status; either way the pool is exactly the old pool minus the one context taken |
| Gateway.Session.constructor | brisa.go:63-67 | the session literal and init: the session gets its connection and id, a clean context taken out of the pool, and that context's back-reference to the session and its connection |
| Gateway.Session.Mail | brisa.go:74-81 | ErrRejected iff the MAIL FROM chain returns Reject, success for any other action; the status is the chain's final status |
| Gateway.Session.Rcpt | brisa.go:84-96 | ErrRejected iff the RCPT TO chain returns Reject, success for Pass, Deliver, Quarantine or anything else |
| Gateway.Session.Data | brisa.go:99-108 | a read error is returned without running the chain; otherwise ErrRejected iff the DATA chain returns Reject |
| Gateway.Session.Reset | brisa.go:111-113 | RSET changes nothing |
| Gateway.Session.Logout | brisa.go:116-121 | returns nil after freeing the context, which is now clean with status Pass; the pool is exactly the old pool plus that context |
| Gateway.UpdateDoesNotReachLiveSessions | brisa.go:40-44 | a session keeps the set it loaded; a session created after UpdateChains loads the new set |
| Gateway.PublishedSetStaysShared | brisa.go:34-35 | the published set is shared with the caller; registering on it afterwards changes the chains a live session runs |
| Gateway.EmptyChainsConversation | brisa_test.go:13-26 | on a gateway fresh from New, the session is created, and MAIL, RCPT, DATA and QUIT all succeed; the status read after the connection, MAIL, RCPT and DATA stages is Pass each time |
| Gateway.BlockedClientRefused | brisa.go:40-54 | a connection middleware that rejects one client connection refuses that client and gives any other client a session |
| Gateway.RejectingConnectionRefused | brisa.go:48-51 | a connection middleware that always rejects, and is not skipped under Pass, refuses every session |
| Gateway.TransactionSharesStatus | brisa.go:63-67 | MAIL, RCPT and DATA run on one context: each stage's chain starts from the status the previous stage left |
| Contexts.Context.constructor | context.go:11-26 | a new context has every field at its zero value, status 0 included |
| Contexts.Context.Reset | context.go:29-38 | session and logger are nil, the status is Pass, the mail fields are cleared and the key store is dropped |
| Contexts.Context.ResetMailFields | context.go:41-47 | clears the reader, from, to and both option fields; status, session, logger and keys are untouched |
| Contexts.Context.Set | context.go:51-58 | allocates the store if needed; the entries are the old ones with key mapped to value |
| Contexts.Context.Get | context.go:62-70 | found iff the key is in the store, with its stored value; nil and false on a missing key or a never-allocated store |
| Contexts.NewContext | context.go:79-83 | returns a new or previously pooled context, now out of the pool, clean and with status Pass |
| Contexts.FreeContext | context.go:86-89 | resets the context and adds it to the pool, which stays all-clean |
| Contexts.SetThenGet | context.go:51-70 | after Set(k, v), Get(k) is (v, true), and every other key reads as before |
| Contexts.RecycleForgets | context.go:79-89 | a context that was freed and handed out again carries no keys, mail fields or session from its previous use |
| Registries.Registry.constructor | registry.go:17-21 | NewRegistry starts with an allocated, empty map |
| Registries.Registry.Zero | registry.go:11-14 | a zero-value Registry has a nil map |
| Registries.Registry.Register | registry.go:25-33 | allocates a nil map, then maps the name to the factory, overwriting silently; other names keep their factories |
| Registries.Registry.Get | registry.go:37-43 | found iff the name is registered, with its factory; the registry is not changed |
| Registries.NewRegistryIsEmpty | registry.go:17-21 | a new registry finds no name |
| Registries.RegisterThenGet | registry.go:25-43 | after Register(n, f), Get(n) is f and every other name reads as before |
| Registries.RegisterOverwrites | registry.go:23-32 | registering a name twice keeps the second factory, without error, on a zero-value registry too |
| SmtpErrors.ClassifiedError.Enhanced | errors.go:5-38 | the class digit of the enhanced code is 5 for the permanent errors and 4 for the transient ones |
| SmtpErrors.ClassifiedError.Code | errors.go:5-38 | every reply code is a 4xx or 5xx code whose first digit is the enhanced code's class; 5xx exactly for permanent errors |
| SmtpErrors.CodesAgreeWithEnhancedCodes | errors.go:8-12 | the policy refusal is 554 with 5.7.1 (section 3.8 of RFC 3463), and no two errors share an enhanced code |

## Left out

- Logging (`log.Printf`, `slog.Logger` output).
- The remote address behind a connection: the connection is an opaque `Handle` in the view, so handlers can tell clients apart, but `Session.GetClientIP` and address parsing are not modelled.
- The MAIL/RCPT option arguments, which the stages do not use.
- Atomicity of the published-set pointer, the mutexes of `Context` and `Registry`, and the reuse order of `sync.Pool`. These are concurrency concerns; the model is sequential.
- Contexts.FreeContext: the free contexts are a set, so freeing one context twice (for instance a second `Logout`) leaves the pool as it was; Go's `sync.Pool` would hold the context twice and could hand it to two sessions.
- Handler side effects. A handler is a pure function of the context view, so a handler that writes keys or fields of the context is not modelled.
- `UpdateChains(nil)`: the model's field is non-null. In Go, the next `NewSession` would dereference nil.
- observer.go is a bare interface, and no code calls it.
- config.go, cmd/ and middleware/ip_blacklist.go: configuration decoding, process wiring and a network-address filter are not part of this model.
- Behaviour that appears only in the tests is not modelled: panic recovery in `Execute`, duplicate-registration errors, `Unregister`, `List`, `Create`, `chains.Register/Get`, `NewChainsFromConfig` and `New(logger)`.
