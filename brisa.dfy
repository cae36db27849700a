/**
 * The gateway (brisa.go): `Brisa` holds the published chain set, and each
 * `Session` runs one chain per SMTP stage (the connection, then the MAIL,
 * RCPT and DATA commands of section 4.1.1 of RFC 5321) on its own context.
 *
 * Go's `atomic.Pointer` becomes a plain field, the client connection, the
 * generated session id and the outcome of reading the message body become
 * parameters, and the
 * process-wide context pool is an object both classes hold a reference to.
 */
module Gateway {

  import opened Wrappers
  import opened Actions
  import opened Contexts
  import opened Middlewares

  /** The errors a session reports to the SMTP server. */
  datatype SessionError =
    | Rejected            // ErrRejected: a chain returned Reject
    | ReadFailed(reason: string)  // the error of reading the message body

  class Brisa {
    /** The published chain set; `UpdateChains` replaces it. */
    var chains: MiddlewareChains
    var pool: ContextPool

    /** `New`: a gateway whose published chains are all empty. */
    constructor (pool: ContextPool)
      ensures fresh(chains) && this.pool == pool
      ensures chains.connChain == [] && chains.mailFromChain == []
      ensures chains.rcptToChain == [] && chains.dataChain == []
    {
      this.pool := pool;
      chains := new MiddlewareChains();
    }

    /** Publishes `next`; sessions created from now on use it. */
    method UpdateChains(next: MiddlewareChains)
      modifies this`chains
      ensures chains == next
    {
      chains := next;
    }

    /** Creates a session for connection `conn` on a context taken from the
        pool, and runs the connection chain on it; the connection is refused
        exactly when that chain rejects. `used` is the context taken, which
        a refused connection does not give back. */
    method NewSession(conn: Handle, id: string)
      returns (s: Session?, err: Option<SessionError>, ghost used: Context)
      requires pool.Valid()
      modifies pool, pool.free
      ensures pool.Valid() && pool.free == old(pool.free) - {used}
      ensures fresh(used) || used in old(pool.free)
      ensures err == None || err == Some(Rejected)
      ensures s == null <==> err == Some(Rejected)
      ensures err == Some(Rejected) <==> Outcome(chains.connChain, ConnView(conn)) == Reject
      ensures s != null ==> fresh(s) && s.chains == chains && s.pool == pool
      ensures s != null ==> s.conn == conn && s.id == id && s.ctx == used && s.ctx.session == s
      ensures s != null ==> s.ctx.Snapshot() == ConnView(conn).(status := FinalStatus(chains.connChain, ConnView(conn)))
    {
      var session := new Session(conn, chains, pool, id);
      used := session.ctx;
      var action;
      ghost var invoked;
      action, invoked := Execute(session.chains.connChain, session.ctx);
      if action == Reject {
        return null, Some(Rejected), used;
      }
      return session, None, used;
    }
  }

  /** The view of a just-created session's context on connection `conn`. */
  function ConnView(conn: Handle): View {
    FreshView().(conn := Some(conn))
  }

  class Session {
    var ctx: Context
    var id: string
    var conn: Handle
    /** The chain set loaded when the session was created; no method of the
        session assigns it again. */
    var chains: MiddlewareChains
    var pool: ContextPool

    /** The session literal of `NewSession` followed by `init`: records the
        snapshot of the chains, the id, and a context from the pool whose
        back-reference is this session. */
    constructor (conn: Handle, chains: MiddlewareChains, pool: ContextPool, id: string)
      requires pool.Valid()
      modifies pool, pool.free
      ensures this.conn == conn && this.chains == chains && this.pool == pool && this.id == id
      ensures pool.Valid() && ctx !in pool.free
      ensures fresh(ctx) || ctx in old(pool.free)
      ensures pool.free == old(pool.free) - {ctx}
      ensures ctx.session == this && ctx.Snapshot() == ConnView(conn)
    {
      this.conn := conn;
      this.chains := chains;
      this.pool := pool;
      this.id := id;
      var c := NewContext(pool);
      ctx := c;
      new;
      ctx.session := this;
      ctx.conn := Some(conn);
    }

    /** MAIL FROM: runs the mail chain; only a rejection is an error. */
    method Mail(from: string) returns (err: Option<SessionError>)
      modifies ctx`status
      ensures err == None || err == Some(Rejected)
      ensures err == Some(Rejected) <==> Outcome(chains.mailFromChain, old(ctx.Snapshot())) == Reject
      ensures ctx.status == FinalStatus(chains.mailFromChain, old(ctx.Snapshot()))
      ensures old(ctx.status) != Reject ==> ctx.status != Reject
    {
      var action;
      ghost var invoked;
      action, invoked := Execute(chains.mailFromChain, ctx);
      if action == Reject {
        return Some(Rejected);
      }
      return None;
    }

    /** RCPT TO: runs the recipient chain; only a rejection is an error. */
    method Rcpt(to: string) returns (err: Option<SessionError>)
      modifies ctx`status
      ensures err == None || err == Some(Rejected)
      ensures err == Some(Rejected) <==> Outcome(chains.rcptToChain, old(ctx.Snapshot())) == Reject
      ensures ctx.status == FinalStatus(chains.rcptToChain, old(ctx.Snapshot()))
      ensures old(ctx.status) != Reject ==> ctx.status != Reject
    {
      var action;
      ghost var invoked;
      action, invoked := Execute(chains.rcptToChain, ctx);
      if action == Reject {
        return Some(Rejected);
      }
      return None;
    }

    /** DATA: `readError` is the outcome of reading the whole body. A read
        error is returned as it is, without running the data chain;
        otherwise only a rejection of the data chain is an error. */
    method Data(readError: Option<string>) returns (err: Option<SessionError>)
      modifies ctx`status
      ensures readError.Some? ==> err == Some(ReadFailed(readError.value)) && ctx.status == old(ctx.status)
      ensures readError.None? ==> (err == None || err == Some(Rejected))
      ensures readError.None? ==>
        (err == Some(Rejected) <==> Outcome(chains.dataChain, old(ctx.Snapshot())) == Reject)
      ensures readError.None? ==> ctx.status == FinalStatus(chains.dataChain, old(ctx.Snapshot()))
      ensures old(ctx.status) != Reject ==> ctx.status != Reject
    {
      if readError.Some? {
        return Some(ReadFailed(readError.value));
      }
      var action;
      ghost var invoked;
      action, invoked := Execute(chains.dataChain, ctx);
      if action == Reject {
        return Some(Rejected);
      }
      return None;
    }

    /** RSET: does nothing to the session or its context. */
    method Reset()
      ensures ctx.Snapshot() == old(ctx.Snapshot()) && ctx.session == old(ctx.session)
    {
    }

    /** QUIT: frees the context, which resets it and returns it to the
        pool, and reports no error. */
    method Logout() returns (err: Option<SessionError>)
      requires pool.Valid()
      modifies ctx, pool
      ensures err == None
      ensures pool.Valid() && ctx.Clean()
      ensures pool.free == old(pool.free) + {ctx}
      ensures ctx.status == Pass
    {
      FreeContext(ctx, pool);
      return None;
    }
  }

  /** A session keeps the chain set it loaded: publishing another set
      afterwards changes what new sessions load, not what it runs. */
  method UpdateDoesNotReachLiveSessions(b: Brisa, next: MiddlewareChains, conn: Handle, conn2: Handle, id: string, id2: string)
    returns (s: Session?, s2: Session?)
    requires b.pool.Valid()
    modifies b, b.pool, b.pool.free
    ensures s != null ==> s.chains == old(b.chains)
    ensures s2 != null ==> s2.chains == next
  {
    var err: Option<SessionError>;
    ghost var used: Context;
    s, err, used := b.NewSession(conn, id);
    b.UpdateChains(next);
    s2, err, used := b.NewSession(conn2, id2);
  }

  /** A whole conversation on a gateway fresh from `New`: with every chain
      empty, each stage succeeds and the status after every stage, up to
      and including DATA, is still `Pass`. */
  method EmptyChainsConversation(conn: Handle, id: string) returns (
    s: Session?, connErr: Option<SessionError>, mailErr: Option<SessionError>,
    rcptErr: Option<SessionError>, dataErr: Option<SessionError>, quitErr: Option<SessionError>,
    statuses: seq<Action>)
    ensures s != null && connErr == None
    ensures mailErr == None && rcptErr == None && dataErr == None && quitErr == None
    ensures statuses == [Pass, Pass, Pass, Pass]
  {
    var pool := new ContextPool();
    var b := new Brisa(pool);
    ghost var used: Context;
    s, connErr, used := b.NewSession(conn, id);
    statuses := [s.ctx.status];
    mailErr := s.Mail("sender@example.org");
    statuses := statuses + [s.ctx.status];
    rcptErr := s.Rcpt("rcpt@example.org");
    statuses := statuses + [s.ctx.status];
    dataErr := s.Data(None);
    statuses := statuses + [s.ctx.status];
    quitErr := s.Logout();
  }

  /** All stages of a session run on one context: the status the MAIL chain
      leaves is the status the RCPT chain starts from, and so on to DATA. */
  method TransactionSharesStatus(s: Session, from: string, to: string) returns (
    mailErr: Option<SessionError>, rcptErr: Option<SessionError>, dataErr: Option<SessionError>)
    modifies s.ctx`status
    ensures var v := old(s.ctx.Snapshot());
      var afterMail := FinalStatus(s.chains.mailFromChain, v);
      var afterRcpt := FinalStatus(s.chains.rcptToChain, v.(status := afterMail));
      s.ctx.status == FinalStatus(s.chains.dataChain, v.(status := afterRcpt))
  {
    mailErr := s.Mail(from);
    rcptErr := s.Rcpt(to);
    dataErr := s.Data(None);
  }

  /** A connection middleware that always rejects, and whose mask does not
      make it skip the initial `Pass` status, refuses every connection. */
  method RejectingConnectionRefused(m: Middleware, conn: Handle, id: string) returns (s: Session?, err: Option<SessionError>)
    requires forall v :: m.handler(v) == Reject
    requires !Skipped(m, Pass)
    ensures s == null && err == Some(Rejected)
  {
    var pool := new ContextPool();
    var b := new Brisa(pool);
    b.chains.RegisterConnMiddleware(m);
    assert !Skipped(WithDefaultFlags(m), Pass) by {
      if m.ignoreFlags == 0 {
        DefaultMaskSkipsDispositions(m, Pass);
      }
    }
    RejectStops(b.chains.connChain, ConnView(conn), 0);
    ghost var used: Context;
    s, err, used := b.NewSession(conn, id);
  }

  /** A connection middleware that rejects one client connection, as a
      blacklist keyed on the client does: that client is refused and any
      other client gets a session. */
  method BlockedClientRefused(blocked: Handle, other: Handle, id: string)
    returns (s: Session?, err: Option<SessionError>, s2: Session?, err2: Option<SessionError>)
    requires other != blocked
    ensures s == null && err == Some(Rejected)
    ensures s2 != null && err2 == None && s2.conn == other
  {
    var pool := new ContextPool();
    var b := new Brisa(pool);
    var m := Middleware((v: View) => if v.conn == Some(blocked) then Reject else Pass, 0);
    b.chains.RegisterConnMiddleware(m);
    DefaultMaskSkipsDispositions(m, Pass);
    RejectStops(b.chains.connChain, ConnView(blocked), 0);
    ghost var used: Context;
    s, err, used := b.NewSession(blocked, id);
    assert TraceAfter(b.chains.connChain, 1, ConnView(other)).status == Pass;
    s2, err2, used := b.NewSession(other, id);
  }

  /** `UpdateChains` stores the caller's chain set itself, not a copy:
      registering on that set after publishing it changes the chains that
      sessions already running will execute. */
  method PublishedSetStaysShared(b: Brisa, next: MiddlewareChains, m: Middleware, conn: Handle, id: string)
    returns (s: Session?)
    requires b.pool.Valid()
    modifies b, b.pool, b.pool.free, next
    ensures s != null ==> s.chains == next
    ensures s != null ==> s.chains.dataChain == old(next.dataChain) + [WithDefaultFlags(m)]
  {
    b.UpdateChains(next);
    var err: Option<SessionError>;
    ghost var used: Context;
    s, err, used := b.NewSession(conn, id);
    next.RegisterDataMiddleware(m);
  }
}
