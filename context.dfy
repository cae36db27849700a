/**
 * The per-session `Context` of context.go: the mail-transaction fields, the
 * cumulative status, a lazily allocated key/value store that middleware use
 * to pass data to each other, and the pool contexts are recycled through.
 */
module Contexts {

  import opened Wrappers
  import opened Actions

  /** Something the context holds a reference to but never looks into:
      a logger, the message body reader, the options of MAIL or RCPT. */
  datatype Handle = Handle(id: nat)

  /** A value in the key store (Go's `any`): nil, or some datum the
      context only stores and hands back. */
  datatype Value = Nil | Datum(id: nat)

  /** What a middleware handler can see of a context, including the
      connection of the session that owns it. */
  datatype View = View(
    conn: Option<Handle>,
    logger: Option<Handle>,
    from: string,
    fromOptions: Option<Handle>,
    to: string,
    toOptions: Option<Handle>,
    reader: Option<Handle>,
    status: Action,
    keys: map<string, Value>)

  /** The view of a context that has just been handed out by `NewContext`. */
  function FreshView(): View {
    View(None, None, "", None, "", None, None, Pass, map[])
  }

  class Context {
    /** The owning session; `object?` because sessions are declared in a
        module that builds on this one. */
    var session: object?
    /** The SMTP connection of the owning session, which Go reaches as
        `ctx.Session.conn` (for instance to read the client address); it is
        set and cleared together with `session`. */
    var conn: Option<Handle>
    var logger: Option<Handle>
    var from: string
    var fromOptions: Option<Handle>
    var to: string
    var toOptions: Option<Handle>
    var reader: Option<Handle>
    /** The cumulative status written by chain execution (the field
        declared as `Action` in context.go and used as `Status` by
        middleware.go). */
    var status: Action
    /** The key store; `None` is Go's nil map, allocated on first `Set`. */
    var keys: Option<map<string, Value>>

    /** Go's `new(Context)`: every field at its zero value. */
    constructor ()
      ensures session == null && conn == None && logger == None && reader == None
      ensures from == "" && to == "" && fromOptions == None && toOptions == None
      ensures status == 0 && keys == None
    {
      session := null;
      conn := None;
      logger := None;
      from := "";
      fromOptions := None;
      to := "";
      toOptions := None;
      reader := None;
      status := 0;
      keys := None;
    }

    /** The entries of the key store; a nil store has none. */
    function Entries(): map<string, Value>
      reads this
    {
      if keys.None? then map[] else keys.value
    }

    function Snapshot(): View
      reads this
    {
      View(conn, logger, from, fromOptions, to, toOptions, reader, status, Entries())
    }

    /** The state `Reset` leaves behind: nothing from a previous use. */
    ghost predicate Clean()
      reads this
    {
      session == null && keys == None && Snapshot() == FreshView()
    }

    /** Full reset for reuse: session, logger, status, the mail fields and
        the key store all go back to their initial values. */
    method Reset()
      modifies this
      ensures Clean()
    {
      session := null;
      conn := None;
      logger := None;
      status := Pass;
      ResetMailFields();
      keys := None;
    }

    /** Reset of the fields of one mail transaction only. */
    method ResetMailFields()
      modifies this`reader, this`from, this`to, this`fromOptions, this`toOptions
      ensures reader == None && from == "" && to == ""
      ensures fromOptions == None && toOptions == None
      ensures status == old(status) && session == old(session) && conn == old(conn)
      ensures logger == old(logger) && keys == old(keys)
    {
      reader := None;
      from := "";
      to := "";
      fromOptions := None;
      toOptions := None;
    }

    /** Stores `value` under `key`, allocating the store if it is nil. */
    method Set(key: string, value: Value)
      modifies this`keys
      ensures keys.Some?
      ensures Entries() == old(Entries())[key := value]
    {
      if keys.None? {
        keys := Some(map[]);
      }
      keys := Some(keys.value[key := value]);
    }

    /** Looks `key` up; `found` tells a stored nil from a missing key. */
    method Get(key: string) returns (value: Value, found: bool)
      ensures found <==> key in Entries()
      ensures found ==> value == Entries()[key]
      ensures !found ==> value == Nil
      ensures keys == None ==> !found
    {
      if keys.None? {
        return Nil, false;
      }
      if key in keys.value {
        value, found := keys.value[key], true;
      } else {
        value, found := Nil, false;
      }
    }
  }

  /**
   * The process-wide pool contexts are recycled through. Which free context
   * `NewContext` hands out is left open, as with Go's `sync.Pool`.
   */
  class ContextPool {
    var free: set<Context>

    /** Every pooled context was reset before it was put back. */
    ghost predicate Valid()
      reads this, free
    {
      forall c :: c in free ==> c.Clean()
    }

    constructor ()
      ensures Valid() && free == {}
    {
      free := {};
    }
  }

  /** A new or recycled context whose status is `Pass`. */
  method NewContext(pool: ContextPool) returns (c: Context)
    requires pool.Valid()
    modifies pool, pool.free
    ensures pool.Valid()
    ensures fresh(c) || c in old(pool.free)
    ensures pool.free == old(pool.free) - {c}
    ensures c.Clean()
  {
    if pool.free != {} {
      c :| c in pool.free;
      pool.free := pool.free - {c};
    } else {
      c := new Context();
    }
    c.status := Pass;
  }

  /** Resets `c` and returns it to the pool. */
  method FreeContext(c: Context, pool: ContextPool)
    requires pool.Valid()
    modifies c, pool
    ensures pool.Valid()
    ensures c.Clean()
    ensures pool.free == old(pool.free) + {c}
  {
    c.Reset();
    pool.free := pool.free + {c};
  }

  /** A value stored under a key is what a later lookup of that key finds,
      and storing it leaves every other key's entry as it was. */
  method SetThenGet(c: Context, key: string, value: Value, other: string)
    returns (got: Value, found: bool, otherGot: Value, otherFound: bool)
    modifies c`keys
    ensures got == value && found
    ensures other != key ==> otherFound == (other in old(c.Entries()))
    ensures other != key && otherFound ==> otherGot == old(c.Entries())[other]
  {
    c.Set(key, value);
    got, found := c.Get(key);
    otherGot, otherFound := c.Get(other);
  }

  /** A recycled context carries nothing from its previous use. */
  method RecycleForgets(c: Context, pool: ContextPool, key: string, v: Value) returns (d: Context, value: Value, found: bool)
    requires pool.Valid() && c !in pool.free
    modifies c, pool, pool.free
    ensures d.Clean()
    ensures value == Nil && !found
  {
    c.Set(key, v);
    FreeContext(c, pool);
    d := NewContext(pool);
    value, found := d.Get(key);
  }
}
