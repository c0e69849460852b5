/** src/mysql-pool.js: a wrapper around one driver pool whose `end` and
    `getConnection` return promises and whose connections come wrapped as
    `MySqlConnection`s. As for the connection wrapper, what the driver
    reports for a call is a parameter, and the calls issued to the driver
    pool are recorded in the ghost log `calls`. */
module Pool {
  import opened Driver
  import Connection

  class MySqlPool {
    /** The configuration the pool was made with; handed on to its connections. */
    const config: Config
    /** The driver pool; `null` once it has ended. */
    var pool: Option<DriverPool>
    /** Every call this wrapper has issued to the driver pool, in order. */
    ghost var calls: seq<PoolCall>

    /** The driver pool is the one made from `config`, it is ended at most
        once and used no more afterwards, and while the wrapper still holds
        it, it has not been ended. */
    ghost predicate Valid()
      reads this
    {
      (pool.Some? ==> pool.value == DriverPool(config) && NoneWhere(calls, IsPoolEnd))
      && OnlyLast(calls, IsPoolEnd)
    }

    /** A valid pool wrapper has ended its driver pool at most once. */
    lemma EndedAtMostOnce()
      requires Valid()
      ensures CountWhere(calls, IsPoolEnd) <= 1
    {
      OnlyLastAtMostOnce(calls, IsPoolEnd);
    }

    constructor (config: Config)
      ensures this.config == config
      ensures pool == Some(DriverPool(config))
      ensures calls == []
      ensures Valid()
    {
      this.config := config;
      pool := Some(DriverPool(config));
      calls := [];
    }

    /** `end()`: resolves at once when already ended; otherwise ends the
        driver pool and drops it, whether or not the driver reports
        `endError`, which is passed on. */
    method End(endError: Option<Error>) returns (r: Result<()>)
      requires Valid()
      modifies this
      ensures Valid()
      ensures pool.None?
      ensures old(pool).None? ==> r == Ok(()) && calls == old(calls)
      ensures old(pool).Some? ==>
        calls == old(calls) + [PoolEnd]
        && r == (if endError.Some? then Err(endError.value) else Ok(()))
    {
      if pool.None? {
        return Ok(());
      }
      NoneWhereThen(calls, PoolEnd, IsPoolEnd);
      calls := calls + [PoolEnd];
      pool := None;
      r := if endError.Some? then Err(endError.value) else Ok(());
    }

    /** `getConnection()`: rejected once ended; otherwise asks the driver
        pool for a session (`reply`) and wraps it with this pool's
        configuration, passing a driver error on. */
    method GetConnection(reply: Result<Session>) returns (r: Result<Connection.MySqlConnection>)
      requires Valid()
      modifies this`calls
      ensures Valid()
      ensures old(pool).None? ==>
        r == Err(Rejection("Pool has ended. Connections are not available.")) && calls == old(calls)
      ensures old(pool).Some? ==> calls == old(calls) + [PoolGetConnection]
      ensures old(pool).Some? && reply.Err? ==> r == Err(reply.error)
      ensures old(pool).Some? && reply.Ok? ==>
        r.Ok? && fresh(r.value) && r.value.Valid() && r.value.calls == []
        && r.value.connection == Some(reply.value) && r.value.debug == config.debug
    {
      if pool.None? {
        return Err(Rejection("Pool has ended. Connections are not available."));
      }
      NoneWhereAppend(calls, PoolGetConnection, IsPoolEnd);
      calls := calls + [PoolGetConnection];
      if reply.Err? {
        return Err(reply.error);
      }
      var c := new Connection.MySqlConnection(reply.value, Some(config));
      r := Ok(c);
    }
  }

  // ---------------------------------------------------------------------
  // Uses of the wrapper

  /** Ending twice ends the driver pool once: the second call resolves,
      even when the first reported an error. */
  method EndTwice(config: Config, endError: Option<Error>, again: Option<Error>)
    returns (first: Result<()>, second: Result<()>, ghost ends: nat)
    ensures first == (if endError.Some? then Err(endError.value) else Ok(()))
    ensures second == Ok(())
    ensures ends == 1
  {
    var p := new MySqlPool(config);
    first := p.End(endError);
    second := p.End(again);
    ends := |p.calls|;
  }

  /** An ended pool gives out no connections, even when ending it failed. */
  method GetConnectionAfterEnd(config: Config, endError: Option<Error>, reply: Result<Session>)
    returns (r: Result<Connection.MySqlConnection>)
    ensures r == Err(Rejection("Pool has ended. Connections are not available."))
  {
    var p := new MySqlPool(config);
    var _ := p.End(endError);
    r := p.GetConnection(reply);
  }

  /** A pooled connection is released, not ended, by `done()`. */
  method PooledDone(config: Config, session: Session, outcome: Option<Error>)
    returns (r: Result<()>, ghost released: bool)
    requires session.canRelease
    ensures r == (if outcome.Some? then Err(outcome.value) else Ok(()))
    ensures released
  {
    var p := new MySqlPool(config);
    var got := p.GetConnection(Ok(session));
    var c := got.value;
    r := c.Done(outcome);
    released := c.calls == [Release];
  }
}
