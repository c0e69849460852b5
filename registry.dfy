/** src/index.js: the shared `MySqlEasier` object holding the application's
    global pool, plus factories for standalone pools and connections. */
module Registry {
  import opened Driver
  import Connection
  import Pool

  class MySqlEasier {
    /** The pool made by `configure`; `null` before it and after `endPool`. */
    var globalPool: Pool.MySqlPool?

    /** The global pool, when there is one, keeps its own invariant. */
    ghost predicate Valid()
      reads this, globalPool
    {
      globalPool != null ==> globalPool.Valid()
    }

    constructor ()
      ensures globalPool == null
      ensures Valid()
    {
      globalPool := null;
    }

    /** `configure(config)`: throws when a global pool exists; otherwise
        makes one from `config`. */
    method Configure(config: Config) returns (r: Result<()>)
      requires Valid()
      modifies this
      ensures Valid()
      ensures old(globalPool) != null ==>
        r == Err(Thrown("Pool has already been configured.")) && globalPool == old(globalPool)
      ensures old(globalPool) == null ==>
        r == Ok(()) && globalPool != null && fresh(globalPool)
        && globalPool.config == config && globalPool.pool == Some(DriverPool(config))
        && globalPool.calls == []
    {
      if globalPool != null {
        return Err(Thrown("Pool has already been configured."));
      }
      globalPool := CreatePool(config);
      r := Ok(());
    }

    /** `createPool(config)`: a new pool, not the global one. */
    method CreatePool(config: Config) returns (p: Pool.MySqlPool)
      ensures fresh(p) && p.Valid()
      ensures p.config == config && p.pool == Some(DriverPool(config)) && p.calls == []
      ensures globalPool == old(globalPool)
    {
      p := new Pool.MySqlPool(config);
    }

    /** `createConnection(config)`: a wrapper around a new standalone session. */
    method CreateConnection(config: Config) returns (c: Connection.MySqlConnection)
      ensures fresh(c) && c.Valid()
      ensures c.connection == Some(Standalone) && c.debug == config.debug && c.calls == []
      ensures globalPool == old(globalPool)
    {
      c := new Connection.MySqlConnection(Standalone, Some(config));
    }

    /** `endPool()`: rejected without a global pool; otherwise drops the
        global pool first and then ends it, passing on what ending reports. */
    method EndPool(endError: Option<Error>) returns (r: Result<()>)
      requires Valid()
      modifies this, globalPool
      ensures Valid()
      ensures globalPool == null
      ensures old(globalPool) == null ==> r == Err(Rejection("Pool not configured"))
      ensures old(globalPool) != null ==>
        old(globalPool).pool.None?
        && (old(globalPool.pool).None? ==> r == Ok(()) && old(globalPool).calls == old(globalPool.calls))
        && (old(globalPool.pool).Some? ==>
              old(globalPool).calls == old(globalPool.calls) + [PoolEnd]
              && r == (if endError.Some? then Err(endError.value) else Ok(())))
    {
      if globalPool == null {
        return Err(Rejection("Pool not configured"));
      }
      var poolToEnd := globalPool;
      globalPool := null;
      r := poolToEnd.End(endError);
    }

    /** `getConnection()`: rejected without a global pool; otherwise a
        connection from the global pool. */
    method GetConnection(reply: Result<Session>) returns (r: Result<Connection.MySqlConnection>)
      requires Valid()
      modifies globalPool
      ensures Valid()
      ensures globalPool == old(globalPool)
      ensures globalPool != null ==> globalPool.pool == old(globalPool.pool)
      ensures old(globalPool) == null ==> r == Err(Rejection("Pool not configured"))
      ensures old(globalPool) != null && old(globalPool.pool).None? ==>
        r == Err(Rejection("Pool has ended. Connections are not available."))
        && globalPool.calls == old(globalPool.calls)
      ensures old(globalPool) != null && old(globalPool.pool).Some? ==>
        globalPool.calls == old(globalPool.calls) + [PoolGetConnection]
        && (reply.Err? ==> r == Err(reply.error))
        && (reply.Ok? ==>
              r.Ok? && fresh(r.value) && r.value.Valid() && r.value.calls == []
              && r.value.connection == Some(reply.value) && r.value.debug == globalPool.config.debug)
    {
      if globalPool == null {
        return Err(Rejection("Pool not configured"));
      }
      r := globalPool.GetConnection(reply);
    }
  }

  // ---------------------------------------------------------------------
  // Uses of the registry

  /** After `endPool`, even one whose ending failed, a new global pool can be
      configured; configuring while one exists fails. */
  method Reconfigure(first: Config, second: Config, endError: Option<Error>)
    returns (again: Result<()>, after: Result<()>, ended: Result<()>, renewed: Result<()>)
    ensures again == Err(Thrown("Pool has already been configured."))
    ensures ended == (if endError.Some? then Err(endError.value) else Ok(()))
    ensures after == Ok(()) && renewed == Ok(())
  {
    var easier := new MySqlEasier();
    after := easier.Configure(first);
    again := easier.Configure(second);
    ended := easier.EndPool(endError);
    renewed := easier.Configure(second);
  }

  /** Getting a connection leaves the global pool open: a second request
      reaches the driver pool as well. */
  method GetConnectionTwice(config: Config, s1: Session, s2: Session)
    returns (a: Result<Connection.MySqlConnection>, b: Result<Connection.MySqlConnection>)
    ensures a.Ok? && b.Ok?
    ensures a.value.connection == Some(s1) && b.value.connection == Some(s2)
  {
    var easier := new MySqlEasier();
    var _ := easier.Configure(config);
    a := easier.GetConnection(Ok(s1));
    b := easier.GetConnection(Ok(s2));
  }

  /** A fresh registry has no pool: both of its pool operations reject. */
  method Unconfigured(endError: Option<Error>, reply: Result<Session>)
    returns (got: Result<Connection.MySqlConnection>, ended: Result<()>)
    ensures got == Err(Rejection("Pool not configured"))
    ensures ended == Err(Rejection("Pool not configured"))
  {
    var easier := new MySqlEasier();
    got := easier.GetConnection(reply);
    ended := easier.EndPool(endError);
  }

  /** A second `endPool` rejects: the first already dropped the global pool. */
  method EndPoolTwice(config: Config, endError: Option<Error>, again: Option<Error>)
    returns (first: Result<()>, second: Result<()>)
    ensures first == (if endError.Some? then Err(endError.value) else Ok(()))
    ensures second == Err(Rejection("Pool not configured"))
  {
    var easier := new MySqlEasier();
    var _ := easier.Configure(config);
    first := easier.EndPool(endError);
    second := easier.EndPool(again);
  }
}
