/** The older top-level index.js: one object that owns a driver pool and
    runs every statement on the pool directly. As elsewhere, the driver's
    reply to a query is a parameter and the calls issued to the driver pool
    are recorded in the ghost log `calls`. */
module Legacy {
  import opened Records
  import opened Driver
  import SqlUtil
  import LegacySql

  class MySqlConnection {
    /** The driver pool; `null` once disconnected. */
    var pool: Option<DriverPool>
    /** `config.debug`: only gates logging. */
    const debug: bool
    /** Every call issued to the driver pool, in order. */
    ghost var calls: seq<PoolCall>

    /** The pool is ended at most once and, while held, has not been ended. */
    ghost predicate Valid()
      reads this
    {
      OnlyLast(calls, IsPoolEnd) && (pool.Some? ==> NoneWhere(calls, IsPoolEnd))
    }

    /** A valid object has ended its pool at most once. */
    lemma EndedAtMostOnce()
      requires Valid()
      ensures CountWhere(calls, IsPoolEnd) <= 1
    {
      OnlyLastAtMostOnce(calls, IsPoolEnd);
    }

    constructor (config: Config)
      ensures pool == Some(DriverPool(config))
      ensures debug == config.debug
      ensures calls == []
      ensures Valid()
    {
      pool := Some(DriverPool(config));
      debug := config.debug;
      calls := [];
    }

    /** `disconnect()`: ends a held pool, without waiting for or looking at
        the outcome, and drops it. */
    method Disconnect()
      requires Valid()
      modifies this
      ensures Valid()
      ensures pool.None?
      ensures calls == old(calls) + (if old(pool).Some? then [PoolEnd] else [])
    {
      if pool.Some? {
        NoneWhereThen(calls, PoolEnd, IsPoolEnd);
        calls := calls + [PoolEnd];
        pool := None;
      }
    }

    /** `query(sql, ...params)`: rejected without a pool; otherwise the
        query runs on the pool and its reply is passed on. */
    method Query(sql: string, params: seq<Value>, reply: Result<Reply>) returns (r: Result<Reply>)
      requires Valid()
      modifies this`calls
      ensures Valid()
      ensures old(pool).None? ==> r == Err(Rejection("pool not configured")) && calls == old(calls)
      ensures old(pool).Some? ==> r == reply && calls == old(calls) + [PoolQuery(sql, params)]
    {
      if pool.None? {
        return Err(Rejection("pool not configured"));
      }
      NoneWhereAppend(calls, PoolQuery(sql, params), IsPoolEnd);
      calls := calls + [PoolQuery(sql, params)];
      r := reply;
    }

    method DeleteAll(table: string, reply: Result<Reply>) returns (r: Result<Reply>)
      requires Valid()
      modifies this`calls
      ensures Valid()
      ensures old(pool).None? ==> r == Err(Rejection("pool not configured")) && calls == old(calls)
      ensures old(pool).Some? ==> r == reply && calls == old(calls) + [PoolQuery(SqlUtil.DeleteAll(table), [])]
    {
      r := Query(SqlUtil.DeleteAll(table), [], reply);
    }

    method DeleteById(table: string, id: Value, reply: Result<Reply>) returns (r: Result<Reply>)
      requires Valid()
      modifies this`calls
      ensures Valid()
      ensures old(pool).None? ==> r == Err(Rejection("pool not configured")) && calls == old(calls)
      ensures old(pool).Some? ==> r == reply && calls == old(calls) + [PoolQuery(LegacySql.DeleteById(table), [id])]
    {
      r := Query(LegacySql.DeleteById(table), [id], reply);
    }

    method GetAll(table: string, reply: Result<Reply>) returns (r: Result<Reply>)
      requires Valid()
      modifies this`calls
      ensures Valid()
      ensures old(pool).None? ==> r == Err(Rejection("pool not configured")) && calls == old(calls)
      ensures old(pool).Some? ==> r == reply && calls == old(calls) + [PoolQuery(SqlUtil.GetAll(table), [])]
    {
      r := Query(SqlUtil.GetAll(table), [], reply);
    }

    /** Yields the whole reply, not its first row. */
    method GetById(table: string, id: Value, reply: Result<Reply>) returns (r: Result<Reply>)
      requires Valid()
      modifies this`calls
      ensures Valid()
      ensures old(pool).None? ==> r == Err(Rejection("pool not configured")) && calls == old(calls)
      ensures old(pool).Some? ==> r == reply && calls == old(calls) + [PoolQuery(LegacySql.GetById(table), [id])]
    {
      r := Query(LegacySql.GetById(table), [id], reply);
    }

    /** Binds the values in key order to `$1 … $n`. */
    method Insert(table: string, f: Fields, reply: Result<Reply>) returns (r: Result<Reply>)
      requires Valid()
      modifies this`calls
      ensures Valid()
      ensures old(pool).None? ==> r == Err(Rejection("pool not configured")) && calls == old(calls)
      ensures old(pool).Some? ==> r == reply && calls == old(calls) + [PoolQuery(LegacySql.Insert(table, f), Values(f))]
    {
      r := Query(LegacySql.Insert(table, f), Values(f), reply);
    }

    /** Only the id is bound, to `$1`. */
    method UpdateById(table: string, id: Value, f: Fields, reply: Result<Reply>) returns (r: Result<Reply>)
      requires Valid()
      modifies this`calls
      ensures Valid()
      ensures old(pool).None? ==> r == Err(Rejection("pool not configured")) && calls == old(calls)
      ensures old(pool).Some? ==> r == reply && calls == old(calls) + [PoolQuery(LegacySql.UpdateById(table, f), [id])]
    {
      r := Query(LegacySql.UpdateById(table, f), [id], reply);
    }
  }

  // ---------------------------------------------------------------------
  // Uses of the object

  /** Disconnecting twice ends the pool once. */
  method DisconnectTwice(config: Config) returns (ghost ends: nat, connected: bool)
    ensures ends == 1
    ensures !connected
  {
    var c := new MySqlConnection(config);
    c.Disconnect();
    c.Disconnect();
    ends := |c.calls|;
    connected := c.pool.Some?;
  }

  /** After `disconnect()`, queries are rejected. */
  method QueryAfterDisconnect(config: Config, sql: string, params: seq<Value>, reply: Result<Reply>)
    returns (r: Result<Reply>)
    ensures r == Err(Rejection("pool not configured"))
  {
    var c := new MySqlConnection(config);
    c.Disconnect();
    r := c.Query(sql, params, reply);
  }
}
