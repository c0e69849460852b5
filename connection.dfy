/** src/mysql-connection.js: a wrapper around one driver session that makes
    its calls promise-shaped and adds table helpers for tables with an
    auto-increment `id` key.

    Each operation takes, as a parameter, what the driver reports for the
    call it issues (the query reply, the error of a termination call, the
    outcome of a unit of work); the wrapper's part is which call it issues,
    with which SQL text and parameter list, and what it makes of the
    outcome. The calls issued are recorded in the ghost log `calls`. */
module Connection {
  import opened Text
  import opened Records
  import opened Driver
  import SqlUtil

  /** The termination call `done()` chooses for a session: `release` for a
      pooled session, otherwise `end`, otherwise `destroy`; none when the
      session has none of the three. */
  function Termination(s: Session): (c: Option<Call>)
    ensures c.Some? ==> IsTermination(c.value)
    ensures c == Some(Release) <==> s.canRelease
    ensures c == Some(End) <==> !s.canRelease && s.canEnd
    ensures c == Some(Destroy) <==> !s.canRelease && !s.canEnd && s.canDestroy
    ensures c.None? <==> !s.canRelease && !s.canEnd && !s.canDestroy
  {
    if s.canRelease then Some(Release)
    else if s.canEnd then Some(End)
    else if s.canDestroy then Some(Destroy)
    else None
  }

  /** `rows[0]`: the first row of a row reply; undefined (None) for an
      empty result or a reply that is not a row list. */
  function FirstRow(reply: Reply): (r: Option<Row>)
    ensures r.Some? <==> reply.Rows? && |reply.rows| > 0
    ensures r.Some? ==> r.value == reply.rows[0]
  {
    if reply.Rows? && |reply.rows| > 0 then Some(reply.rows[0]) else None
  }

  /** `result.insertId`: present only on the packet of a write. */
  function InsertId(reply: Reply): (r: Option<int>)
    ensures r.Some? <==> reply.Packet?
    ensures reply.Packet? ==> r == Some(reply.insertId)
  {
    if reply.Packet? then Some(reply.insertId) else None
  }

  /** `...values, ...values`: the field values in key order, once for the
      values list and once for the conflict clause. */
  function UpsertParams(f: Fields): (params: seq<Value>)
    ensures |params| == 2 * |f|
    ensures forall i :: 0 <= i < |f| ==> params[i] == f[i].1 && params[|f| + i] == f[i].1
  {
    Values(f) + Values(f)
  }

  /** The doubled values bind the upsert's placeholders one for one. */
  lemma UpsertBindsEveryPlaceholder(table: string, f: Fields)
    requires '?' !in table && SqlUtil.KeysFree('?', f)
    ensures Occurrences('?', SqlUtil.Upsert(table, f)) == |UpsertParams(f)|
  {
    SqlUtil.UpsertPlaceholders(table, f);
  }

  /** The single id parameter binds the one placeholder of each by-id statement. */
  lemma ByIdBindsEveryPlaceholder(table: string, f: Fields, id: Value)
    requires '?' !in table
    requires forall i :: 0 <= i < |f| ==> FieldFree('?', f[i])
    ensures Occurrences('?', SqlUtil.GetById(table)) == |[id]|
    ensures Occurrences('?', SqlUtil.DeleteById(table)) == |[id]|
    ensures Occurrences('?', SqlUtil.UpdateById(table, f)) == |[id]|
  {
    SqlUtil.UpdateByIdPlaceholders(table, f);
  }

  class MySqlConnection {
    /** The wrapped session; `null` once it has been given up. */
    var connection: Option<Session>
    /** `config && config.debug`: only gates logging. */
    const debug: bool
    /** Every call this wrapper has issued to the session, in order. */
    ghost var calls: seq<Call>

    /** The session is given up at most once, nothing is issued to it
        afterwards, and while the wrapper still holds it, it has not been
        given up. */
    ghost predicate Valid()
      reads this
    {
      OnlyLast(calls, IsTermination) && (connection.Some? ==> NoneWhere(calls, IsTermination))
    }

    /** A valid wrapper has issued at most one termination call. */
    lemma TerminatedAtMostOnce()
      requires Valid()
      ensures CountWhere(calls, IsTermination) <= 1
    {
      OnlyLastAtMostOnce(calls, IsTermination);
    }

    constructor (session: Session, config: Option<Config>)
      ensures connection == Some(session)
      ensures debug == (config.Some? && config.value.debug)
      ensures calls == []
      ensures Valid()
    {
      connection := Some(session);
      debug := config.Some? && config.value.debug;
      calls := [];
    }

    /** `destroy()`: destroys a held session and drops it; a session object
        without `destroy` makes the call throw, leaving the wrapper as it was. */
    method Destroy() returns (r: Result<()>)
      requires Valid()
      modifies this
      ensures Valid()
      ensures old(connection).None? ==> r == Ok(()) && connection.None? && calls == old(calls)
      ensures old(connection).Some? && !old(connection).value.canDestroy ==>
        r == Err(TypeError("destroy")) && connection == old(connection) && calls == old(calls)
      ensures old(connection).Some? && old(connection).value.canDestroy ==>
        r == Ok(()) && connection.None? && calls == old(calls) + [Call.Destroy]
    {
      r := Ok(());
      if connection.Some? {
        if !connection.value.canDestroy {
          r := Err(TypeError("destroy"));
          return;
        }
        NoneWhereThen(calls, Call.Destroy, IsTermination);
        calls := calls + [Call.Destroy];
        connection := None;
      }
    }

    /** `done()`: drops the session and gives it up once, by the call
        `Termination` chooses; `outcome` is the error that call reports. */
    method Done(outcome: Option<Error>) returns (r: Result<()>)
      requires Valid()
      modifies this
      ensures Valid()
      ensures connection.None?
      ensures old(connection).None? ==> r == Ok(()) && calls == old(calls)
      ensures old(connection).Some? ==>
        var t := Termination(old(connection).value);
        calls == old(calls) + (if t.Some? then [t.value] else [])
        && r == (if t.None? then Err(Rejection("Unrecognizable connection type."))
                 else if outcome.Some? then Err(outcome.value)
                 else Ok(()))
    {
      var conn := connection;
      connection := None;
      if conn.None? {
        return Ok(());
      }
      var s := conn.value;
      var call: Call;
      if s.canRelease {
        call := Release;
      } else if s.canEnd {
        call := End;
      } else if s.canDestroy {
        call := Call.Destroy;
      } else {
        return Err(Rejection("Unrecognizable connection type."));
      }
      NoneWhereThen(calls, call, IsTermination);
      calls := calls + [call];
      r := if outcome.Some? then Err(outcome.value) else Ok(());
    }

    /** `query(sql, ...params)`: rejected without a session; otherwise the
        query is issued and its reply passed on. */
    method Query(sql: string, params: seq<Value>, reply: Result<Reply>) returns (r: Result<Reply>)
      requires Valid()
      modifies this`calls
      ensures Valid()
      ensures old(connection).None? ==> r == Err(Rejection("Connection not available.")) && calls == old(calls)
      ensures old(connection).Some? ==> r == reply && calls == old(calls) + [Call.Query(sql, params)]
    {
      if connection.None? {
        return Err(Rejection("Connection not available."));
      }
      NoneWhereAppend(calls, Call.Query(sql, params), IsTermination);
      calls := calls + [Call.Query(sql, params)];
      r := reply;
    }

    method DeleteAll(table: string, reply: Result<Reply>) returns (r: Result<Reply>)
      requires Valid()
      modifies this`calls
      ensures Valid()
      ensures old(connection).None? ==> r == Err(Rejection("Connection not available.")) && calls == old(calls)
      ensures old(connection).Some? ==> r == reply && calls == old(calls) + [Call.Query(SqlUtil.DeleteAll(table), [])]
    {
      r := Query(SqlUtil.DeleteAll(table), [], reply);
    }

    method DeleteById(table: string, id: Value, reply: Result<Reply>) returns (r: Result<Reply>)
      requires Valid()
      modifies this`calls
      ensures Valid()
      ensures old(connection).None? ==> r == Err(Rejection("Connection not available.")) && calls == old(calls)
      ensures old(connection).Some? ==> r == reply && calls == old(calls) + [Call.Query(SqlUtil.DeleteById(table), [id])]
    {
      r := Query(SqlUtil.DeleteById(table), [id], reply);
    }

    method GetAll(table: string, reply: Result<Reply>) returns (r: Result<Reply>)
      requires Valid()
      modifies this`calls
      ensures Valid()
      ensures old(connection).None? ==> r == Err(Rejection("Connection not available.")) && calls == old(calls)
      ensures old(connection).Some? ==> r == reply && calls == old(calls) + [Call.Query(SqlUtil.GetAll(table), [])]
    {
      r := Query(SqlUtil.GetAll(table), [], reply);
    }

    /** The first row of the reply; a failed query's error is passed on. */
    method GetById(table: string, id: Value, reply: Result<Reply>) returns (r: Result<Option<Row>>)
      requires Valid()
      modifies this`calls
      ensures Valid()
      ensures old(connection).None? ==> r == Err(Rejection("Connection not available.")) && calls == old(calls)
      ensures old(connection).Some? ==>
        calls == old(calls) + [Call.Query(SqlUtil.GetById(table), [id])]
        && r == (if reply.Ok? then Ok(FirstRow(reply.value)) else Err(reply.error))
    {
      var q := Query(SqlUtil.GetById(table), [id], reply);
      r := if q.Ok? then Ok(FirstRow(q.value)) else Err(q.error);
    }

    /** Binds the values in key order and yields the generated id. */
    method Insert(table: string, f: Fields, reply: Result<Reply>) returns (r: Result<Option<int>>)
      requires Valid()
      modifies this`calls
      ensures Valid()
      ensures old(connection).None? ==> r == Err(Rejection("Connection not available.")) && calls == old(calls)
      ensures old(connection).Some? ==>
        calls == old(calls) + [Call.Query(SqlUtil.Insert(table, f), Values(f))]
        && r == (if reply.Ok? then Ok(InsertId(reply.value)) else Err(reply.error))
    {
      var q := Query(SqlUtil.Insert(table, f), Values(f), reply);
      r := if q.Ok? then Ok(InsertId(q.value)) else Err(q.error);
    }

    /** Only the id is bound; the values are inlined in the text. */
    method UpdateById(table: string, id: Value, f: Fields, reply: Result<Reply>) returns (r: Result<Reply>)
      requires Valid()
      modifies this`calls
      ensures Valid()
      ensures old(connection).None? ==> r == Err(Rejection("Connection not available.")) && calls == old(calls)
      ensures old(connection).Some? ==> r == reply && calls == old(calls) + [Call.Query(SqlUtil.UpdateById(table, f), [id])]
    {
      r := Query(SqlUtil.UpdateById(table, f), [id], reply);
    }

    /** Binds the values twice and yields the id of the inserted or updated row. */
    method Upsert(table: string, f: Fields, reply: Result<Reply>) returns (r: Result<Option<int>>)
      requires Valid()
      modifies this`calls
      ensures Valid()
      ensures old(connection).None? ==> r == Err(Rejection("Connection not available.")) && calls == old(calls)
      ensures old(connection).Some? ==>
        calls == old(calls) + [Call.Query(SqlUtil.Upsert(table, f), UpsertParams(f))]
        && r == (if reply.Ok? then Ok(InsertId(reply.value)) else Err(reply.error))
    {
      var q := Query(SqlUtil.Upsert(table, f), UpsertParams(f), reply);
      r := if q.Ok? then Ok(InsertId(q.value)) else Err(q.error);
    }

    /** `transaction(fn)`: rejected without a session; otherwise begins a
        transaction, commits when the unit of work resolves (with its
        value) and rolls back when it fails (with its error). */
    method Transaction<T>(work: Result<T>) returns (r: Result<T>)
      requires Valid()
      modifies this`calls
      ensures Valid()
      ensures old(connection).None? ==> r == Err(Rejection("Connection not available.")) && calls == old(calls)
      ensures old(connection).Some? ==>
        r == work && calls == old(calls) + [BeginTransaction, if work.Ok? then Commit else Rollback]
    {
      if connection.None? {
        return Err(Rejection("Connection not available."));
      }
      NoneWhereAppend(calls, BeginTransaction, IsTermination);
      calls := calls + [BeginTransaction];
      var finish := if work.Ok? then Commit else Rollback;
      NoneWhereAppend(calls, finish, IsTermination);
      calls := calls + [finish];
      r := work;
    }
  }

  // ---------------------------------------------------------------------
  // Uses of the wrapper

  /** A second `done()` resolves and issues nothing. */
  method DoneTwice(s: Session, outcome: Option<Error>, again: Option<Error>)
    returns (first: Result<()>, second: Result<()>, ghost terminations: nat)
    ensures first.Ok? <==> Termination(s).Some? && outcome.None?
    ensures second == Ok(())
    ensures terminations == (if Termination(s).Some? then 1 else 0)
  {
    var c := new MySqlConnection(s, None);
    first := c.Done(outcome);
    second := c.Done(again);
    terminations := |c.calls|;
  }

  /** Once `done()` has given the session up, queries are rejected. */
  method QueryAfterDone(s: Session, outcome: Option<Error>, sql: string, reply: Result<Reply>)
    returns (r: Result<Reply>)
    ensures r == Err(Rejection("Connection not available."))
  {
    var c := new MySqlConnection(s, None);
    var _ := c.Done(outcome);
    r := c.Query(sql, [], reply);
  }

  /** A unit of work that fails makes the transaction reject with that
      same error, after a rollback. */
  method FailedTransaction(s: Session, e: Error) returns (r: Result<int>, ghost last: Call)
    ensures r == Err(e)
    ensures last == Rollback
  {
    var c := new MySqlConnection(s, None);
    r := c.Transaction(Err(e));
    last := c.calls[|c.calls| - 1];
  }
}
