/** What the wrappers see of the `mysql` driver: its sessions and pools as
    abstract values, the calls the wrappers issue to them (kept as a call
    log), the replies it hands back, and the outcomes of promises. */
module Driver {
  import opened Records

  datatype Option<+T> = None | Some(value: T)

  /** Why a promise rejected or a call threw. */
  datatype Error =
    | Rejection(reason: string)   // a promise rejected with a plain string
    | Thrown(message: string)     // `throw new Error(message)`
    | TypeError(property: string) // calling a method the driver object lacks
    | External(tag: nat)          // an error from the driver or the caller's code, passed on unchanged

  /** A settled promise: resolved with a value or rejected with an error. */
  datatype Result<+T> = Ok(value: T) | Err(error: Error)

  /** The options handed to the driver. Only `debug` is read by the wrappers;
      the rest goes to the driver unchanged. */
  datatype Config = Config(database: string, debug: bool)

  /** A driver session, known by which termination methods it has. A pooled
      connection has `release`; a standalone one has `end` and `destroy`. */
  datatype Session = Session(canRelease: bool, canEnd: bool, canDestroy: bool)

  /** The session that `mysql.createConnection` returns. */
  const Standalone := Session(canRelease := false, canEnd := true, canDestroy := true)

  /** A driver pool, made from the configuration it was created with. */
  datatype DriverPool = DriverPool(config: Config)

  /** What the driver hands to a query callback: rows for a read, or a
      packet with the generated id for a write. */
  datatype Reply = Rows(rows: seq<Row>) | Packet(insertId: int)

  /** A call a wrapper issues to its session. */
  datatype Call =
    | Query(sql: string, params: seq<Value>)
    | BeginTransaction
    | Commit
    | Rollback
    | Release
    | End
    | Destroy

  /** A call a wrapper issues to its driver pool. */
  datatype PoolCall =
    | PoolQuery(sql: string, params: seq<Value>)
    | PoolGetConnection
    | PoolEnd

  /** Calls that give the session up. */
  predicate IsTermination(c: Call)
  {
    c.Release? || c.End? || c.Destroy?
  }

  predicate IsPoolEnd(c: PoolCall)
  {
    c.PoolEnd?
  }

  // ---------------------------------------------------------------------
  // Call logs

  /** How many calls of `log` satisfy `p`. */
  function CountWhere<T>(log: seq<T>, p: T -> bool): nat
    decreases |log|
  {
    if |log| == 0 then 0
    else CountWhere(log[..|log| - 1], p) + (if p(log[|log| - 1]) then 1 else 0)
  }

  /** A call satisfying `p` can only be the last call of `log`: nothing is
      issued after it. */
  predicate OnlyLast<T>(log: seq<T>, p: T -> bool)
  {
    forall i :: 0 <= i < |log| - 1 ==> !p(log[i])
  }

  /** No call of `log` satisfies `p`. */
  ghost predicate NoneWhere<T>(log: seq<T>, p: T -> bool)
  {
    forall i :: 0 <= i < |log| ==> !p(log[i])
  }

  lemma NoneWhereAppend<T>(log: seq<T>, c: T, p: T -> bool)
    requires NoneWhere(log, p) && !p(c)
    ensures NoneWhere(log + [c], p)
  {
  }

  /** Any call may follow a log in which none satisfies `p`. */
  lemma NoneWhereThen<T>(log: seq<T>, c: T, p: T -> bool)
    requires NoneWhere(log, p)
    ensures OnlyLast(log + [c], p)
  {
  }

  /** A log whose calls satisfying `p` are all at its end holds at most one. */
  lemma OnlyLastAtMostOnce<T>(log: seq<T>, p: T -> bool)
    requires OnlyLast(log, p)
    ensures CountWhere(log, p) <= 1
  {
    if |log| > 0 {
      var init := log[..|log| - 1];
      NoneCounted(init, p);
    }
  }

  lemma {:induction false} NoneCounted<T>(log: seq<T>, p: T -> bool)
    requires NoneWhere(log, p)
    ensures CountWhere(log, p) == 0
    decreases |log|
  {
    if |log| > 0 {
      NoneCounted(log[..|log| - 1], p);
    }
  }
}
