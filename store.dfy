/**
 * The database session: `live` is what queries inside the run see (pending
 * writes included, as with autoflush), `durable` is the last committed state
 * and `commits` counts commits. Rollback returns `live` to `durable`.
 */
module Store {
  import opened Models

  datatype Db = Db(live: Tables, durable: Tables, commits: nat) {
    function Write(t: Tables): Db { this.(live := t) }
    function Commit(): Db { Db(live, live, commits + 1) }
    function Rollback(): Db { this.(live := durable) }
  }

  /** Both the pending and the committed state are referentially safe. */
  predicate SafeDb(d: Db) {
    Safe(d.live) && Safe(d.durable)
  }

  /** Nothing is ever deleted: every committed row is still visible. */
  predicate Coherent(d: Db) {
    Grows(d.durable, d.live)
  }

  /** A counting job's loop state: the session, its counter, and whether an exception escaped. */
  datatype Count = Count(db: Db, added: nat, raised: bool)

  /** An enumerating job's loop state: the session, its counter, and the 1-based position reached. */
  datatype Progress = Progress(db: Db, done: nat, idx: nat)

  function Open(t: Tables): (d: Db)
    ensures SafeDb(d) <==> Safe(t)
  {
    Db(t, t, 0)
  }

  lemma CommitKeepsSafe(d: Db)
    requires Safe(d.live)
    ensures SafeDb(d.Commit())
  {
  }

  lemma RollbackKeepsSafe(d: Db)
    requires Safe(d.durable)
    ensures SafeDb(d.Rollback())
  {
  }

  /** Nothing written after the last commit survives a rollback. */
  lemma RollbackForgetsPending(d: Db, t: Tables)
    ensures d.Write(t).Rollback() == d.Rollback()
    ensures d.Commit().Write(t).Rollback() == d.Commit()
  {
  }

  /** The session object the jobs share. */
  class Session {
    var live: Tables
    var durable: Tables
    var commits: nat

    function State(): Db
      reads this
    {
      Db(live, durable, commits)
    }

    constructor (t: Tables)
      ensures State() == Open(t)
    {
      live, durable, commits := t, t, 0;
    }

    /** `db.add` / `db.merge` / an attribute assignment: a pending write. */
    method Write(t: Tables)
      modifies this
      ensures State() == old(State()).Write(t)
    {
      live := t;
    }

    method Commit()
      modifies this
      ensures State() == old(State()).Commit()
    {
      durable := live;
      commits := commits + 1;
    }

    method Rollback()
      modifies this
      ensures State() == old(State()).Rollback()
    {
      live := durable;
    }
  }
}
