/** Which checkpoint store a graph is built on: one connection per DSN and process, and a
    store of its own for every graph that is built without one. */
module Checkpointers {
  import opened Prelude

  /** A saver, with the context manager that holds its connection, if it has one. */
  class Saver {
    const dsn: Option<string>
    var exits: nat

    constructor (dsn: Option<string>)
      ensures this.dsn == dsn && exits == 0
    {
      this.dsn := dsn;
      exits := 0;
    }
  }

  datatype Resolved = Found(saver: Saver) | Failed(message: string)

  /** How a connection attempt goes: it opens and is set up, it does not open, or it opens
      and its setup raises. */
  datatype Connecting = Ready | Refused(message: string) | SetupRaises(message: string)

  class Registry {
    var postgresSavers: map<string, Saver>
    var openCms: seq<Saver>
    ghost var strays: seq<Saver>   // opened, but recorded nowhere

    /** Each cached saver has one open connection of its own, and each open connection is
        cached under its own DSN. */
    ghost predicate Valid()
      reads this, openCms
    {
      && (forall d | d in postgresSavers :: postgresSavers[d] in openCms && postgresSavers[d].dsn == Some(d))
      && (forall s | s in openCms ::
            s.exits == 0 && s.dsn.Some? && s.dsn.value in postgresSavers && postgresSavers[s.dsn.value] == s)
      && (forall i, j | 0 <= i < j < |openCms| :: openCms[i] != openCms[j])
      && (forall s | s in strays :: s !in openCms)
    }

    constructor ()
      ensures Valid() && postgresSavers == map[] && strays == []
    {
      postgresSavers, openCms, strays := map[], [], [];
    }

    /** An injected store wins; without a DSN the store is new and nobody else's; with one
        it is the same store every time once a connection has been set up. A connection is
        opened exactly if there is none for the DSN yet and it is not refused; if its setup
        raises it is recorded nowhere, and the next call opens another one. */
    method Resolve(injected: Saver?, dsn: Option<string>, connecting: Connecting) returns (r: Resolved)
      requires Valid()
      modifies this
      ensures Valid()
      ensures injected != null ==> r == Found(injected)
      ensures injected == null && dsn.GetOr("") == "" ==> r.Found? && fresh(r.saver) && r.saver.dsn.None?
      ensures injected == null && dsn.GetOr("") != "" && r.Found? ==>
                dsn.value in postgresSavers && r == Found(postgresSavers[dsn.value])
      ensures var connects := injected == null && dsn.GetOr("") != "" && dsn.value !in old(postgresSavers);
              && (r.Failed? <==> connects && !connecting.Ready?)
              && |openCms| == |old(openCms)| + (if connects && connecting.Ready? then 1 else 0)
              && |strays| == |old(strays)| + (if connects && connecting.SetupRaises? then 1 else 0)
      ensures forall d | d in old(postgresSavers) ::
                d in postgresSavers && postgresSavers[d] == old(postgresSavers)[d]
    {
      if injected != null {
        return Found(injected);
      }
      if dsn.GetOr("") == "" {
        var memory := new Saver(None);
        return Found(memory);
      }
      if dsn.value in postgresSavers {
        return Found(postgresSavers[dsn.value]);
      }
      if connecting.Refused? {
        return Failed(connecting.message);
      }
      var saver := new Saver(dsn);
      if connecting.SetupRaises? {
        strays := strays + [saver];
        return Failed(connecting.message);
      }
      openCms := openCms + [saver];
      postgresSavers := postgresSavers[dsn.value := saver];
      return Found(saver);
    }

    /** Every recorded connection is closed exactly once, last one first, and none stays
        cached; a stray one is not touched. */
    method CloseOpenCheckpointers()
      requires Valid()
      modifies this, openCms
      ensures Valid() && postgresSavers == map[] && openCms == []
      ensures forall s | s in old(openCms) :: s.exits == 1
      ensures strays == old(strays) && forall s | s in strays :: s.exits == old(s.exits)
    {
      ghost var all := openCms;
      while openCms != []
        invariant openCms <= all
        invariant forall i | 0 <= i < |all| :: all[i].exits == if i < |openCms| then 0 else 1
        invariant strays == old(strays) && forall s | s in strays :: s.exits == old(s.exits)
        decreases |openCms|
      {
        var cm := openCms[|openCms| - 1];
        openCms := openCms[..|openCms| - 1];
        cm.exits := cm.exits + 1;
      }
      postgresSavers := map[];
    }
  }
}
