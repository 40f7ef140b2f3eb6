// Connections whose writes fail, and the list of those that must still be exited.
module DeadLinks {
  import opened Lists
  import opened Entities

  predicate Defunct(c: Client)
    reads c`dead, c`closing, c`killed
  {
    c.dead || c.closing || c.killed
  }

  ghost function Alive(conn: set<Client>): set<Client>
    reads conn`dead, conn`closing, conn`killed
  {
    set c | c in conn && !Defunct(c)
  }

  /** The connections whose exit has begun. */
  ghost function Closing(conn: set<Client>): set<Client>
    reads conn`closing
  {
    set c | c in conn && c.closing
  }

  /** Queued connections are known to be dead and are queued once. Some may already have exited: a command can write
      to a connection and then exit it. */
  ghost predicate QueueOk(d: Ircd, conn: set<Client>)
    reads d`abortList, conn`dead
  {
    && Distinct(d.abortList)
    && forall c :: c in d.abortList ==> c in conn && c.dead
  }

  /** The saved iterator names the node to be exited next. */
  ghost predicate NamesNext(d: Ircd)
    reads d`abortList, d`eacNext
  {
    d.eacNext == if d.abortList == [] then null else d.abortList[0]
  }

  /** What is still to be exited, and what could still be queued. */
  ghost function Work(d: Ircd, conn: set<Client>): nat
    reads d`abortList, conn`dead, conn`closing, conn`killed
  {
    |d.abortList| + |Alive(conn)|
  }

  /** dead_link_on_write: a connection is queued the first time a write to it fails. */
  method DeadLinkOnWrite(d: Ircd, client: Client, ghost conn: set<Client>)
    requires client in conn && QueueOk(d, conn)
    modifies d`abortList, d`eacNext, client`dead
    ensures QueueOk(d, conn)
    ensures client.dead <==> old(!Defunct(client)) || old(client.dead)
    ensures d.abortList == if old(Defunct(client)) then old(d.abortList) else old(d.abortList) + [client]
    ensures client in d.abortList && client !in old(d.abortList) <==>
      !old(client.dead) && !client.closing && !client.killed
    ensures old(NamesNext(d)) ==> NamesNext(d)
    ensures Work(d, conn) == old(Work(d, conn))
  {
    if client.dead || client.closing || client.killed {
      return;
    }
    assert client !in d.abortList;
    ghost var before := Alive(conn);
    d.abortList := d.abortList + [client];
    if d.eacNext == null {
      d.eacNext := client;
    }
    client.dead := true;
    assert Alive(conn) == before - {client};
  }

  /** Messages go out, and some of the writes fail. */
  method Broadcast(d: Ircd, failing: seq<Client>, ghost conn: set<Client>)
    requires QueueOk(d, conn) && forall c :: c in failing ==> c in conn
    modifies d`abortList, d`eacNext, conn`dead
    ensures QueueOk(d, conn) && old(d.abortList) <= d.abortList
    ensures forall c :: c in failing ==> Defunct(c)
    ensures forall c :: c in conn ==> (c.dead <==> old(c.dead) || (c in failing && !c.closing && !c.killed))
    ensures forall c :: c in conn ==>
      (c in d.abortList <==> c in old(d.abortList) || (c in failing && !old(c.dead) && !c.closing && !c.killed))
    ensures forall c :: c in d.abortList && c.closing ==> c in old(d.abortList)
    ensures old(NamesNext(d)) ==> NamesNext(d)
    ensures Work(d, conn) == old(Work(d, conn))
  {
    for i := 0 to |failing|
      invariant QueueOk(d, conn) && old(d.abortList) <= d.abortList
      invariant forall c :: c in failing[..i] ==> Defunct(c)
      invariant forall c :: c in conn ==> (c.dead <==> old(c.dead) || (c in failing[..i] && !c.closing && !c.killed))
      invariant forall c :: c in conn ==>
        (c in d.abortList <==> c in old(d.abortList) || (c in failing[..i] && !old(c.dead) && !c.closing && !c.killed))
      invariant forall c :: c in d.abortList && c.closing ==> c in old(d.abortList)
      invariant old(NamesNext(d)) ==> NamesNext(d)
      invariant Work(d, conn) == old(Work(d, conn))
    {
      DeadLinkOnWrite(d, failing[i], conn);
    }
  }
}
