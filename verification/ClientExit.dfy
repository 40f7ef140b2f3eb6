// Exiting clients: one at a time, whole subtrees of the network, and the queue of dead connections.
module ClientExit {
  import opened Lists
  import opened Entities
  import opened Invites
  import opened Membership
  import opened ServerTree
  import opened DeadLinks

  // ---------------------------------------------------------------- the tree in the daemon

  ghost function Nodes(d: Ircd): set<Client>
    reads d`globalServers
  {
    {d.me} + set s | s in d.globalServers
  }

  ghost function UsersOn(servers: set<Client>): map<Client, seq<Client>>
    reads servers`clientList
  {
    map s | s in servers :: s.clientList
  }

  ghost function LinksOn(servers: set<Client>): map<Client, seq<Client>>
    reads servers`serverList
  {
    map s | s in servers :: s.serverList
  }

  ghost function Net(d: Ircd): Network
    reads d`globalClients, d`globalServers, d`deadList, Nodes(d)`clientList, Nodes(d)`serverList
  {
    Network(d.me, d.globalClients, d.globalServers, UsersOn(Nodes(d)), LinksOn(Nodes(d)), d.deadList)
  }

  // ---------------------------------------------------------------- the counters

  /** How many of the listed users have a user mode. */
  ghost function CountMode(list: seq<Client>, mode: char): nat
    reads (set u | u in list)`umodes
  {
    if list == [] then 0 else (if mode in list[0].umodes then 1 else 0) + CountMode(list[1..], mode)
  }

  /** Count.oper and Count.invisi are what a count over the global list would give. */
  ghost predicate Counted(d: Ircd)
    reads d`countOper, d`countInvisi, d`lost, d`globalClients, (set u | u in d.globalClients)`umodes
  {
    d.countOper == CountMode(d.globalClients, 'o') && d.countInvisi == CountMode(d.globalClients, 'i') + d.lost
  }

  lemma {:induction false} CountDelete(list: seq<Client>, x: Client, mode: char)
    requires Distinct(list) && x in list
    ensures CountMode(list, mode) == CountMode(Delete(list, x), mode) + if mode in x.umodes then 1 else 0
  {
    if list[0] != x {
      CountDelete(list[1..], x, mode);
      var rest := Delete(list[1..], x);
      assert Delete(list, x) == [list[0]] + rest;
      assert ([list[0]] + rest)[1..] == rest;
    }
  }

  // ---------------------------------------------------------------- unhanging one client

  /** Taking x changes the list at k and drops the lists of x itself. */
  lemma TakeOneList(lists: map<Client, seq<Client>>, x: Client, k: Client)
    requires k in lists && k != x
    requires forall s :: s in lists && s != k ==> Without(lists[s], {x}) == lists[s]
    ensures TakeLists(lists, {x}) == (lists - {x})[k := Without(lists[k], {x})]
    ensures x !in lists ==> TakeLists(lists, {x}) == lists[k := Without(lists[k], {x})]
  {
    hide Without;
  }

  lemma TakeNoList(lists: map<Client, seq<Client>>, x: Client)
    requires forall s :: s in lists ==> Without(lists[s], {x}) == lists[s]
    ensures TakeLists(lists, {x}) == lists - {x}
    ensures x !in lists ==> TakeLists(lists, {x}) == lists
  {
    hide Without;
  }

  lemma NotElsewhere(n: Network, x: Client, s: Client)
    requires Rooted(n) && Listed(n, x) && s in n.users
    ensures s in n.links
    ensures x.server || s != x.servptr ==> Without(n.users[s], {x}) == n.users[s]
    ensures !x.server || s != x.servptr ==> Without(n.links[s], {x}) == n.links[s]
  {
    assert Holds(n, s);
    if x !in n.users[s] { WithoutNone(n.users[s], {x}); }
    if x !in n.links[s] { WithoutNone(n.links[s], {x}); }
  }

  lemma HangsThere(n: Network, x: Client)
    requires Rooted(n) && Listed(n, x)
    ensures x.servptr != null && x.servptr != x && x.servptr in n.users && x.servptr in n.links && x != n.me
    ensures Distinct(n.users[x.servptr]) && Distinct(n.links[x.servptr]) && Distinct(n.clients) && Distinct(n.servers)
  {
    assert Hangs(n, x);
    assert Holds(n, x.servptr);
  }

  lemma TakeUser(n: Network, x: Client)
    requires Rooted(n) && x in n.clients
    ensures x.servptr in n.users && Distinct(n.users[x.servptr]) && Distinct(n.clients)
    ensures TakeLists(n.users, {x}) == n.users[x.servptr := Delete(n.users[x.servptr], x)]
    ensures TakeLists(n.links, {x}) == n.links
    ensures Without(n.clients, {x}) == Delete(n.clients, x) && Without(n.servers, {x}) == n.servers
  {
    UserIsNoServer(n, x);
    hide Rooted, TakeLists, Without, Delete, Distinct;
    HangsThere(n, x);
    DeleteIsWithout(n.clients, x);
    WithoutNone(n.servers, {x});
    forall s | s in n.users
      ensures (s != x.servptr ==> Without(n.users[s], {x}) == n.users[s]) && s in n.links
      ensures Without(n.links[s], {x}) == n.links[s]
    {
      NotElsewhere(n, x, s);
    }
    TakeOneList(n.users, x, x.servptr);
    TakeNoList(n.links, x);
    DeleteIsWithout(n.users[x.servptr], x);
  }

  lemma UserIsNoServer(n: Network, x: Client)
    requires Rooted(n) && x in n.clients
    ensures !x.server && x !in n.users && x !in n.links && x !in n.servers && n.users.Keys == n.links.Keys
  {
    assert Hangs(n, x);
  }

  lemma ServerIsNoUser(n: Network, x: Client)
    requires Rooted(n) && x in n.servers
    ensures x.server && x !in n.clients && n.users.Keys == n.links.Keys
  {
  }

  lemma TakeServer(n: Network, x: Client)
    requires Rooted(n) && x in n.servers
    ensures x.servptr in n.links && Distinct(n.links[x.servptr]) && Distinct(n.servers) && x.servptr != x
    ensures TakeLists(n.links, {x}) == (n.links - {x})[x.servptr := Delete(n.links[x.servptr], x)]
    ensures TakeLists(n.users, {x}) == n.users - {x}
    ensures Without(n.servers, {x}) == Delete(n.servers, x) && Without(n.clients, {x}) == n.clients
  {
    ServerIsNoUser(n, x);
    hide Rooted, TakeLists, Without, Delete, Distinct;
    HangsThere(n, x);
    DeleteIsWithout(n.servers, x);
    WithoutNone(n.clients, {x});
    forall s | s in n.users
      ensures (s != x.servptr ==> Without(n.links[s], {x}) == n.links[s])
      ensures Without(n.users[s], {x}) == n.users[s]
    {
      NotElsewhere(n, x, s);
    }
    TakeOneList(n.links, x, x.servptr);
    TakeNoList(n.users, x);
    DeleteIsWithout(n.links[x.servptr], x);
  }

  /** The list deletions for a user. */
  method UnhangUser(d: Ircd, x: Client)
    requires Rooted(Net(d)) && x in d.globalClients && x.servptr != null
    modifies d`globalClients, x.servptr`clientList
    ensures Net(d) == Take(old(Net(d)), {x}, d.deadList)
    ensures d.globalClients == Without(old(d.globalClients), {x})
  {
    hide Rooted, Without, Delete, Distinct, TakeLists;
    ghost var n := Net(d);
    TakeUser(n, x);
    assert n.users[x.servptr] == x.servptr.clientList;
    x.servptr.clientList := Delete(x.servptr.clientList, x);
    d.globalClients := Delete(d.globalClients, x);
    assert UsersOn(Nodes(d)) == n.users[x.servptr := Delete(n.users[x.servptr], x)];
  }

  /** The list deletions for a server. */
  method UnhangServer(d: Ircd, x: Client)
    requires Rooted(Net(d)) && x in d.globalServers && x.servptr != null && x != d.me
    modifies d`globalServers, x.servptr`serverList
    ensures Net(d) == Take(old(Net(d)), {x}, d.deadList)
    ensures d.globalServers == Without(old(d.globalServers), {x})
  {
    hide Rooted, Without, Delete, Distinct, TakeLists;
    ghost var n, s := Net(d), Nodes(d);
    TakeServer(n, x);
    assert n.links[x.servptr] == x.servptr.serverList;
    x.servptr.serverList := Delete(x.servptr.serverList, x);
    d.globalServers := Delete(d.globalServers, x);
    FewerNodes(s, n, x);
    assert Nodes(d) == s - {x};
  }

  lemma FewerNodes(s: set<Client>, n: Network, x: Client)
    requires x.servptr in s && x.servptr != x
    requires n.users.Keys == n.links.Keys == s
    requires forall k :: k in s ==> k.clientList == n.users[k]
    requires forall k :: k in s && k != x.servptr ==> k.serverList == n.links[k]
    ensures LinksOn(s - {x}) == (n.links - {x})[x.servptr := x.servptr.serverList]
    ensures UsersOn(s - {x}) == n.users - {x}
  {
  }

  // ---------------------------------------------------------------- one client

  ghost predicate TreeOk(d: Ircd)
    reads d`globalClients, d`globalServers, d`deadList, Nodes(d)`clientList, Nodes(d)`serverList
    reads d`countOper, d`countInvisi, d`lost, (set u | u in d.globalClients)`umodes
  {
    && Rooted(Net(d)) && Counted(d)
    && (forall u :: u in d.globalClients ==> u in d.people) && Nodes(d) <= d.people
  }

  /** What an exit touches on the side: the abort list, the connections, whether the saved iterator is right, and the
      masks and the invites of the channels. */
  datatype Side = Side(queue: seq<Client>, alive: set<Client>, closing: set<Client>, next: bool,
                       masks: map<Channel, Masks>, invites: map<Channel, seq<Invite>>)

  ghost function SideOf(d: Ircd, conn: set<Client>): Side
    reads d`abortList, d`eacNext, conn`dead, conn`closing, conn`killed
    reads d`channelList, MaskListsOf(Channels(d))`masks, Channels(d)`invites
  {
    Side(d.abortList, Alive(conn), Closing(conn), NamesNext(d), MaskMap(Channels(d)), InvitesIn(Channels(d)))
  }

  /** Entries were only added to the abort list, none of them for a connection that is closing; no work was created;
      and the channels that are left have the masks and the invites they had. */
  ghost predicate Onward(a: Side, b: Side) {
    && a.queue <= b.queue && |b.queue| + |b.alive| <= |a.queue| + |a.alive|
    && (forall c :: c in b.queue && c in b.closing ==> c in a.queue)
    && a.closing == b.closing && (a.next ==> b.next) && Narrower(b.masks, a.masks)
    && SameLists(a.invites, b.invites)
  }

  lemma OnwardSelf(a: Side)
    ensures Onward(a, a)
  {
  }

  lemma OnwardTrans(a: Side, b: Side, c: Side)
    requires Onward(a, b) && Onward(b, c)
    ensures Onward(a, c)
  {
  }

  lemma OnwardNarrows(a: Side, masks: map<Channel, Masks>, invites: map<Channel, seq<Invite>>)
    requires Narrower(masks, a.masks) && SameLists(a.invites, invites)
    ensures Onward(a, a.(masks := masks, invites := invites))
  {
  }

  lemma CountedAfter(list: seq<Client>, rest: seq<Client>, x: Client)
    requires Distinct(list) && x in list && rest == Without(list, {x})
    ensures CountMode(list, 'o') == CountMode(rest, 'o') + if 'o' in x.umodes then 1 else 0
    ensures CountMode(list, 'i') == CountMode(rest, 'i') + if 'i' in x.umodes then 1 else 0
  {
    DeleteIsWithout(list, x);
    CountDelete(list, x, 'o');
    CountDelete(list, x, 'i');
  }

  lemma UserHangs(d: Ircd, x: Client)
    requires Rooted(Net(d)) && x in d.globalClients
    ensures Distinct(d.globalClients) && x.servptr != null && x.servptr in Nodes(d) && x !in d.deadList
  {
    assert Hangs(Net(d), x);
  }

  lemma ServerHangs(d: Ircd, x: Client)
    requires Rooted(Net(d)) && x in d.globalServers
    ensures x.servptr != null && x.servptr in Nodes(d) && x !in d.deadList && x != d.me
  {
    assert Hangs(Net(d), x);
  }

  /** A user leaves the counters and the lists. */
  method UncountUser(d: Ircd, x: Client)
    requires Rooted(Net(d)) && Counted(d) && x in d.globalClients && x.servptr != null
    modifies d`globalClients, x.servptr`clientList, d`countOper, d`countInvisi
    ensures Net(d) == Take(old(Net(d)), {x}, d.deadList) && Counted(d)
    ensures d.globalClients == Without(old(d.globalClients), {x})
  {
    hide Rooted, Take, Without, CountMode, Distinct;
    UserHangs(d, x);
    ghost var list := d.globalClients;
    if 'o' in x.umodes {
      d.countOper := d.countOper - 1;
    }
    if 'i' in x.umodes {
      d.countInvisi := d.countInvisi - 1;
    }
    UnhangUser(d, x);
    CountedAfter(list, d.globalClients, x);
  }

  /** What UncountUser leaves alone. */
  method DelistUser(d: Ircd, x: Client, ghost conn: set<Client>)
    requires Rooted(Net(d)) && Counted(d) && x in d.globalClients && x.servptr != null
    modifies d`globalClients, x.servptr`clientList, d`countOper, d`countInvisi
    ensures Net(d) == Take(old(Net(d)), {x}, d.deadList) && Counted(d)
    ensures View(d) == old(View(d)) && InviteView(d) == old(InviteView(d)) && Channels(d) == old(Channels(d))
    ensures SideOf(d, conn) == old(SideOf(d, conn))
  {
    hide Rooted, Take, Without, CountMode, Counted, Distinct, SideOf;
    UncountAside(d, x, conn);
  }

  method UncountAside(d: Ircd, x: Client, ghost conn: set<Client>)
    requires Rooted(Net(d)) && Counted(d) && x in d.globalClients && x.servptr != null
    modifies d`globalClients, x.servptr`clientList, d`countOper, d`countInvisi
    ensures Net(d) == Take(old(Net(d)), {x}, d.deadList) && Counted(d)
    ensures SideOf(d, conn) == old(SideOf(d, conn))
  {
    hide Rooted, Take, Without, CountMode, Counted, Distinct, MaskListsOf, MasksOf, Defunct, Net;
    UncountUser(d, x);
  }

  lemma Appended(a: Side, b: Side, conn: set<Client>)
    requires a.queue <= b.queue && |b.queue| + |b.alive| == |a.queue| + |a.alive| && (a.next ==> b.next)
    requires a.closing == b.closing && forall c :: c in b.queue && c in b.closing ==> c in a.queue
    requires b.masks == a.masks && b.invites == a.invites
    ensures Onward(a, b)
  {
    NarrowerSelf(a.masks);
  }

  /** Messages go out; the abort list may grow. */
  method WriteSome(d: Ircd, failing: seq<Client>, ghost conn: set<Client>)
    requires QueueOk(d, conn) && forall c :: c in failing ==> c in conn
    modifies d`abortList, d`eacNext, conn`dead
    ensures QueueOk(d, conn) && Onward(old(SideOf(d, conn)), SideOf(d, conn))
  {
    hide Distinct, Narrower, MasksOf, MaskListsOf, Defunct;
    ghost var a := SideOf(d, conn);
    Broadcast(d, failing, conn);
    Appended(a, SideOf(d, conn), conn);
  }

  /** The quit message goes out; some of the writes fail. */
  method SendQuit(d: Ircd, failing: seq<Client>, ghost conn: set<Client>)
    requires QueueOk(d, conn) && forall c :: c in failing ==> c in conn
    modifies d`abortList, d`eacNext, conn`dead
    ensures QueueOk(d, conn) && Onward(old(SideOf(d, conn)), SideOf(d, conn))
    ensures View(d) == old(View(d)) && InviteView(d) == old(InviteView(d)) && Channels(d) == old(Channels(d))
    ensures Net(d) == old(Net(d)) && (old(Counted(d)) ==> Counted(d))
  {
    hide Distinct, CountMode, Defunct, Onward, SideOf;
    WriteSome(d, failing, conn);
  }

  /** Leaving all channels leaves the abort list and the masks of the others alone. */
  method LeaveChannels(d: Ircd, x: Client, ghost conn: set<Client>, ghost now: nat)
    requires GraphOk(d, now) && x in d.people
    modifies d`channelList, d.people`channel, d.people`invited
    modifies Channels(d)`members, Channels(d)`membersLocal, Channels(d)`invites, MaskListsOf(Channels(d))`masks
    ensures View(d) == Strip(old(View(d)), MembershipsOf(old(View(d)), {x})) && Channels(d) <= old(Channels(d))
    ensures GraphOk(d, now) && Onward(old(SideOf(d, conn)), SideOf(d, conn))
  {
    hide Linked, NoneEmpty, Consistent, Strip, MembershipsOf, Distinct, OwnLists, Narrower, MaskMap, MasksOf, Defunct,
      Onward;
    ghost var a := SideOf(d, conn);
    QuitChannels(d, x, now);
    OnwardNarrows(a, MaskMap(Channels(d)), InvitesIn(Channels(d)));
  }

  /** And the network. */
  method LeaveAll(d: Ircd, x: Client, ghost conn: set<Client>, ghost now: nat)
    requires GraphOk(d, now) && x in d.people
    modifies d`channelList, d.people`channel, d.people`invited
    modifies Channels(d)`members, Channels(d)`membersLocal, Channels(d)`invites, MaskListsOf(Channels(d))`masks
    ensures View(d) == Strip(old(View(d)), MembershipsOf(old(View(d)), {x})) && Channels(d) <= old(Channels(d))
    ensures GraphOk(d, now) && Net(d) == old(Net(d)) && (old(Counted(d)) ==> Counted(d))
    ensures Onward(old(SideOf(d, conn)), SideOf(d, conn))
  {
    hide Strip, MembershipsOf, CountMode, GraphOk, View, MaskListsOf, SideOf, Onward;
    ghost var s := Nodes(d);
    ghost var u, l := UsersOn(s), LinksOn(s);
    LeaveChannels(d, x, conn, now);
    assert Nodes(d) == s;
    assert UsersOn(s) == u;
    assert LinksOn(s) == l;
  }

  method QuitUser(d: Ircd, x: Client, failing: seq<Client>, ghost conn: set<Client>, ghost now: nat)
    requires GraphOk(d, now) && x in d.people
    requires QueueOk(d, conn) && forall c :: c in failing ==> c in conn
    modifies d`channelList, d.people`channel, d.people`invited
    modifies Channels(d)`members, Channels(d)`membersLocal, Channels(d)`invites, MaskListsOf(Channels(d))`masks
    modifies d`abortList, d`eacNext, conn`dead
    ensures View(d) == Strip(old(View(d)), MembershipsOf(old(View(d)), {x})) && Channels(d) <= old(Channels(d))
    ensures GraphOk(d, now) && Net(d) == old(Net(d)) && (old(Counted(d)) ==> Counted(d))
    ensures QueueOk(d, conn) && Onward(old(SideOf(d, conn)), SideOf(d, conn))
  {
    hide Linked, NoneEmpty, Consistent, Strip, MembershipsOf, Distinct, CountMode, OwnLists, Onward, SideOf;
    ghost var a := SideOf(d, conn);
    SendQuit(d, failing, conn);
    ghost var b := SideOf(d, conn);
    LeaveAll(d, x, conn, now);
    OnwardTrans(a, b, SideOf(d, conn));
  }

  /** The user's part of exit_one_client. */
  method DropUser(d: Ircd, x: Client, failing: seq<Client>, ghost conn: set<Client>, ghost now: nat)
    requires Rooted(Net(d)) && Counted(d) && x in d.globalClients && x in d.people && x.servptr in d.people
    requires GraphOk(d, now) && QueueOk(d, conn) && forall c :: c in failing ==> c in conn
    modifies d`globalClients, d.people`clientList, d`countOper, d`countInvisi
    modifies d`channelList, d.people`channel, d.people`invited
    modifies Channels(d)`members, Channels(d)`membersLocal, Channels(d)`invites, MaskListsOf(Channels(d))`masks
    modifies d`abortList, d`eacNext, conn`dead
    ensures Net(d) == Take(old(Net(d)), {x}, d.deadList) && Counted(d)
    ensures View(d) == Strip(old(View(d)), MembershipsOf(old(View(d)), {x})) && Channels(d) <= old(Channels(d))
    ensures GraphOk(d, now)
    ensures QueueOk(d, conn) && Onward(old(SideOf(d, conn)), SideOf(d, conn))
  {
    hide Rooted, Linked, NoneEmpty, Consistent, Strip, MembershipsOf, Take, Without, Defunct, Distinct, CountMode;
    hide OwnLists, Onward, SideOf;
    DelistUser(d, x, conn);
    QuitUser(d, x, failing, conn, now);
  }

  /** The server's part. */
  method DropServer(d: Ircd, x: Client, ghost conn: set<Client>, ghost now: nat)
    requires Rooted(Net(d)) && Counted(d) && x in d.globalServers && x.servptr in d.people && GraphOk(d, now)
    modifies d`globalServers, x.servptr`serverList
    ensures Net(d) == Take(old(Net(d)), {x}, d.deadList) && Counted(d)
    ensures View(d) == old(View(d)) && Channels(d) == old(Channels(d)) && GraphOk(d, now)
    ensures SideOf(d, conn) == old(SideOf(d, conn))
  {
    hide Rooted, Linked, NoneEmpty, Consistent, Strip, Take, Without, Distinct, CountMode, OwnLists, SideOf, Net;
    ServerHangs(d, x);
    ghost var v, w := View(d), InviteView(d);
    UnhangAside(d, x, conn);
    assert View(d) == v && InviteView(d) == w;
  }

  lemma ServerIsOther(d: Ircd, x: Client)
    requires Rooted(Net(d)) && x in d.globalServers
    ensures x != d.me
  {
  }

  method UnhangAside(d: Ircd, x: Client, ghost conn: set<Client>)
    requires Rooted(Net(d)) && Counted(d) && x in d.globalServers && x.servptr != null && x.servptr in d.people
    modifies d`globalServers, x.servptr`serverList
    ensures Net(d) == Take(old(Net(d)), {x}, d.deadList) && Counted(d)
    ensures SideOf(d, conn) == old(SideOf(d, conn))
  {
    hide Rooted, Take, Without, Distinct, CountMode, MaskListsOf, MasksOf, Defunct, Net;
    ServerIsOther(d, x);
    UnhangServer(d, x);
  }

  // ---------------------------------------------------------------- what an exit does

  /** Exactly `gone` went: out of the global lists, off the servers and off the channels, and each of
      them once onto the dead list, in front of those already there. */
  ghost predicate Exited(n: Network, g: Graph, n': Network, g': Graph, gone: set<Client>) {
    && n' == Take(n, gone, n'.dead) && g' == Strip(g, MembershipsOf(g, gone))
    && |n'.dead| == |n.dead| + |gone|
    && n'.dead[|gone|..] == n.dead && (set x | x in n'.dead[..|gone|]) == gone
  }

  lemma ExitedNone(n: Network, g: Graph)
    requires Linked(g) && NoneEmpty(g)
    ensures Exited(n, g, n, g, {})
  {
    hide Linked, NoneEmpty, Take, Strip;
    TakeNone(n);
    StripNone(g);
    assert MembershipsOf(g, {}) == {};
    assert n.dead[..0] == [];
  }

  lemma ExitedOne(n: Network, g: Graph, x: Client)
    ensures Exited(n, g, Take(n, {x}, [x] + n.dead), Strip(g, MembershipsOf(g, {x})), {x})
  {
    hide Strip, MembershipsOf, TakeLists, Without;
    var dead := [x] + n.dead;
    assert dead[..1] == [x] && dead[1..] == n.dead;
    assert Take(n, {x}, dead).dead == dead;
  }

  lemma MembershipsTwice(g: Graph, a: set<Client>, b: set<Client>)
    requires Linked(g)
    ensures MembershipsOf(g, a) + MembershipsOf(Strip(g, MembershipsOf(g, a)), b) == MembershipsOf(g, a + b)
  {
    hide Linked, Strip, Without;
    var s := MembershipsOf(g, a);
    var h := Strip(g, s);
    assert h.on == StripLists(g.on, g.on.Keys, s) by { StripOn(g, s); }
    forall u, m | u in b && u in g.on && m in g.on[u] ensures m in s || m in MembershipsOf(h, b) {
      assert m !in s ==> m in h.on[u];
    }
  }

  lemma OnlyUsersJoin(g: Graph, u: Client, m: ChannelMember)
    requires Linked(g) && u in g.on && m in g.on[u]
    ensures !u.server
  {
    assert ClientLinked(g, u) && ChannelLinked(g, m.channel);
  }

  lemma ServerStripsNothing(g: Graph, x: Client)
    requires Linked(g) && NoneEmpty(g) && x.server
    ensures Strip(g, MembershipsOf(g, {x})) == g
  {
    hide Linked, NoneEmpty, Strip;
    forall m | m in MembershipsOf(g, {x}) ensures false { OnlyUsersJoin(g, x, m); }
    assert MembershipsOf(g, {x}) == {};
    StripNone(g);
  }

  lemma StripOn(g: Graph, s: set<ChannelMember>)
    ensures Strip(g, s).on == StripLists(g.on, g.on.Keys, s)
  {
  }

  lemma DeadTwice(dead: seq<Client>, dead': seq<Client>, dead'': seq<Client>, a: set<Client>, b: set<Client>)
    requires |dead'| == |dead| + |a| && dead'[|a|..] == dead && (set x | x in dead'[..|a|]) == a
    requires |dead''| == |dead'| + |b| && dead''[|b|..] == dead' && (set x | x in dead''[..|b|]) == b
    requires a !! b
    ensures |a + b| == |a| + |b|
    ensures |dead''| == |dead| + |a + b| && dead''[|a + b|..] == dead && (set x | x in dead''[..|a + b|]) == a + b
  {
    var k := |a| + |b|;
    assert dead''[k..] == dead''[|b|..][|a|..];
    assert dead''[..k] == dead''[..|b|] + dead''[|b|..][..|a|];
  }

  /** One exit after the other. */
  lemma ExitedTwice(n: Network, g: Graph, n1: Network, g1: Graph, n2: Network, g2: Graph, a: set<Client>,
      b: set<Client>)
    requires Linked(g) && Exited(n, g, n1, g1, a) && Exited(n1, g1, n2, g2, b) && a !! b
    ensures Exited(n, g, n2, g2, a + b)
  {
    hide Linked, Take, Strip, MembershipsOf;
    TakeTwice(n, a, b, n1.dead, n2.dead);
    MembershipsTwice(g, a, b);
    StripTwice(g, MembershipsOf(g, a), MembershipsOf(g1, b));
    DeadTwice(n.dead, n1.dead, n2.dead, a, b);
  }

  /** Everything an exit relies on and keeps. */
  ghost predicate Sane(d: Ircd, conn: set<Client>, now: nat)
    reads d`globalClients, d`globalServers, d`deadList, Nodes(d)`clientList, Nodes(d)`serverList
    reads d`countOper, d`countInvisi, d`lost, (set u | u in d.globalClients)`umodes
    reads d`channelList, d.people`channel, Channels(d)`members, Channels(d)`membersLocal
    reads Channels(d)`invites, d.people`invited
    reads d`abortList, conn`dead, conn`closing
  {
    TreeOk(d) && GraphOk(d, now) && QueueOk(d, conn) && conn <= d.people
  }

  method MarkDead(ghost d: Ircd, x: Client, ghost conn: set<Client>)
    requires QueueOk(d, conn)
    modifies x`dead
    ensures x.dead && QueueOk(d, conn) && Onward(old(SideOf(d, conn)), SideOf(d, conn))
  {
    hide Distinct, Narrower, MasksOf, MaskListsOf;
    ghost var a := SideOf(d, conn);
    NarrowerSelf(a.masks);
    x.dead := true;
    Fewer(Alive(conn), a.alive);
  }

  method Enlist(d: Ircd, x: Client, ghost conn: set<Client>)
    modifies d`deadList
    ensures SideOf(d, conn) == old(SideOf(d, conn))
    ensures Net(d) == old(Net(d)).(dead := [x] + old(d.deadList))
    ensures View(d) == old(View(d)) && InviteView(d) == old(InviteView(d))
  {
    ghost var v, w := View(d), InviteView(d);
    d.deadList := [x] + d.deadList;
    assert View(d) == v && InviteView(d) == w;
  }

  /** The client is marked dead and heads the dead list, on which it was not yet. */
  method Bury(d: Ircd, x: Client, ghost conn: set<Client>, ghost now: nat)
    requires QueueOk(d, conn) && GraphOk(d, now) && x !in d.deadList
    modifies d`deadList, x`dead
    ensures x.dead && Net(d) == old(Net(d)).(dead := [x] + old(d.deadList))
    ensures View(d) == old(View(d)) && Channels(d) == old(Channels(d)) && GraphOk(d, now) &&
      (old(Counted(d)) ==> Counted(d))
    ensures QueueOk(d, conn) && Onward(old(SideOf(d, conn)), SideOf(d, conn))
  {
    hide Linked, NoneEmpty, Consistent, CountMode, Distinct, OwnLists, Onward, SideOf;
    Enlist(d, x, conn);
    ghost var v, w, s := View(d), InviteView(d), Nodes(d);
    ghost var u, l := UsersOn(s), LinksOn(s);
    MarkDead(d, x, conn);
    assert View(d) == v && InviteView(d) == w;
    assert Nodes(d) == s;
    assert UsersOn(s) == u;
    assert LinksOn(s) == l;
  }

  lemma Fewer<T>(some: set<T>, all: set<T>)
    requires some <= all
    ensures |some| <= |all|
  {
    assert some + (all - some) == all;
  }

  lemma ListedFacts(d: Ircd, x: Client)
    requires TreeOk(d) && Listed(Net(d), x)
    ensures x.servptr != null && x.servptr in d.people && x in d.people && x !in d.deadList
    ensures x.server <==> x in d.globalServers
    ensures x.server <==> x !in d.globalClients
    ensures Rooted(Net(d)) && Counted(d)
  {
    if x in d.globalClients { UserHangs(d, x); } else { ServerHangs(d, x); }
  }

  lemma TakeDead(n: Network, gone: set<Client>, dead: seq<Client>, dead': seq<Client>)
    ensures Take(n, gone, dead).(dead := dead') == Take(n, gone, dead')
  {
  }

  lemma StillTreeOk(d: Ircd, n: Network, x: Client, people: set<Client>)
    requires people == d.people && Rooted(n) && Listed(n, x) && Leaf(n, x)
    requires Net(d) == Take(n, {x}, [x] + n.dead) && Counted(d)
    requires (forall u :: u in n.clients ==> u in people) && (forall s :: s in n.servers ==> s in people) &&
      n.me in people
    ensures TreeOk(d)
  {
    hide Rooted, CountMode;
    TakeOneRooted(n, x);
  }

  /** The notice that a server split; some of the writes fail. */
  method SendSplit(d: Ircd, failing: seq<Client>, ghost conn: set<Client>, ghost now: nat)
    requires Counted(d) && GraphOk(d, now) && QueueOk(d, conn) && forall c :: c in failing ==> c in conn
    modifies d`abortList, d`eacNext, conn`dead
    ensures Net(d) == old(Net(d)) && Counted(d) && View(d) == old(View(d)) && Channels(d) == old(Channels(d))
    ensures GraphOk(d, now)
    ensures QueueOk(d, conn) && Onward(old(SideOf(d, conn)), SideOf(d, conn))
  {
    hide Linked, NoneEmpty, Consistent, Defunct, Distinct, CountMode, OwnLists, Onward;
    SendQuit(d, failing, conn);
  }

  /** Out of the counters, the lists and the channels. */
  method DropClient(d: Ircd, x: Client, failing: seq<Client>, ghost conn: set<Client>, ghost now: nat)
    requires Rooted(Net(d)) && Counted(d) && GraphOk(d, now) && QueueOk(d, conn)
    requires forall c :: c in failing ==> c in conn
    requires x in d.people && x.servptr in d.people && x in (if x.server then d.globalServers else d.globalClients)
    modifies d`globalClients, d`globalServers, d`countOper, d`countInvisi
    modifies d.people`clientList, d.people`serverList
    modifies d`channelList, d.people`channel, d.people`invited
    modifies Channels(d)`members, Channels(d)`membersLocal, Channels(d)`invites, MaskListsOf(Channels(d))`masks
    modifies d`abortList, d`eacNext, conn`dead
    ensures Net(d) == Take(old(Net(d)), {x}, d.deadList) && Counted(d)
    ensures View(d) == Strip(old(View(d)), MembershipsOf(old(View(d)), {x})) && Channels(d) <= old(Channels(d))
    ensures GraphOk(d, now)
    ensures QueueOk(d, conn) && Onward(old(SideOf(d, conn)), SideOf(d, conn))
  {
    hide Rooted, Linked, NoneEmpty, Consistent, Strip, MembershipsOf, Take, Without, Defunct, Distinct, CountMode;
    hide OwnLists, Onward, SideOf;
    if !x.server {
      DropUser(d, x, failing, conn, now);
    } else {
      ServerStripsNothing(View(d), x);
      SendSplit(d, failing, conn, now);
      DropServer(d, x, conn, now);
    }
  }

  /** exit_one_client. */
  method ExitOneClient(d: Ircd, x: Client, failing: seq<Client>, ghost conn: set<Client>, ghost now: nat)
    requires Sane(d, conn, now) && Listed(Net(d), x) && Leaf(Net(d), x) && forall c :: c in failing ==> c in conn
    modifies d`globalClients, d`globalServers, d`deadList, d`countOper, d`countInvisi
    modifies d.people`clientList, d.people`serverList, d.people`dead
    modifies d`channelList, d.people`channel, d.people`invited
    modifies Channels(d)`members, Channels(d)`membersLocal, Channels(d)`invites, MaskListsOf(Channels(d))`masks
    modifies d`abortList, d`eacNext
    ensures Sane(d, conn, now) && Exited(old(Net(d)), old(View(d)), Net(d), View(d), {x})
    ensures Channels(d) <= old(Channels(d)) && x.dead
    ensures Onward(old(SideOf(d, conn)), SideOf(d, conn))
  {
    hide Rooted, Linked, NoneEmpty, Consistent, Strip, MembershipsOf, Take, Without, Defunct, Distinct, CountMode,
      Leaf, Exited, OwnLists, Onward;
    ghost var n, g, a := Net(d), View(d), SideOf(d, conn);
    ListedFacts(d, x);
    DropClient(d, x, failing, conn, now);
    ghost var b := SideOf(d, conn);
    Bury(d, x, conn, now);
    OnwardTrans(a, b, SideOf(d, conn));
    TakeDead(n, {x}, n.dead, [x] + n.dead);
    ExitedOne(n, g, x);
    StillTreeOk(d, n, x, d.people);
  }

  // ---------------------------------------------------------------- everyone behind a server

  /** How far the removal of everyone behind s has got. */
  ghost predicate Removing(n: Network, g: Graph, n': Network, g': Graph, gone: set<Client>, s: Client) {
    Rooted(n) && Rooted(n') && Linked(g) && Exited(n, g, n', g', gone) && gone <= Below(n, s) && s in n'.servers
  }

  lemma RemovingKeepsListed(n: Network, g: Graph, n': Network, g': Graph, gone: set<Client>, s: Client)
    requires Removing(n, g, n', g', gone, s)
    ensures s in n.servers && s !in gone && s in n'.users && s in n'.links && s in n.users
    ensures forall x :: Listed(n', x) ==> Listed(n, x) && x !in gone
    ensures n' == Take(n, gone, n'.dead)
  {
    hide Exited;
    assert n' == Take(n, gone, n'.dead) by { ExitedTakes(n, g, n', g', gone); }
  }

  lemma ExitedTakes(n: Network, g: Graph, n': Network, g': Graph, gone: set<Client>)
    requires Exited(n, g, n', g', gone)
    ensures n' == Take(n, gone, n'.dead) && g' == Strip(g, MembershipsOf(g, gone))
  {
  }

  lemma OnServerIsBelow(n: Network, s: Client, x: Client)
    requires Rooted(n) && s in n.users && s in n.links && (x in n.users[s] || x in n.links[s])
    ensures Listed(n, x) && x in Below(n, s) && x != s && InSubtree(x, s)
  {
    assert Holds(n, s);
    assert Hangs(n, x);
    assert InSubtree(s, s);
  }

  lemma BelowFewer(n: Network, n1: Network, gone: set<Client>, more: set<Client>, s: Client)
    requires n1 == Take(n, gone, n1.dead) && more <= Below(n1, s)
    ensures more <= Below(n, s) && more !! gone && s !in more
  {
    hide InSubtree, TakeLists;
  }

  lemma StillServer(n: Network, more: set<Client>, dead: seq<Client>, s: Client)
    requires s in n.servers && s !in more
    ensures s in Take(n, more, dead).servers
  {
  }

  /** What a step of the removal takes was not taken before, and is behind s. */
  lemma RemovesMore(n: Network, g: Graph, n1: Network, g1: Graph, n2: Network, g2: Graph,
                    gone: set<Client>, more: set<Client>, s: Client)
    requires Removing(n, g, n1, g1, gone, s) && Exited(n1, g1, n2, g2, more) && Rooted(n2)
    requires more <= Below(n1, s)
    ensures Removing(n, g, n2, g2, gone + more, s)
  {
    ExitedTakes(n, g, n1, g1, gone);
    ExitedTakes(n1, g1, n2, g2, more);
    hide Rooted, Linked, Exited, InSubtree, Take, Strip, Below, MembershipsOf;
    BelowFewer(n, n1, gone, more, s);
    StillServer(n1, more, n2.dead, s);
    ExitedTwice(n, g, n1, g1, n2, g2, gone, more);
  }

  lemma InBelow(n: Network, s: Client, x: Client)
    ensures x in Below(n, s) <==> Listed(n, x) && x != s && InSubtree(x, s)
  {
  }

  lemma BelowTrans(n: Network, t: Client, s: Client)
    requires InSubtree(t, s) && t != s && Listed(n, t)
    ensures Below(n, t) <= Below(n, s) && t in Below(n, s) && t !in Below(n, t) && s !in Below(n, t)
  {
    hide InSubtree, Below, Listed;
    SubtreeDeeper(t, s);
    InBelow(n, s, t);
    InBelow(n, t, t);
    InBelow(n, t, s);
    if InSubtree(s, t) { SubtreeDeeper(s, t); }
    forall x | x in Below(n, t) ensures x in Below(n, s) {
      InBelow(n, t, x);
      InBelow(n, s, x);
      SubtreeTransitive(x, t, s);
      SubtreeDeeper(x, t);
    }
  }

  /** Servers linked to the same one are not behind each other. */
  lemma SiblingsApart(n: Network, s: Client, t: Client, x: Client)
    requires Rooted(n) && s in n.links && s in n.users && t in n.links[s] && x in n.links[s]
    ensures x !in Below(n, t)
  {
    assert Holds(n, s);
    assert Hangs(n, t);
    if InSubtree(x, t) && x != t {
      assert x.servptr == s;
      SubtreeDeeper(s, t);
    }
  }

  lemma LinksUntouched(n: Network, n': Network, s: Client, t: Client)
    requires Rooted(n) && s in n.links && s in n.users && t in n.links[s] && s in n'.links
    requires n' == Take(n, Below(n, t), n'.dead)
    ensures n'.links[s] == n.links[s]
  {
    forall x | x in n.links[s] ensures x !in Below(n, t) { SiblingsApart(n, s, t, x); }
    WithoutNone(n.links[s], Below(n, t));
  }

  lemma HeadTaken(n: Network, n': Network, s: Client, x: Client)
    requires Rooted(n) && s in n.users && s in n.links && s != x && n' == Take(n, {x}, n'.dead)
    ensures s in n'.users && s in n'.links && Distinct(n.users[s]) && Distinct(n.links[s])
    ensures n'.users[s] == Delete(n.users[s], x) && n'.links[s] == Delete(n.links[s], x)
  {
    assert Holds(n, s);
    DeleteIsWithout(n.users[s], x);
    DeleteIsWithout(n.links[s], x);
  }

  lemma NetAt(d: Ircd, s: Client)
    requires TreeOk(d) && s in d.globalServers
    ensures s in Net(d).users && s in Net(d).links && Rooted(Net(d))
    ensures Net(d).users[s] == s.clientList && Net(d).links[s] == s.serverList
  {
    hide CountMode, Distinct;
  }

  lemma OnServer(n: Network, s: Client, x: Client)
    requires Rooted(n) && s in n.servers && s in n.users && s in n.links
    ensures Distinct(n.users[s]) && Distinct(n.links[s])
    ensures x in n.users[s] ==> x in n.clients && Leaf(n, x) && x in Below(n, s)
    ensures x in n.links[s] ==> x in n.servers && x in Below(n, s) && InSubtree(x, s) && x != s
  {
    assert Holds(n, s);
    hide InSubtree, Below;
    if x in n.users[s] || x in n.links[s] { OnServerIsBelow(n, s, x); }
    if x in n.users[s] { UserIsNoServer(n, x); }
  }

  ghost predicate FailuresIn(fails: Client -> seq<Client>, people: set<Client>, conn: set<Client>) {
    forall x, c :: x in people && c in fails(x) ==> c in conn
  }

  lemma SaneParts(d: Ircd, conn: set<Client>, now: nat)
    requires Sane(d, conn, now)
    ensures Rooted(Net(d)) && Linked(View(d)) && NoneEmpty(View(d)) && TreeOk(d) && conn <= d.people
    ensures QueueOk(d, conn)
  {
  }

  /** One client directly on s goes; the node after it heads what is left of the list. */
  method RemoveOne(d: Ircd, s: Client, x: Client, failing: seq<Client>, ghost conn: set<Client>, ghost now: nat,
                   ghost n: Network, ghost g: Graph, ghost gone: set<Client>)
    requires Sane(d, conn, now) && Removing(n, g, Net(d), View(d), gone, s)
    requires x in s.clientList || x in s.serverList
    requires Leaf(Net(d), x) && forall c :: c in failing ==> c in conn
    modifies d`globalClients, d`globalServers, d`deadList, d`countOper, d`countInvisi
    modifies d.people`clientList, d.people`serverList, d.people`dead
    modifies d`channelList, d.people`channel, d.people`invited
    modifies Channels(d)`members, Channels(d)`membersLocal, Channels(d)`invites, MaskListsOf(Channels(d))`masks
    modifies d`abortList, d`eacNext
    ensures Sane(d, conn, now) && Removing(n, g, Net(d), View(d), gone + {x}, s)
    ensures Distinct(old(s.clientList)) && s.clientList == Delete(old(s.clientList), x)
    ensures Distinct(old(s.serverList)) && s.serverList == Delete(old(s.serverList), x)
    ensures Channels(d) <= old(Channels(d))
    ensures Onward(old(SideOf(d, conn)), SideOf(d, conn))
  {
    hide Sane, Removing, Exited, Take, Strip, Below, InSubtree, Distinct, Delete, Leaf, Rooted, QueueOk, Onward, SideOf,
      View;
    SaneParts(d, conn, now);
    ghost var n1, g1 := Net(d), View(d);
    RemovingServer(n, g, n1, g1, gone, s);
    NetAt(d, s);
    OnServer(n1, s, x);
    ExitOneClient(d, x, failing, conn, now);
    SaneParts(d, conn, now);
    ExitedTakes(n1, g1, Net(d), View(d), {x});
    HeadTaken(n1, Net(d), s, x);
    RemovesMore(n, g, n1, g1, Net(d), View(d), gone, {x}, s);
    RemovingServer(n, g, Net(d), View(d), gone + {x}, s);
    NetAt(d, s);
  }

  lemma RemovingServer(n: Network, g: Graph, n': Network, g': Graph, gone: set<Client>, s: Client)
    requires Removing(n, g, n', g', gone, s)
    ensures s in n'.servers && s in n'.users && s in n'.links && Rooted(n') && Rooted(n)
  {
    hide Exited;
  }

  /** The first loop of recurse_remove_clients. */
  method RemoveUsers(d: Ircd, s: Client, fails: Client -> seq<Client>, ghost conn: set<Client>, ghost now: nat)
    returns (ghost gone: set<Client>)
    requires Sane(d, conn, now) && s in d.globalServers && FailuresIn(fails, d.people, conn)
    modifies d`globalClients, d`globalServers, d`deadList, d`countOper, d`countInvisi
    modifies d.people`clientList, d.people`serverList, d.people`dead
    modifies d`channelList, d.people`channel, d.people`invited
    modifies Channels(d)`members, Channels(d)`membersLocal, Channels(d)`invites, MaskListsOf(Channels(d))`masks
    modifies d`abortList, d`eacNext
    ensures Sane(d, conn, now) && Removing(old(Net(d)), old(View(d)), Net(d), View(d), gone, s)
    ensures s.clientList == [] && Channels(d) <= old(Channels(d))
    ensures Onward(old(SideOf(d, conn)), SideOf(d, conn))
  {
    hide Sane, Removing, Exited, Take, Strip, Below, InSubtree, Distinct, Delete, Leaf, Rooted, MaskListsOf,
      Onward, SideOf;
    ghost var n, g, cs, a := Net(d), View(d), Channels(d), SideOf(d, conn);
    OnwardSelf(a);
    RemovingNone(d, s, conn, now);
    gone := {};
    var node := First(s.clientList);
    while node.Some?
      invariant Sane(d, conn, now) && Removing(n, g, Net(d), View(d), gone, s)
      invariant node == First(s.clientList) && Channels(d) <= cs
      invariant Onward(a, SideOf(d, conn))
      decreases |s.clientList|
    {
      UsersAreLeaves(d, s, conn, now, n, g, gone);
      MaskListsFewer(Channels(d), cs);
      var next := Next(s.clientList, node.value);
      NextIsNewHead(s.clientList);
      ghost var b := SideOf(d, conn);
      RemoveOne(d, s, node.value, fails(node.value), conn, now, n, g, gone);
      OnwardTrans(a, b, SideOf(d, conn));
      gone := gone + {node.value};
      node := next;
    }
  }

  lemma RemovingNone(d: Ircd, s: Client, conn: set<Client>, now: nat)
    requires Sane(d, conn, now) && s in d.globalServers
    ensures Removing(Net(d), View(d), Net(d), View(d), {}, s)
  {
    hide Exited, Rooted, Linked, NoneEmpty;
    ExitedNone(Net(d), View(d));
  }

  lemma UsersAreLeaves(d: Ircd, s: Client, conn: set<Client>, now: nat, n: Network, g: Graph, gone: set<Client>)
    requires Sane(d, conn, now) && Removing(n, g, Net(d), View(d), gone, s)
    ensures Distinct(s.clientList) && Distinct(s.serverList)
    ensures forall u :: u in s.clientList ==> Leaf(Net(d), u) && u in d.people
    ensures forall t :: t in s.serverList ==> t in d.people && t in d.globalServers
  {
    hide Removing, Exited, Rooted, Linked, NoneEmpty, Leaf;
    RemovingServer(n, g, Net(d), View(d), gone, s);
    NetAt(d, s);
    forall x | x in s.clientList || x in s.serverList
      ensures x in d.people && (x in s.clientList ==> Leaf(Net(d), x)) && (x in s.serverList ==> x in d.globalServers)
    {
      OnServer(Net(d), s, x);
    }
    OnServer(Net(d), s, s);
  }

  lemma BelowShrinks(n: Network, g: Graph, n1: Network, g1: Graph, gone: set<Client>, s: Client, t: Client)
    requires Removing(n, g, n1, g1, gone, s)
    requires s in n1.users && s in n1.links && t in n1.links[s]
    ensures t in n1.servers && Below(n1, t) <= Below(n1, s) && Below(n1, t) < Below(n, s)
  {
    RemovingServer(n, g, n1, g1, gone, s);
    RemovingKeepsListed(n, g, n1, g1, gone, s);
    hide Exited, Below, InSubtree, Take, Removing, Rooted;
    OnServer(n1, s, t);
    BelowTrans(n1, t, s);
    BelowFewer(n, n1, gone, Below(n1, s), s);
  }

  /** Everyone behind a server linked to s goes. */
  lemma RemovesServer(n: Network, g: Graph, n1: Network, g1: Graph, n2: Network, g2: Graph,
                      gone: set<Client>, s: Client, t: Client)
    requires Removing(n, g, n1, g1, gone, s) && Exited(n1, g1, n2, g2, Below(n1, t)) && Rooted(n2)
    requires s in n1.users && s in n1.links && t in n1.links[s] && n1.users[s] == []
    ensures Removing(n, g, n2, g2, gone + Below(n1, t), s)
    ensures s in n2.users && s in n2.links && n2.links[s] == n1.links[s] && n2.users[s] == []
  {
    hide Exited, Below, InSubtree, Take, Strip, Removing, Rooted, Distinct;
    RemovingServer(n, g, n1, g1, gone, s);
    BelowShrinks(n, g, n1, g1, gone, s, t);
    RemovesMore(n, g, n1, g1, n2, g2, gone, Below(n1, t), s);
    RemovingServer(n, g, n2, g2, gone + Below(n1, t), s);
    ExitedTakes(n1, g1, n2, g2, Below(n1, t));
    LinksUntouched(n1, n2, s, t);
    UsersFewer(n1, n2, Below(n1, t), s);
  }

  lemma UsersFewer(n: Network, n': Network, gone: set<Client>, s: Client)
    requires n' == Take(n, gone, n'.dead) && s in n.users && s in n'.users && n.users[s] == []
    ensures n'.users[s] == []
  {
  }

  /** recurse_remove_clients: exactly those behind s go. */
  method RecurseRemove(d: Ircd, s: Client, fails: Client -> seq<Client>, ghost conn: set<Client>, ghost now: nat)
    requires Sane(d, conn, now) && s in d.globalServers && FailuresIn(fails, d.people, conn)
    modifies d`globalClients, d`globalServers, d`deadList, d`countOper, d`countInvisi
    modifies d.people`clientList, d.people`serverList, d.people`dead
    modifies d`channelList, d.people`channel, d.people`invited
    modifies Channels(d)`members, Channels(d)`membersLocal, Channels(d)`invites, MaskListsOf(Channels(d))`masks
    modifies d`abortList, d`eacNext
    ensures Sane(d, conn, now) && Exited(old(Net(d)), old(View(d)), Net(d), View(d), Below(old(Net(d)), s))
    ensures s in d.globalServers && Leaf(Net(d), s) && Channels(d) <= old(Channels(d))
    ensures Onward(old(SideOf(d, conn)), SideOf(d, conn))
    decreases Below(Net(d), s)
  {
    hide Sane, Removing, Exited, Take, Strip, Below, InSubtree, Distinct, Delete, Leaf, Rooted, MaskListsOf,
      Onward, SideOf;
    ghost var n, g, cs, a := Net(d), View(d), Channels(d), SideOf(d, conn);
    ghost var gone := RemoveUsers(d, s, fails, conn, now);
    UsersAreLeaves(d, s, conn, now, n, g, gone);
    MaskListsFewer(Channels(d), cs);
    var node := First(s.serverList);
    while node.Some?
      invariant Sane(d, conn, now) && Removing(n, g, Net(d), View(d), gone, s)
      invariant node == First(s.serverList) && s.clientList == [] && Channels(d) <= cs
      invariant Onward(a, SideOf(d, conn))
      decreases |s.serverList|
    {
      UsersAreLeaves(d, s, conn, now, n, g, gone);
      MaskListsFewer(Channels(d), cs);
      var next := Next(s.serverList, node.value);
      NextIsNewHead(s.serverList);
      ghost var b := SideOf(d, conn);
      gone := RemoveServer(d, s, node.value, fails, conn, now, n, g, gone);
      OnwardTrans(a, b, SideOf(d, conn));
      node := next;
    }
    NothingLeft(d, s, conn, now, n, g, gone);
  }

  lemma NothingLeft(d: Ircd, s: Client, conn: set<Client>, now: nat, n: Network, g: Graph, gone: set<Client>)
    requires Sane(d, conn, now) && Removing(n, g, Net(d), View(d), gone, s) && s.clientList == s.serverList == []
    ensures s in d.globalServers && Leaf(Net(d), s) && gone == Below(n, s) && Exited(n, g, Net(d), View(d), gone)
  {
    hide Exited, Linked, NoneEmpty, Below, InSubtree;
    RemovingServer(n, g, Net(d), View(d), gone, s);
    RemovingKeepsListed(n, g, Net(d), View(d), gone, s);
    NetAt(d, s);
    ExitedTakes(n, g, Net(d), View(d), gone);
    TakenIsBelow(n, gone, d.deadList, s);
  }

  /** One turn of the second loop. */
  method RemoveServer(d: Ircd, s: Client, t: Client, fails: Client -> seq<Client>, ghost conn: set<Client>,
                      ghost now: nat, ghost n: Network, ghost g: Graph, ghost before: set<Client>)
    returns (ghost gone: set<Client>)
    requires Sane(d, conn, now) && Removing(n, g, Net(d), View(d), before, s) && FailuresIn(fails, d.people, conn)
    requires t in s.serverList && s.clientList == []
    modifies d`globalClients, d`globalServers, d`deadList, d`countOper, d`countInvisi
    modifies d.people`clientList, d.people`serverList, d.people`dead
    modifies d`channelList, d.people`channel, d.people`invited
    modifies Channels(d)`members, Channels(d)`membersLocal, Channels(d)`invites, MaskListsOf(Channels(d))`masks
    modifies d`abortList, d`eacNext
    ensures Sane(d, conn, now) && Removing(n, g, Net(d), View(d), gone, s)
    ensures Distinct(old(s.serverList)) && s.serverList == Delete(old(s.serverList), t) && s.clientList == []
    ensures Channels(d) <= old(Channels(d))
    ensures Onward(old(SideOf(d, conn)), SideOf(d, conn))
    decreases Below(n, s), 0
  {
    hide Sane, Removing, Exited, Take, Strip, Below, InSubtree, Distinct, Delete, Leaf, Rooted, MaskListsOf,
      Onward, SideOf;
    ghost var n1, g1, cs, a := Net(d), View(d), Channels(d), SideOf(d, conn);
    ServerLists(d, s, conn, now, n, g, before);
    BelowShrinks(n, g, n1, g1, before, s, t);
    RecurseRemove(d, t, fails, conn, now);
    ghost var b := SideOf(d, conn);
    MaskListsFewer(Channels(d), cs);
    SaneParts(d, conn, now);
    gone := before + Below(n1, t);
    RemovesServer(n, g, n1, g1, Net(d), View(d), before, s, t);
    ServerLists(d, s, conn, now, n, g, gone);
    RemoveOne(d, s, t, fails(t), conn, now, n, g, gone);
    OnwardTrans(a, b, SideOf(d, conn));
    gone := gone + {t};
  }

  lemma ServerLists(d: Ircd, s: Client, conn: set<Client>, now: nat, n: Network, g: Graph, gone: set<Client>)
    requires Sane(d, conn, now) && Removing(n, g, Net(d), View(d), gone, s)
    ensures s in Net(d).users && s in Net(d).links
    ensures Net(d).users[s] == s.clientList && Net(d).links[s] == s.serverList
  {
    hide Removing, Rooted, Linked, NoneEmpty, Exited;
    RemovingServer(n, g, Net(d), View(d), gone, s);
    NetAt(d, s);
  }
}
