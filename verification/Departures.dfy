// exit_client, which takes out a client and everyone behind it, and the queue of dead connections
// that is worked off through it.
module Departures {
  import opened Lists
  import opened Entities
  import opened Invites
  import opened Membership
  import opened ServerTree
  import opened DeadLinks
  import opened ClientExit

  // ---------------------------------------------------------------- who is connected here

  /** The lists of this server's own operators, users and servers. */
  datatype Locals = Locals(opers: seq<Client>, users: seq<Client>, servers: seq<Client>)

  function LocalsIn(d: Ircd): Locals
    reads d`operList, d`localClients, d`localServers
  {
    Locals(d.operList, d.localClients, d.localServers)
  }

  function Lose(l: Locals, x: Client): Locals {
    Locals(Without(l.opers, {x}), Without(l.users, {x}), Without(l.servers, {x}))
  }

  ghost predicate SameElements(list: seq<Client>, all: set<Client>) {
    Distinct(list) && (set u | u in list) == all
  }

  ghost function LocalsOf(list: seq<Client>): set<Client> {
    set u | u in list && u.local
  }

  /** These lists are the local part of the global ones; `opers` are the clients with mode o and `open` the
      connections not being closed. */
  ghost predicate Directory(n: Network, l: Locals, opers: set<Client>, open: set<Client>) {
    && SameElements(l.users, LocalsOf(n.clients))
    && SameElements(l.servers, LocalsOf(n.servers))
    && SameElements(l.opers, LocalsOf(n.clients) * opers)
    && open == LocalsOf(n.clients) + LocalsOf(n.servers)
    && forall x :: x in open ==> x.servptr == n.me
  }

  ghost function WithMode(people: set<Client>, mode: char): set<Client>
    reads people`umodes
  {
    set u | u in people && mode in u.umodes
  }

  ghost function Open(conn: set<Client>): set<Client>
    reads conn`closing
  {
    set c | c in conn && !c.closing
  }

  ghost predicate LocalOk(d: Ircd, conn: set<Client>)
    reads d`globalClients, d`globalServers, d`deadList, Nodes(d)`clientList, Nodes(d)`serverList
    reads d`operList, d`localClients, d`localServers, d.people`umodes, conn`closing
  {
    && Directory(Net(d), LocalsIn(d), WithMode(d.people, 'o'), Open(conn))
    && forall c :: c in conn ==> c.local && c != d.me
  }

  lemma LoseElements(list: seq<Client>, all: set<Client>, x: Client)
    requires SameElements(list, all)
    ensures SameElements(Without(list, {x}), all - {x})
    ensures x !in all ==> Without(list, {x}) == list
  {
    WithoutDistinct(list, {x});
    assert x in list ==> x in (set u | u in list);
    if x !in list { WithoutNone(list, {x}); }
  }

  /** The client and everyone behind it. */
  ghost function Branch(n: Network, x: Client): set<Client> {
    {x} + Below(n, x)
  }

  /** Of a branch, only its root can be connected here. */
  lemma OnlyRootIsLocal(n: Network, x: Client, y: Client, open: set<Client>)
    requires Rooted(n) && Listed(n, x) && y in Branch(n, x) && y in open
    requires forall c :: c in open ==> c.servptr == n.me
    ensures y == x
  {
    if y in Below(n, x) {
      InBelow(n, x, y);
      DirectIsOwnSubtree(n, y, x);
    }
  }

  lemma LocalsWithout(list: seq<Client>, gone: set<Client>, x: Client)
    requires forall y :: y in gone && y in list && y.local ==> y == x
    requires x in gone
    ensures LocalsOf(Without(list, gone)) == LocalsOf(list) - {x}
  {
  }

  /** The local lists are right again when the branch has gone and its root has left them; for a remote
      root they already were. */
  lemma DirectoryAfter(n: Network, n': Network, l: Locals, opers: set<Client>, open: set<Client>, x: Client)
    requires Directory(n, l, opers, open)
    requires Rooted(n) && Listed(n, x) && n' == Take(n, Branch(n, x), n'.dead)
    ensures Directory(n', Lose(l, x), opers, open - {x})
    ensures !x.local ==> Lose(l, x) == l && open - {x} == open
  {
    hide Without, Rooted, Below, TakeLists;
    forall y | y in Branch(n, x) && y in open ensures y == x { OnlyRootIsLocal(n, x, y, open); }
    assert x in Branch(n, x);
    LocalsWithout(n.clients, Branch(n, x), x);
    LocalsWithout(n.servers, Branch(n, x), x);
    LoseElements(l.opers, LocalsOf(n.clients) * opers, x);
    LoseElements(l.users, LocalsOf(n.clients), x);
    LoseElements(l.servers, LocalsOf(n.servers), x);
  }

  // ---------------------------------------------------------------- the connection

  /** The side with the exit of a connection begun: from now on it is not queued, and a user is invited no more. */
  ghost function Shut(a: Side, x: Client): Side {
    Marked(a, x).(invites := if x.server then a.invites else Disinvited(a.invites, x))
  }

  ghost function Marked(a: Side, x: Client): Side {
    a.(closing := a.closing + {x}, alive := a.alive - {x})
  }

  /** The connection is marked as closing, so that nothing is queued for it any more. */
  method MarkClosing(ghost d: Ircd, x: Client, ghost conn: set<Client>)
    requires x in conn
    modifies x`closing
    ensures x.closing && Open(conn) == old(Open(conn)) - {x}
    ensures SideOf(d, conn) == Marked(old(SideOf(d, conn)), x)
  {
    x.closing := true;
  }

  /** The invites of a user who leaves go with the user. */
  method ForgetInvites(d: Ircd, x: Client, ghost conn: set<Client>, ghost now: nat)
    requires GraphOk(d, now) && x in d.people && x.local
    modifies d.people`invited, Channels(d)`invites
    ensures GraphOk(d, now) && x.invited == []
    ensures View(d) == old(View(d)) && Net(d) == old(Net(d)) && (old(Counted(d)) ==> Counted(d))
    ensures SideOf(d, conn) == old(SideOf(d, conn)).(invites := Disinvited(old(SideOf(d, conn)).invites, x))
  {
    hide Linked, NoneEmpty, Consistent, Drop, SetOf, Counted, Distinct, OwnLists, MasksOf, MaskListsOf, Defunct, View,
      Disinvited;
    ghost var n, s := Net(d), Nodes(d);
    DropsOwn(InviteView(d), x, now);
    InviteClearList(d, ByClient(x), now);
    assert Nodes(d) == s;
    assert UsersOn(s) == n.users;
    assert LinksOn(s) == n.links;
  }

  /** A client is on no list but that of its kind, and on that of the operators only as one. */
  ghost predicate OnOwnLists(l: Locals, x: Client, oper: bool) {
    && Distinct(l.opers) && Distinct(l.users) && Distinct(l.servers)
    && (!oper || x.server ==> x !in l.opers)
    && (if x.server then x !in l.users else x !in l.servers)
  }

  lemma LosingIsDeleting(list: seq<Client>, x: Client)
    requires Distinct(list)
    ensures Delete(list, x) == Without(list, {x})
    ensures x !in list ==> Without(list, {x}) == list
  {
    DeleteIsWithout(list, x);
    if x !in list { WithoutNone(list, {x}); }
  }

  /** The client leaves the lists of its kind. */
  method LeaveLocalLists(d: Ircd, x: Client, ghost conn: set<Client>)
    requires OnOwnLists(LocalsIn(d), x, 'o' in x.umodes)
    modifies d`operList, d`localClients, d`localServers
    ensures LocalsIn(d) == Lose(old(LocalsIn(d)), x) && SideOf(d, conn) == old(SideOf(d, conn))
  {
    hide Delete, Distinct, MasksOf, MaskListsOf, Defunct;
    LosingIsDeleting(d.operList, x);
    LosingIsDeleting(d.localClients, x);
    LosingIsDeleting(d.localServers, x);
    if !x.server {
      if 'o' in x.umodes {
        d.operList := Delete(d.operList, x);
      }
      d.localClients := Delete(d.localClients, x);
    } else {
      d.localServers := Delete(d.localServers, x);
    }
  }

  /** What that leaves alone. */
  method BeginClosing(ghost d: Ircd, x: Client, ghost conn: set<Client>)
    requires x in conn
    modifies x`closing
    ensures x.closing && Open(conn) == old(Open(conn)) - {x}
    ensures View(d) == old(View(d)) && InviteView(d) == old(InviteView(d)) && Net(d) == old(Net(d))
    ensures Channels(d) == old(Channels(d)) && (old(Counted(d)) ==> Counted(d))
    ensures SideOf(d, conn) == Marked(old(SideOf(d, conn)), x)
  {
    hide CountMode, Distinct, SideOf, Marked;
    ghost var v, w, s := View(d), InviteView(d), Nodes(d);
    ghost var u, l := UsersOn(s), LinksOn(s);
    MarkClosing(d, x, conn);
    assert View(d) == v && InviteView(d) == w;
    assert Nodes(d) == s;
    assert UsersOn(s) == u;
    assert LinksOn(s) == l;
  }

  /** Off the lists. */
  method Delist(d: Ircd, x: Client, ghost conn: set<Client>)
    requires OnOwnLists(LocalsIn(d), x, 'o' in x.umodes)
    modifies d`operList, d`localClients, d`localServers
    ensures View(d) == old(View(d)) && InviteView(d) == old(InviteView(d)) && Net(d) == old(Net(d))
    ensures Channels(d) == old(Channels(d)) && (old(Counted(d)) ==> Counted(d))
    ensures LocalsIn(d) == Lose(old(LocalsIn(d)), x) && SideOf(d, conn) == old(SideOf(d, conn))
  {
    hide CountMode, Delete, Distinct, Without, Lose, OnOwnLists, SideOf;
    ghost var v, w, s := View(d), InviteView(d), Nodes(d);
    ghost var u, l := UsersOn(s), LinksOn(s);
    LeaveLocalLists(d, x, conn);
    assert View(d) == v && InviteView(d) == w;
    assert Nodes(d) == s;
    assert UsersOn(s) == u;
    assert LinksOn(s) == l;
  }

  /** What exit_client does for a connection of its own. */
  method CloseConnection(d: Ircd, x: Client, ghost conn: set<Client>, ghost now: nat)
    requires Sane(d, conn, now) && x in d.people && x in conn && x.local
    requires OnOwnLists(LocalsIn(d), x, 'o' in x.umodes)
    modifies x`closing, d`operList, d`localClients, d`localServers, d.people`invited, Channels(d)`invites
    ensures Sane(d, conn, now) && Open(conn) == old(Open(conn)) - {x} && x.closing
    ensures View(d) == old(View(d)) && Net(d) == old(Net(d)) && (!x.server ==> x.invited == [])
    ensures LocalsIn(d) == Lose(old(LocalsIn(d)), x)
    ensures SideOf(d, conn) == Shut(old(SideOf(d, conn)), x)
  {
    hide Linked, NoneEmpty, Consistent, CountMode, Rooted, Delete, Distinct, Without, Lose, OnOwnLists, OwnLists,
      Disinvited, SideOf;
    BeginClosing(d, x, conn);
    Delist(d, x, conn);
    if !x.server {
      ForgetInvites(d, x, conn, now);
    }
  }

  /** Notices, routed messages: the daemon changes only in what is queued. */
  method Send(d: Ircd, failing: seq<Client>, ghost conn: set<Client>, ghost now: nat)
    requires Sane(d, conn, now) && forall c :: c in failing ==> c in conn
    modifies d`abortList, d`eacNext, conn`dead
    ensures Sane(d, conn, now) && View(d) == old(View(d)) && Net(d) == old(Net(d)) && Channels(d) == old(Channels(d))
    ensures Onward(old(SideOf(d, conn)), SideOf(d, conn))
  {
    hide Linked, NoneEmpty, Consistent, CountMode, Rooted, Distinct, OwnLists, Onward;
    SendQuit(d, failing, conn);
  }

  // ---------------------------------------------------------------- exit_client

  /** Which writes fail while x is being exited: of its quit or split, of the notices about it, of the message that
      routes its departure, of the notice after a netsplit. */
  datatype Failures = Failures(quit: Client -> seq<Client>, notice: Client -> seq<Client>,
                               route: Client -> seq<Client>, report: Client -> seq<Client>)

  ghost predicate AllIn(f: Failures, people: set<Client>, conn: set<Client>) {
    FailuresIn(f.quit, people, conn) && FailuresIn(f.notice, people, conn) &&
    FailuresIn(f.route, people, conn) && FailuresIn(f.report, people, conn)
  }

  /** What is sent about a user who leaves; a killed one is not routed. */
  method SendNotices(d: Ircd, x: Client, f: Failures, ghost conn: set<Client>, ghost now: nat)
    requires Sane(d, conn, now) && x in d.people && AllIn(f, d.people, conn)
    modifies d`abortList, d`eacNext, conn`dead
    ensures Sane(d, conn, now) && View(d) == old(View(d)) && Net(d) == old(Net(d)) && Channels(d) == old(Channels(d))
    ensures Onward(old(SideOf(d, conn)), SideOf(d, conn))
  {
    hide Sane, Onward;
    ghost var a := SideOf(d, conn);
    Send(d, f.notice(x), conn, now);
    ghost var b := SideOf(d, conn);
    if !x.killed {
      Send(d, f.route(x), conn, now);
      OnwardTrans(a, b, SideOf(d, conn));
    }
  }

  /** A user, whose connection has been dealt with. */
  method DepartUser(d: Ircd, x: Client, f: Failures, ghost conn: set<Client>, ghost now: nat)
    requires Sane(d, conn, now) && x in d.globalClients && AllIn(f, d.people, conn)
    modifies d`globalClients, d`globalServers, d`deadList, d`countOper, d`countInvisi
    modifies d.people`clientList, d.people`serverList, d.people`dead
    modifies d`channelList, d.people`channel, d.people`invited
    modifies Channels(d)`members, Channels(d)`membersLocal, Channels(d)`invites, MaskListsOf(Channels(d))`masks
    modifies d`abortList, d`eacNext
    ensures Sane(d, conn, now) && Exited(old(Net(d)), old(View(d)), Net(d), View(d), Branch(old(Net(d)), x))
    ensures Channels(d) <= old(Channels(d))
    ensures Onward(old(SideOf(d, conn)), SideOf(d, conn))
  {
    hide Sane, Exited, Take, Strip, Below, InSubtree, Distinct, Leaf, Rooted, MaskListsOf, Branch,
      Onward, SideOf;
    ghost var a := SideOf(d, conn);
    SaneParts(d, conn, now);
    UserHangs(d, x);
    UserBranch(Net(d), x);
    SendNotices(d, x, f, conn, now);
    ghost var b := SideOf(d, conn);
    ExitOneClient(d, x, f.quit(x), conn, now);
    OnwardTrans(a, b, SideOf(d, conn));
  }

  /** Everyone behind a server. */
  method SplitOff(d: Ircd, x: Client, f: Failures, ghost conn: set<Client>, ghost now: nat)
    requires Sane(d, conn, now) && x in d.globalServers && AllIn(f, d.people, conn)
    modifies d`globalClients, d`globalServers, d`deadList, d`countOper, d`countInvisi
    modifies d.people`clientList, d.people`serverList, d.people`dead
    modifies d`channelList, d.people`channel, d.people`invited
    modifies Channels(d)`members, Channels(d)`membersLocal, Channels(d)`invites, MaskListsOf(Channels(d))`masks
    modifies d`abortList, d`eacNext
    ensures Sane(d, conn, now) && Exited(old(Net(d)), old(View(d)), Net(d), View(d), Below(old(Net(d)), x))
    ensures x in d.globalServers && Leaf(Net(d), x) && Channels(d) <= old(Channels(d))
    ensures Onward(old(SideOf(d, conn)), SideOf(d, conn))
  {
    hide Sane, Exited, Take, Strip, Below, InSubtree, Distinct, Leaf, Rooted, MaskListsOf,
      Onward, SideOf;
    ghost var a := SideOf(d, conn);
    SaneParts(d, conn, now);
    ListedFacts(d, x);
    Send(d, f.route(x), conn, now);
    ghost var b := SideOf(d, conn);
    RecurseRemove(d, x, f.quit, conn, now);
    ghost var c := SideOf(d, conn);
    OnwardTrans(a, b, c);
    if x.local {
      Send(d, f.report(x), conn, now);
      OnwardTrans(a, c, SideOf(d, conn));
    }
  }

  /** A server, and everyone behind it. */
  method DepartServer(d: Ircd, x: Client, f: Failures, ghost conn: set<Client>, ghost now: nat)
    requires Sane(d, conn, now) && x in d.globalServers && AllIn(f, d.people, conn)
    modifies d`globalClients, d`globalServers, d`deadList, d`countOper, d`countInvisi
    modifies d.people`clientList, d.people`serverList, d.people`dead
    modifies d`channelList, d.people`channel, d.people`invited
    modifies Channels(d)`members, Channels(d)`membersLocal, Channels(d)`invites, MaskListsOf(Channels(d))`masks
    modifies d`abortList, d`eacNext
    ensures Sane(d, conn, now) && Exited(old(Net(d)), old(View(d)), Net(d), View(d), Branch(old(Net(d)), x))
    ensures Channels(d) <= old(Channels(d))
    ensures Onward(old(SideOf(d, conn)), SideOf(d, conn))
  {
    hide Sane, Exited, Take, Strip, Below, InSubtree, Distinct, Leaf, Rooted, MaskListsOf, Branch, Defunct,
      Onward, SideOf;
    ghost var n, g, cs, a := Net(d), View(d), Channels(d), SideOf(d, conn);
    SaneParts(d, conn, now);
    ListedFacts(d, x);
    SplitOff(d, x, f, conn, now);
    ghost var b := SideOf(d, conn);
    ghost var n1, g1 := Net(d), View(d);
    MaskListsFewer(Channels(d), cs);
    ExitOneClient(d, x, f.quit(x), conn, now);
    OnwardTrans(a, b, SideOf(d, conn));
    ServerBranch(n, g, n1, g1, Net(d), View(d), x);
  }

  lemma UserBranch(n: Network, x: Client)
    requires Rooted(n) && x in n.clients
    ensures Branch(n, x) == {x} && Leaf(n, x)
  {
    UserIsNoServer(n, x);
    HangsThere(n, x);
    hide InSubtree, Below, Rooted;
    forall y | y in Below(n, x) ensures false {
      InBelow(n, x, y);
      NothingBehindUser(n, x, y);
    }
    assert Below(n, x) == {};
  }

  lemma {:induction false} NothingBehindUser(n: Network, x: Client, y: Client)
    requires Rooted(n) && x in n.clients && Listed(n, y) && y != x
    ensures !InSubtree(y, x)
    decreases y.depth
  {
    assert Hangs(n, y);
    UserIsNoServer(n, x);
    if y.servptr != n.me { NothingBehindUser(n, x, y.servptr); }
  }

  lemma ServerBranch(n: Network, g: Graph, n1: Network, g1: Graph, n2: Network, g2: Graph, x: Client)
    requires Linked(g) && Exited(n, g, n1, g1, Below(n, x)) && Exited(n1, g1, n2, g2, {x})
    ensures Exited(n, g, n2, g2, Branch(n, x))
  {
    hide Exited, InSubtree, Linked;
    InBelow(n, x, x);
    ExitedTwice(n, g, n1, g1, n2, g2, Below(n, x), {x});
    assert Below(n, x) + {x} == Branch(n, x);
  }

  /** Either way, connections and user modes stay as they are. */
  method Depart(d: Ircd, x: Client, f: Failures, ghost conn: set<Client>, ghost now: nat)
    requires Sane(d, conn, now) && Listed(Net(d), x) && AllIn(f, d.people, conn)
    modifies d`globalClients, d`globalServers, d`deadList, d`countOper, d`countInvisi
    modifies d.people`clientList, d.people`serverList, d.people`dead
    modifies d`channelList, d.people`channel, d.people`invited
    modifies Channels(d)`members, Channels(d)`membersLocal, Channels(d)`invites, MaskListsOf(Channels(d))`masks
    modifies d`abortList, d`eacNext
    ensures Sane(d, conn, now) && Exited(old(Net(d)), old(View(d)), Net(d), View(d), Branch(old(Net(d)), x))
    ensures Channels(d) <= old(Channels(d))
    ensures WithMode(d.people, 'o') == old(WithMode(d.people, 'o')) && Open(conn) == old(Open(conn))
    ensures Onward(old(SideOf(d, conn)), SideOf(d, conn))
  {
    hide Sane, Exited, Branch, Rooted, MaskListsOf, AllIn, Onward, SideOf, Listed, Net, View;
    SaneParts(d, conn, now);
    ListedFacts(d, x);
    if x.server {
      DepartServer(d, x, f, conn, now);
    } else {
      DepartUser(d, x, f, conn, now);
    }
  }

  lemma OpenIsListed(n: Network, l: Locals, opers: set<Client>, open: set<Client>, x: Client)
    requires Rooted(n) && Directory(n, l, opers, open)
    ensures x in open ==> Listed(n, x) && x.local
    ensures Listed(n, x) ==> OnOwnLists(l, x, x in opers) && (x.local ==> x in open)
  {
    hide Hangs, Holds;
    if x in l.opers { assert x in LocalsOf(n.clients) * opers; }
    if x in l.users { assert x in LocalsOf(n.clients); }
    if x in l.servers { assert x in LocalsOf(n.servers); }
    if x in n.clients { UserIsNoServer(n, x); }
    if x in n.servers { ServerIsNoUser(n, x); }
  }

  /** The connection, if there is one, is closed. */
  method Disconnect(d: Ircd, x: Client, ghost conn: set<Client>, ghost now: nat)
    requires Sane(d, conn, now) && Listed(Net(d), x) && x in d.people && (x.local ==> x in conn)
    requires Directory(Net(d), LocalsIn(d), WithMode(d.people, 'o'), Open(conn))
    modifies (if x.local then {x} else {})`closing, d`operList, d`localClients, d`localServers
    modifies d.people`invited, Channels(d)`invites
    ensures Sane(d, conn, now) && View(d) == old(View(d)) && Net(d) == old(Net(d)) && Channels(d) == old(Channels(d))
    ensures Open(conn) == if x.local then old(Open(conn)) - {x} else old(Open(conn))
    ensures LocalsIn(d) == if x.local then Lose(old(LocalsIn(d)), x) else old(LocalsIn(d))
    ensures WithMode(d.people, 'o') == old(WithMode(d.people, 'o')) && (x.local ==> x.closing)
    ensures SideOf(d, conn) == if x.local then Shut(old(SideOf(d, conn)), x) else old(SideOf(d, conn))
  {
    hide Sane, Rooted, Directory, Distinct, Delete, Listed, Shut;
    SaneParts(d, conn, now);
    OpenIsListed(Net(d), LocalsIn(d), WithMode(d.people, 'o'), Open(conn), x);
    if x.local {
      CloseConnection(d, x, conn, now);
    }
  }

  /** What the side is once the connection, if there is one, is closing. */
  ghost function Begun(a: Side, x: Client): Side {
    if x.local && x !in a.closing then Shut(a, x) else a
  }

  /** The connection is closed, the client and everyone behind it go. */
  method CloseAndDepart(d: Ircd, x: Client, f: Failures, ghost conn: set<Client>, ghost now: nat)
    requires Sane(d, conn, now) && AllIn(f, d.people, conn)
    requires Directory(Net(d), LocalsIn(d), WithMode(d.people, 'o'), Open(conn))
    requires Listed(Net(d), x) && (x.local ==> x in conn)
    modifies d`globalClients, d`globalServers, d`deadList, d`countOper, d`countInvisi
    modifies d.people`clientList, d.people`serverList, d.people`dead
    modifies d`channelList, d.people`channel, d.people`invited
    modifies Channels(d)`members, Channels(d)`membersLocal, Channels(d)`invites, MaskListsOf(Channels(d))`masks
    modifies d`abortList, d`eacNext
    modifies (if x.local then {x} else {})`closing, d`operList, d`localClients, d`localServers
    ensures Sane(d, conn, now) && Channels(d) <= old(Channels(d))
    ensures Exited(old(Net(d)), old(View(d)), Net(d), View(d), Branch(old(Net(d)), x))
    ensures Open(conn) == if x.local then old(Open(conn)) - {x} else old(Open(conn))
    ensures LocalsIn(d) == if x.local then Lose(old(LocalsIn(d)), x) else old(LocalsIn(d))
    ensures WithMode(d.people, 'o') == old(WithMode(d.people, 'o'))
    ensures Onward(if x.local then Shut(old(SideOf(d, conn)), x) else old(SideOf(d, conn)), SideOf(d, conn))
  {
    hide Sane, Exited, Branch, Rooted, MaskListsOf, Directory, Distinct, Delete, Without, Lose, OnOwnLists, Listed,
      AllIn, Onward, Shut, SideOf, View, Net;
    SaneParts(d, conn, now);
    ListedFacts(d, x);
    Disconnect(d, x, conn, now);
    Depart(d, x, f, conn, now);
  }

  lemma Begins(d: Ircd, conn: set<Client>, x: Client)
    requires x.local ==> x in Open(conn)
    ensures Begun(SideOf(d, conn), x) == if x.local then Shut(SideOf(d, conn), x) else SideOf(d, conn)
  {
    hide Shut;
  }

  /** exit_client for a client that is not exiting yet. */
  method ExitListed(d: Ircd, x: Client, f: Failures, ghost conn: set<Client>, ghost now: nat)
    requires Sane(d, conn, now) && LocalOk(d, conn) && AllIn(f, d.people, conn)
    requires Listed(Net(d), x) && (x.local ==> x in conn)
    modifies d`globalClients, d`globalServers, d`deadList, d`countOper, d`countInvisi
    modifies d.people`clientList, d.people`serverList, d.people`dead
    modifies d`channelList, d.people`channel, d.people`invited
    modifies Channels(d)`members, Channels(d)`membersLocal, Channels(d)`invites, MaskListsOf(Channels(d))`masks
    modifies d`abortList, d`eacNext
    modifies conn`closing, d`operList, d`localClients, d`localServers
    ensures Sane(d, conn, now) && LocalOk(d, conn) && Channels(d) <= old(Channels(d))
    ensures Exited(old(Net(d)), old(View(d)), Net(d), View(d), Branch(old(Net(d)), x))
    ensures Open(conn) == if x.local then old(Open(conn)) - {x} else old(Open(conn))
    ensures Onward(Begun(old(SideOf(d, conn)), x), SideOf(d, conn))
  {
    hide Sane, Exited, Branch, Rooted, MaskListsOf, Directory, Distinct, Delete, Without, Lose, OnOwnLists, Listed,
      AllIn, Onward, Shut, Begun, SideOf;
    SaneParts(d, conn, now);
    ListedFacts(d, x);
    OpenIsListed(Net(d), LocalsIn(d), WithMode(d.people, 'o'), Open(conn), x);
    Begins(d, conn, x);
    ghost var n, g, l, opers, open := Net(d), View(d), LocalsIn(d), WithMode(d.people, 'o'), Open(conn);
    CloseAndDepart(d, x, f, conn, now);
    ExitedTakes(n, g, Net(d), View(d), Branch(n, x));
    DirectoryAfter(n, Net(d), l, opers, open, x);
  }

  /** exit_client. A second call for a connection that is already closing does nothing; otherwise the client
      and everyone behind it go, and the lists of local clients lose the client. Whether the client is on the
      abort list does not change. */
  method ExitClient(d: Ircd, x: Client, f: Failures, ghost conn: set<Client>, ghost now: nat)
    requires Sane(d, conn, now) && LocalOk(d, conn) && AllIn(f, d.people, conn)
    requires if x.local then x in conn else Listed(Net(d), x)
    modifies d`globalClients, d`globalServers, d`deadList, d`countOper, d`countInvisi
    modifies d.people`clientList, d.people`serverList, d.people`dead
    modifies d`channelList, d.people`channel, d.people`invited
    modifies Channels(d)`members, Channels(d)`membersLocal, Channels(d)`invites, MaskListsOf(Channels(d))`masks
    modifies d`abortList, d`eacNext
    modifies conn`closing, d`operList, d`localClients, d`localServers
    ensures Sane(d, conn, now) && LocalOk(d, conn) && Channels(d) <= old(Channels(d))
    ensures old(x.local && x.closing) ==>
      Net(d) == old(Net(d)) && View(d) == old(View(d)) && d.abortList == old(d.abortList)
    ensures !old(x.local && x.closing) ==>
      Exited(old(Net(d)), old(View(d)), Net(d), View(d), Branch(old(Net(d)), x))
    ensures x in d.abortList <==> x in old(d.abortList)
    ensures OwnGone(old(InviteView(d)).ofChannel, InviteView(d).ofChannel, {x})
    ensures Open(conn) == if x.local then old(Open(conn)) - {x} else old(Open(conn))
    ensures Onward(Begun(old(SideOf(d, conn)), x), SideOf(d, conn))
  {
    hide Sane, Exited, Branch, Rooted, MaskListsOf, Directory, Distinct, Delete, Without, Lose, OnOwnLists, Listed,
      AllIn, Onward, Shut, SideOf;
    ghost var a := SideOf(d, conn);
    SaneParts(d, conn, now);
    SideFields(d, conn);
    hide Begun, OwnGone, InviteView;
    if x.local && x.closing {
      EndsBegun(a, x);
      OwnInvitesGo(a, a, x);
      return;
    }
    OpenIsListed(Net(d), LocalsIn(d), WithMode(d.people, 'o'), Open(conn), x);
    ExitListed(d, x, f, conn, now);
    SideFields(d, conn);
    OwnInvitesGo(a, SideOf(d, conn), x);
    NotQueuedMeanwhile(d, a, conn, now, x);
  }

  lemma SideFields(d: Ircd, conn: set<Client>)
    ensures var a := SideOf(d, conn);
      a.queue == d.abortList && a.alive == Alive(conn) && a.closing == Closing(conn) && a.next == NamesNext(d) &&
      a.masks == MaskMap(Channels(d)) && a.invites == InviteView(d).ofChannel
  {
  }

  lemma EndsBegun(a: Side, x: Client)
    requires x in a.closing
    ensures Onward(Begun(a, x), a)
  {
    OnwardSelf(a);
  }

  /** Of the invites only the client's own go. */
  lemma OwnInvitesGo(a: Side, b: Side, x: Client)
    requires Onward(Begun(a, x), b)
    ensures OwnGone(a.invites, b.invites, {x})
  {
    hide Without;
  }

  /** A client is not queued while it exits: its connection is closing, or it has none. */
  lemma NotQueuedMeanwhile(d: Ircd, a: Side, conn: set<Client>, now: nat, x: Client)
    requires Sane(d, conn, now) && LocalOk(d, conn) && Onward(Begun(a, x), SideOf(d, conn))
    requires forall c :: c in a.queue ==> c in conn
    ensures x in d.abortList <==> x in a.queue
  {
    hide Linked, NoneEmpty, Consistent, TreeOk, Directory;
  }

  /** exit_client asserts, just before the client is taken out, that it is not on the abort list; for a connection that
      is already closing it returns before that. Whatever is written to the connection before the exit, as KILL and
      SQUIT do: if the assertion is reached, it holds if and only if the connection was not queued before and this write
      does not queue it. It is not reached for a closing connection, which then stays where it was. */
  method WriteThenExit(d: Ircd, x: Client, fails: bool, f: Failures, ghost conn: set<Client>, ghost now: nat)
    returns (ghost reached: bool, ghost holds: bool)
    requires Sane(d, conn, now) && LocalOk(d, conn) && AllIn(f, d.people, conn) && x in conn
    modifies d`globalClients, d`globalServers, d`deadList, d`countOper, d`countInvisi
    modifies d.people`clientList, d.people`serverList, d.people`dead
    modifies d`channelList, d.people`channel, d.people`invited
    modifies Channels(d)`members, Channels(d)`membersLocal, Channels(d)`invites, MaskListsOf(Channels(d))`masks
    modifies d`abortList, d`eacNext
    modifies conn`closing, d`operList, d`localClients, d`localServers
    ensures Sane(d, conn, now) && LocalOk(d, conn) && Channels(d) <= old(Channels(d)) && x.closing
    ensures (reached <==> !old(x.closing)) && (holds <==> x !in d.abortList)
    ensures reached ==> (holds <==> x !in old(d.abortList) && !(fails && old(!Defunct(x))))
    ensures !reached ==> Net(d) == old(Net(d)) && View(d) == old(View(d)) && d.abortList == old(d.abortList)
  {
    hide Sane, LocalOk, Exited, Branch, MaskListsOf, Distinct, AllIn, Onward, SideOf, Net, View;
    reached := !x.closing;
    InConn(d, conn, x);
    SaneParts(d, conn, now);
    WriteTo(d, x, fails, conn, now);
    ExitClient(d, x, f, conn, now);
    NowClosing(conn, x);
    holds := x !in d.abortList;
  }

  lemma InConn(d: Ircd, conn: set<Client>, x: Client)
    requires LocalOk(d, conn) && x in conn
    ensures x.local
  {
    hide Directory;
  }

  lemma NowClosing(conn: set<Client>, x: Client)
    requires x in conn && x !in Open(conn)
    ensures x.closing
  {
  }

  /** A message to one connection. */
  method WriteOnce(d: Ircd, x: Client, fails: bool, ghost conn: set<Client>)
    requires QueueOk(d, conn) && x in conn
    modifies d`abortList, d`eacNext, x`dead
    ensures QueueOk(d, conn)
    ensures d.abortList == if fails && !old(Defunct(x)) then old(d.abortList) + [x] else old(d.abortList)
    ensures View(d) == old(View(d)) && InviteView(d) == old(InviteView(d)) && Channels(d) == old(Channels(d))
    ensures Net(d) == old(Net(d)) && (old(Counted(d)) ==> Counted(d))
  {
    hide Distinct, CountMode, QueueOk, Work, NamesNext, Alive, Defunct;
    ghost var v, w, s := View(d), InviteView(d), Nodes(d);
    ghost var u, l := UsersOn(s), LinksOn(s);
    if fails {
      DeadLinkOnWrite(d, x, conn);
      assert View(d) == v && InviteView(d) == w;
      assert Nodes(d) == s;
      assert UsersOn(s) == u;
      assert LinksOn(s) == l;
    }
  }

  method WriteTo(d: Ircd, x: Client, fails: bool, ghost conn: set<Client>, ghost now: nat)
    requires Sane(d, conn, now) && LocalOk(d, conn) && x in conn
    modifies d`abortList, d`eacNext, x`dead
    ensures Sane(d, conn, now) && LocalOk(d, conn) && Channels(d) == old(Channels(d))
    ensures Net(d) == old(Net(d)) && View(d) == old(View(d))
    ensures d.abortList == if fails && !old(Defunct(x)) then old(d.abortList) + [x] else old(d.abortList)
  {
    hide Linked, NoneEmpty, Consistent, CountMode, Rooted, Directory, Distinct, OwnLists, Defunct;
    WriteOnce(d, x, fails, conn);
  }

  // ---------------------------------------------------------------- the dead connections

  /** The clients of the list and everyone behind any of them. */
  ghost function Branches(n: Network, list: seq<Client>): set<Client> {
    (set x, c | c in list && x in n.clients && InSubtree(x, c) :: x) +
    (set x, c | c in list && x in n.servers && InSubtree(x, c) :: x)
  }

  lemma InBranches(n: Network, list: seq<Client>, x: Client)
    ensures x in Branches(n, list) <==> Listed(n, x) && exists c :: c in list && InSubtree(x, c)
  {
  }

  lemma InBranch(n: Network, x: Client, y: Client)
    requires Listed(n, x)
    ensures y in Branch(n, x) <==> Listed(n, y) && InSubtree(y, x)
  {
    InBelow(n, x, y);
    OwnSubtree(x);
  }

  lemma BranchesStep(n: Network, n1: Network, done: seq<Client>, x: Client, y: Client)
    requires n1 == Take(n, Branches(n, done), n1.dead) && Listed(n1, x)
    ensures y in Branches(n, done) || y in Branch(n1, x) <==> y in Branches(n, done + [x])
    ensures !(y in Branches(n, done) && y in Branch(n1, x))
  {
    hide InSubtree, TakeLists, Branches, Branch;
    InBranches(n, done, y);
    InBranches(n, done + [x], y);
    InBranch(n1, x, y);
    assert Listed(n1, y) <==> Listed(n, y) && y !in Branches(n, done);
    if y in Branches(n, done) {
      var c :| c in done && InSubtree(y, c);
      assert c in done + [x];
    }
    assert x in done + [x];
  }

  lemma BranchesSnoc(n: Network, n1: Network, done: seq<Client>, x: Client)
    requires n1 == Take(n, Branches(n, done), n1.dead) && Listed(n1, x)
    ensures Branches(n, done) + Branch(n1, x) == Branches(n, done + [x]) && Branches(n, done) !! Branch(n1, x)
  {
    hide InSubtree, TakeLists, Branches, Branch;
    var a, b, c := Branches(n, done), Branch(n1, x), Branches(n, done + [x]);
    forall y | y in a + b ensures y in c && !(y in a && y in b) { BranchesStep(n, n1, done, x, y); }
    forall y | y in c ensures y in a + b { BranchesStep(n, n1, done, x, y); }
  }

  lemma OwnSubtree(x: Client)
    ensures InSubtree(x, x)
  {
  }

  function Second(list: seq<Client>): Client? {
    if |list| < 2 then null else list[1]
  }

  function Head(list: seq<Client>): Client? {
    if list == [] then null else list[0]
  }

  // ---------------------------------------------------------------- what an exit comes to

  /** Is the server it is on this one, or one that stays? */
  predicate StaysOn(n: Network, n': Network, y: Client) {
    y.servptr != null && (y.servptr == n.me || Listed(n', y.servptr))
  }

  /** Who goes in an exit, said without the subtree: the client, and whoever is on a server that goes. Their memberships
      go with them, and no others. */
  ghost predicate OnlyBehind(n: Network, g: Graph, n': Network, g': Graph, x: Client) {
    && !Listed(n', x)
    && (forall y :: y in n.clients ==> y == x || (Listed(n', y) <==> StaysOn(n, n', y)))
    && (forall y :: y in n.servers ==> y == x || (Listed(n', y) <==> StaysOn(n, n', y)))
    && (forall y :: y in n'.clients ==> Listed(n, y))
    && (forall y :: y in n'.servers ==> Listed(n, y))
    && (forall c, m :: c in g.members && m in g.members[c] ==>
         ((c in g'.members && m in g'.members[c]) <==> !Listed(n, m.client) || Listed(n', m.client)))
  }

  lemma ExitMeans(n: Network, g: Graph, n': Network, g': Graph, x: Client)
    requires Rooted(n) && Linked(g) && Listed(n, x) && Exited(n, g, n', g', Branch(n, x))
    ensures OnlyBehind(n, g, n', g', x)
  {
    hide InSubtree, Strip, Take, Exited, Branch, Rooted, Linked, Listed;
    var gone := Branch(n, x);
    ListedMeans(n);
    ListedMeans(n');
    ExitedTakes(n, g, n', g', gone);
    TakenLists(n, gone, n'.dead);
    forall y | Listed(n, y) ensures y in gone <==> InSubtree(y, x) { InBranch(n, x, y); }
    OwnSubtree(x);
    forall y | Listed(n, y) && y != x ensures Listed(n', y) <==> StaysOn(n, n', y) {
      BehindOne(n, x, y);
    }
    forall c, m | c in g.members && m in g.members[c]
      ensures (c in g'.members && m in g'.members[c]) <==> m.client !in gone
    {
      MembershipStays(g, gone, c, m);
    }
    InBranchListed(n, x);
  }

  lemma ListedMeans(n: Network)
    ensures forall y :: Listed(n, y) <==> y in n.clients || y in n.servers
  {
  }

  lemma TakenLists(n: Network, gone: set<Client>, dead: seq<Client>)
    ensures forall y :: Listed(Take(n, gone, dead), y) <==> Listed(n, y) && y !in gone
  {
  }

  lemma InBranchListed(n: Network, x: Client)
    requires Listed(n, x)
    ensures forall y :: y in Branch(n, x) ==> Listed(n, y)
  {
    hide InSubtree;
  }

  lemma BehindOne(n: Network, x: Client, y: Client)
    requires Rooted(n) && Listed(n, x) && Listed(n, y) && y != x
    ensures y.servptr != null && (y.servptr == n.me || Listed(n, y.servptr))
    ensures InSubtree(y, x) <==> y.servptr != n.me && InSubtree(y.servptr, x)
  {
    assert Hangs(n, y) && Hangs(n, x);
  }

  lemma MembershipStays(g: Graph, gone: set<Client>, c: Channel, m: ChannelMember)
    requires Linked(g) && c in g.members && m in g.members[c]
    ensures var h := Strip(g, MembershipsOf(g, gone));
      (c in h.members && m in h.members[c]) <==> m.client !in gone
  {
    hide Without;
    assert ChannelLinked(g, c);
    assert forall u, k :: u in g.on && k in g.on[u] ==> k.client == u by {
      forall u, k | u in g.on && k in g.on[u] ensures k.client == u { assert ClientLinked(g, u); }
    }
    assert m in MembershipsOf(g, gone) <==> m.client in gone;
  }

  // ---------------------------------------------------------------- those who have already gone

  /** Nobody is behind a client that is not listed. */
  lemma {:induction false} NobodyBehind(n: Network, x: Client, y: Client)
    requires Rooted(n) && !Listed(n, x) && x != n.me && Listed(n, y)
    ensures !InSubtree(y, x)
    decreases y.depth
  {
    assert Hangs(n, y);
    if y.servptr != n.me { NobodyBehind(n, x, y.servptr); }
  }

  /** A connection that is closing is not listed any more. */
  lemma ClosingIsGone(d: Ircd, conn: set<Client>, now: nat, x: Client)
    requires Sane(d, conn, now) && LocalOk(d, conn) && x in conn
    ensures x.local && x != d.me && Rooted(Net(d)) && (x in Open(conn) <==> Listed(Net(d), x))
  {
    hide Sane, Rooted, Directory;
    SaneParts(d, conn, now);
    OpenIsListed(Net(d), LocalsIn(d), WithMode(d.people, 'o'), Open(conn), x);
  }

  /** Those who had already gone take nobody with them. */
  lemma GoneAddNothing(n: Network, list: seq<Client>, gone: set<Client>)
    requires Rooted(n) && forall x :: x in gone ==> !Listed(n, x) && x != n.me
    ensures Branches(n, list) == Branches(n, Without(list, gone))
  {
    hide InSubtree, Branches, Rooted, Listed;
    var kept := Without(list, gone);
    forall y | y in Branches(n, list) ensures y in Branches(n, kept) {
      InBranches(n, list, y);
      InBranches(n, kept, y);
      var c :| c in list && InSubtree(y, c);
      if c in gone { NobodyBehind(n, c, y); }
      assert c in kept;
    }
    forall y | y in Branches(n, kept) ensures y in Branches(n, list) {
      InBranches(n, list, y);
      InBranches(n, kept, y);
    }
  }

  /** Nor do they after others have gone. */
  lemma GoneSince(n: Network, n1: Network, done: seq<Client>, x: Client)
    requires n1 == Take(n, Branches(n, done), n1.dead) && Rooted(n1) && !Listed(n1, x) && x != n1.me
    ensures Branches(n, done + [x]) == Branches(n, done)
  {
    hide InSubtree, Branches, Rooted;
    forall y | y in Branches(n, done + [x]) ensures y in Branches(n, done) {
      InBranches(n, done, y);
      InBranches(n, done + [x], y);
      if y !in Branches(n, done) {
        assert InSubtree(y, x);
        assert Listed(n1, y);
        NobodyBehind(n1, x, y);
      }
    }
    forall y | y in Branches(n, done) ensures y in Branches(n, done + [x]) {
      InBranches(n, done, y);
      InBranches(n, done + [x], y);
      var c :| c in done && InSubtree(y, c);
      assert c in done + [x];
    }
  }

  // ---------------------------------------------------------------- the loop

  /** Where the work on the queue stands: those in `popped` have gone, with those behind them, now or before; what has
      not been popped is still queued, in order. */
  ghost predicate Progress(n: Network, g: Graph, a: Side, n': Network, g': Graph, b: Side, popped: seq<Client>) {
    && Linked(g) && Exited(n, g, n', g', Branches(n, popped))
    && Distinct(popped) && (forall c :: c in popped ==> c !in b.queue && c in b.closing)
    && a.queue <= popped + b.queue && b.closing == a.closing + (set c | c in popped)
    && Narrower(b.masks, a.masks) && OwnGone(a.invites, b.invites, set c | c in popped)
  }

  /** The head leaves the queue, and the saved iterator names the client after it. */
  method Pop(d: Ircd, x: Client, ghost conn: set<Client>)
    requires QueueOk(d, conn) && d.abortList != [] && x == d.abortList[0]
    modifies d`abortList, d`eacNext
    ensures d.abortList == old(d.abortList)[1..] && NamesNext(d) && x !in d.abortList && x in conn
    ensures QueueOk(d, conn) && Work(d, conn) < old(Work(d, conn))
  {
    d.eacNext := Second(d.abortList);
    DeleteAt(d.abortList, 0);
    d.abortList := Delete(d.abortList, x);
  }

  ghost function Popped(a: Side): Side
    requires a.queue != []
  {
    a.(queue := a.queue[1..], next := true)
  }

  method PopAside(d: Ircd, x: Client, ghost conn: set<Client>)
    requires QueueOk(d, conn) && d.abortList != [] && x == d.abortList[0]
    modifies d`abortList, d`eacNext
    ensures QueueOk(d, conn) && x !in d.abortList && x in conn
    ensures SideOf(d, conn).queue == old(SideOf(d, conn)).queue[1..] && SideOf(d, conn) == Popped(old(SideOf(d, conn)))
  {
    hide Distinct, MasksOf, MaskListsOf, Defunct;
    Pop(d, x, conn);
  }

  method Dequeue(d: Ircd, x: Client, ghost conn: set<Client>, ghost now: nat)
    requires Sane(d, conn, now) && LocalOk(d, conn) && d.abortList != [] && x == d.abortList[0]
    modifies d`abortList, d`eacNext
    ensures Sane(d, conn, now) && LocalOk(d, conn) && Net(d) == old(Net(d)) && View(d) == old(View(d)) &&
      Channels(d) == old(Channels(d))
    ensures SideOf(d, conn) == Popped(old(SideOf(d, conn))) && x !in d.abortList && x in conn
  {
    hide Linked, NoneEmpty, Consistent, CountMode, Rooted, Directory, Distinct, OwnLists, SideOf, Popped;
    PopAside(d, x, conn);
  }

  lemma StillProgress(n: Network, g: Graph, n1: Network, g1: Graph, n2: Network, g2: Graph, done: seq<Client>,
                      x: Client)
    requires Linked(g) && Exited(n, g, n1, g1, Branches(n, done)) && Listed(n1, x)
    requires Exited(n1, g1, n2, g2, Branch(n1, x))
    ensures Exited(n, g, n2, g2, Branches(n, done + [x]))
  {
    hide Linked, Exited, Branch, Branches, Take, Strip, Listed;
    ExitedTakes(n, g, n1, g1, Branches(n, done));
    BranchesSnoc(n, n1, done, x);
    ExitedTwice(n, g, n1, g1, n2, g2, Branches(n, done), Branch(n1, x));
  }

  lemma BegunFields(a: Side, x: Client)
    requires x.local
    ensures var b := Begun(a, x); b.queue == a.queue && b.closing == a.closing + {x} && b.masks == a.masks
    ensures |Begun(a, x).alive| <= |a.alive|
  {
    Fewer(a.alive - {x}, a.alive);
  }

  lemma NextDistinct(popped: seq<Client>, x: Client)
    requires Distinct(popped) && x !in popped
    ensures Distinct(popped + [x])
  {
  }

  /** The first client of the queue has been dealt with. */
  lemma NextProgress(n: Network, g: Graph, a: Side, n1: Network, g1: Graph, b: Side, popped: seq<Client>, x: Client,
                     n2: Network, g2: Graph, c: Side)
    requires Progress(n, g, a, n1, g1, b, popped) && b.queue != [] && x == b.queue[0] && x !in b.queue[1..]
    requires Onward(Begun(Popped(b), x), c) && x.local
    requires Exited(n, g, n2, g2, Branches(n, popped + [x]))
    ensures Progress(n, g, a, n2, g2, c, popped + [x])
    ensures |c.queue| + |c.alive| < |b.queue| + |b.alive|
  {
    hide Linked, Exited, Branches, Narrower, OwnGone, SameLists, Disinvited, Begun, Distinct;
    BegunFields(Popped(b), x);
    OwnInvitesGo(Popped(b), c, x);
    OwnGoneTwice(a.invites, b.invites, c.invites, set k | k in popped, {x});
    assert (set k | k in popped + [x]) == (set k | k in popped) + {x};
    NarrowerTrans(c.masks, b.masks, a.masks);
    NextDistinct(popped, x);
    assert popped + b.queue == popped + [x] + b.queue[1..];
  }

  lemma NothingYet(n: Network, g: Graph, a: Side)
    requires Linked(g) && NoneEmpty(g)
    ensures Progress(n, g, a, n, g, a, [])
  {
    hide Linked, NoneEmpty, Exited;
    ExitedNone(n, g);
    NarrowerSelf(a.masks);
    assert Branches(n, []) == {};
    assert [] + a.queue == a.queue;
  }

  /** exit_client for the client that was popped: it goes with those behind it, unless it has gone before. */
  method ExitPopped(d: Ircd, x: Client, f: Failures, ghost conn: set<Client>, ghost now: nat,
                    ghost n: Network, ghost g: Graph, ghost popped: seq<Client>)
    requires Sane(d, conn, now) && LocalOk(d, conn) && AllIn(f, d.people, conn) && x in conn
    requires Linked(g) && Exited(n, g, Net(d), View(d), Branches(n, popped))
    modifies d`globalClients, d`globalServers, d`deadList, d`countOper, d`countInvisi
    modifies d.people`clientList, d.people`serverList, d.people`dead
    modifies d`channelList, d.people`channel, d.people`invited
    modifies Channels(d)`members, Channels(d)`membersLocal, Channels(d)`invites, MaskListsOf(Channels(d))`masks
    modifies d`abortList, d`eacNext
    modifies conn`closing, d`operList, d`localClients, d`localServers
    ensures Sane(d, conn, now) && LocalOk(d, conn) && Channels(d) <= old(Channels(d)) && x.local
    ensures Exited(n, g, Net(d), View(d), Branches(n, popped + [x]))
    ensures Onward(Begun(old(SideOf(d, conn)), x), SideOf(d, conn))
  {
    hide Sane, LocalOk, Exited, Branch, Branches, Rooted, Linked, MaskListsOf, Listed, AllIn, Onward, SideOf, Take;
    ghost var n1, g1 := Net(d), View(d);
    ClosingIsGone(d, conn, now, x);
    ExitedTakes(n, g, n1, g1, Branches(n, popped));
    if x.closing { GoneSince(n, n1, popped, x); }
    ExitClient(d, x, f, conn, now);
    if Listed(n1, x) { StillProgress(n, g, n1, g1, Net(d), View(d), popped, x); }
  }

  /** One turn of the loop. */
  method WorkOff(d: Ircd, x: Client, f: Failures, ghost conn: set<Client>, ghost now: nat,
                 ghost n: Network, ghost g: Graph, ghost a: Side, ghost popped: seq<Client>)
    requires Sane(d, conn, now) && LocalOk(d, conn) && AllIn(f, d.people, conn)
    requires Progress(n, g, a, Net(d), View(d), SideOf(d, conn), popped) && d.abortList != [] && x == d.abortList[0]
    modifies d`globalClients, d`globalServers, d`deadList, d`countOper, d`countInvisi
    modifies d.people`clientList, d.people`serverList, d.people`dead
    modifies d`channelList, d.people`channel, d.people`invited
    modifies Channels(d)`members, Channels(d)`membersLocal, Channels(d)`invites, MaskListsOf(Channels(d))`masks
    modifies d`abortList, d`eacNext
    modifies conn`closing, d`operList, d`localClients, d`localServers
    ensures Sane(d, conn, now) && LocalOk(d, conn)
    ensures Progress(n, g, a, Net(d), View(d), SideOf(d, conn), popped + [x])
    ensures NamesNext(d) && Channels(d) <= old(Channels(d)) && Work(d, conn) < old(Work(d, conn))
  {
    hide Sane, LocalOk, Exited, Branches, Linked, MaskListsOf, AllIn, Narrower;
    ghost var n1, g1, b := Net(d), View(d), SideOf(d, conn);
    Dequeue(d, x, conn, now);
    ExitPopped(d, x, f, conn, now, n, g, popped);
    NextProgress(n, g, a, n1, g1, b, popped, x, Net(d), View(d), SideOf(d, conn));
  }

  /** ptr = from, eac_next = ptr->next. */
  method Advance(d: Ircd, from: Client?, ghost conn: set<Client>, ghost now: nat) returns (ptr: Client?)
    requires Sane(d, conn, now) && LocalOk(d, conn) && from == Head(d.abortList)
    modifies d`eacNext
    ensures Sane(d, conn, now) && LocalOk(d, conn) && ptr == from && d.eacNext == Second(d.abortList)
    ensures Channels(d) == old(Channels(d)) && Work(d, conn) == old(Work(d, conn)) && Net(d) == old(Net(d)) &&
      View(d) == old(View(d))
    ensures SideOf(d, conn) == old(SideOf(d, conn)).(next := NamesNext(d))
  {
    hide Linked, NoneEmpty, Consistent, CountMode, Rooted, Directory, Distinct, OwnLists, MasksOf, MaskListsOf, Defunct;
    ptr := from;
    d.eacNext := if ptr == null then null else Second(d.abortList);
  }

  lemma ProgressAnyway(n: Network, g: Graph, a: Side, n': Network, g': Graph, b: Side, popped: seq<Client>, next: bool)
    requires Progress(n, g, a, n', g', b, popped)
    ensures Progress(n, g, a, n', g', b.(next := next), popped)
  {
    hide Exited, Linked, Branches, Narrower;
  }

  lemma AllDone(n: Network, g: Graph, a: Side, n': Network, g': Graph, b: Side, popped: seq<Client>)
    requires Progress(n, g, a, n', g', b, popped) && b.queue == []
    requires Rooted(n) && forall x :: x in a.closing ==> !Listed(n, x) && x != n.me
    ensures Distinct(popped) && a.queue <= popped && b.closing == a.closing + (set c | c in popped)
    ensures Exited(n, g, n', g', Branches(n, Without(popped, a.closing))) && Narrower(b.masks, a.masks)
    ensures OwnGone(a.invites, b.invites, set c | c in popped)
  {
    hide Exited, Linked, Branches, Narrower, Rooted, Listed, OwnGone;
    GoneAddNothing(n, popped, a.closing);
    assert popped + b.queue == popped;
  }

  /** exit_aborted_clients: the queue is emptied, also of what is appended on the way. Of those popped, the connections
      that had begun to exit before are passed over; each of the others goes once, with everyone behind it. */
  method ExitAbortedClients(d: Ircd, f: Failures, ghost conn: set<Client>, ghost now: nat)
    returns (ghost popped: seq<Client>)
    requires Sane(d, conn, now) && LocalOk(d, conn) && AllIn(f, d.people, conn)
    modifies d`globalClients, d`globalServers, d`deadList, d`countOper, d`countInvisi
    modifies d.people`clientList, d.people`serverList, d.people`dead
    modifies d`channelList, d.people`channel, d.people`invited
    modifies Channels(d)`members, Channels(d)`membersLocal, Channels(d)`invites, MaskListsOf(Channels(d))`masks
    modifies d`abortList, d`eacNext
    modifies conn`closing, d`operList, d`localClients, d`localServers
    ensures Sane(d, conn, now) && LocalOk(d, conn) && d.abortList == [] && d.eacNext == null
    ensures Distinct(popped) && old(d.abortList) <= popped
    ensures Closing(conn) == old(Closing(conn)) + (set c | c in popped)
    ensures Exited(old(Net(d)), old(View(d)), Net(d), View(d),
                   Branches(old(Net(d)), Without(popped, old(Closing(conn)))))
    ensures Channels(d) <= old(Channels(d)) && Narrower(MaskMap(Channels(d)), old(MaskMap(Channels(d))))
    ensures OwnGone(old(InviteView(d)).ofChannel, InviteView(d).ofChannel, set c | c in popped)
  {
    hide Sane, Exited, Branch, Branches, Rooted, MaskListsOf, Directory, Listed, AllIn, LocalOk, Progress, Distinct,
      Linked, NoneEmpty, Narrower, OwnGone;
    ghost var n, g, cs, a := Net(d), View(d), Channels(d), SideOf(d, conn);
    popped := [];
    SaneParts(d, conn, now);
    forall x | x in a.closing ensures !Listed(n, x) && x != n.me && Rooted(n) { ClosingIsGone(d, conn, now, x); }
    NothingYet(n, g, a);
    ProgressAnyway(n, g, a, n, g, a, [], d.eacNext == Second(d.abortList));
    var ptr := Advance(d, Head(d.abortList), conn, now);
    ProgressAnyway(n, g, a, n, g, a, [], NamesNext(d));
    while ptr != null
      invariant Sane(d, conn, now) && LocalOk(d, conn) && Channels(d) <= cs
      invariant Progress(n, g, a, Net(d), View(d), SideOf(d, conn), popped)
      invariant ptr == Head(d.abortList) && d.eacNext == Second(d.abortList)
      decreases Work(d, conn)
    {
      var client: Client := ptr;
      MaskListsFewer(Channels(d), cs);
      WorkOff(d, client, f, conn, now, n, g, a, popped);
      popped := popped + [client];
      ghost var b := SideOf(d, conn);
      ptr := Advance(d, d.eacNext, conn, now);
      ProgressAnyway(n, g, a, Net(d), View(d), b, popped, NamesNext(d));
    }
    AllDone(n, g, a, Net(d), View(d), SideOf(d, conn), popped);
  }
}
