// A daemon with one user, and what becomes of the user when the KILL line cannot be written.
module KilledUser {
  import opened Lists
  import opened Entities
  import opened Membership
  import opened ServerTree
  import opened ClientExit
  import opened Departures
  import opened Steps
  import B = BanCache

  ghost predicate Alone(d: Ircd, x: Client)
    reads d, d.me, x
  {
    && d.people == {d.me, x} && d.me != x && d.me.servptr == null && d.me.depth == 0 && !d.me.local
    && x.servptr == d.me && x.depth == 1 && !x.server && x.local && x.umodes == {}
    && x.channel == [] && x.invited == [] && d.me.channel == [] && d.me.invited == []
    && d.globalClients == d.localClients == d.me.clientList == [x] && d.me.serverList == []
    && d.globalServers == d.localServers == d.operList == d.deadList == d.abortList == []
    && d.channelList == [] && d.countOper == d.countInvisi == d.lost == 0
    && !x.dead && !x.closing && !x.killed
  }

  lemma OneElement(x: Client)
    ensures Distinct([x]) && (set k | k in [x]) == {x} && Distinct<Client>([])
  {
  }

  lemma AloneRooted(d: Ircd, x: Client)
    requires Alone(d, x)
    ensures Rooted(Net(d))
  {
    OneElement(x);
    var n := Net(d);
    assert n.users.Keys == {d.me} && n.users[d.me] == [x] && n.links[d.me] == [];
  }

  lemma AloneGraph(d: Ircd, x: Client, now: nat)
    requires Alone(d, x)
    ensures GraphOk(d, now)
  {
    assert Channels(d) == {};
  }

  lemma AloneDirectory(d: Ircd, x: Client)
    requires Alone(d, x)
    ensures Directory(Net(d), LocalsIn(d), WithMode(d.people, 'o'), Open({x}))
  {
    OneElement(x);
    assert LocalsOf([x]) == {x} && LocalsOf([]) == {} && Open({x}) == {x};
    assert LocalsOf([x]) * WithMode(d.people, 'o') == {};
  }

  /** What the runs start from can be had. */
  lemma AloneIsRight(d: Ircd, x: Client, mt: B.Matcher, now: nat)
    requires Alone(d, x)
    ensures Sane(d, {x}, now) && LocalOk(d, {x}) && ChannelsOk(d) && B.AllCoherent(d, mt)
  {
    hide Rooted, GraphOk, Directory;
    AloneRooted(d, x);
    AloneGraph(d, x, now);
    AloneDirectory(d, x);
    OneElement(x);
    assert [x][1..] == [];
    assert CountMode([x], 'o') == CountMode([x][1..], 'o') && CountMode([x], 'i') == CountMode([x][1..], 'i');
    assert Nodes(d) == {d.me};
  }

  method Start() returns (d: Ircd, x: Client)
    ensures Alone(d, x) && fresh(d) && fresh(d.people) && x.id != d.me.id
  {
    var me := new Client("0AA", "hub.example", false, true, null);
    x := new Client("0AAAAAAAA", "nick", true, false, me);
    d := new Ircd(me, {me, x});
    me.clientList := [x];
    d.globalClients, d.localClients := [x], [x];
  }

  /** KILL for that user, when the line that tells the user cannot be written: the user is queued and then exits, so
      that the assertion before the exit fails. */
  method Kill() returns (d: Ircd, x: Client, ghost reached: bool, ghost holds: bool)
    ensures Sane(d, {x}, 0) && LocalOk(d, {x}) && x.closing && x in d.abortList
    ensures reached && !holds && fresh(d) && fresh(d.people)
  {
    hide Sane, LocalOk, ChannelsOk, B.AllCoherent;
    d, x := Start();
    AloneIsRight(d, x, B.Matcher((m, u, l) => false, m => false, m => false), 0);
    reached, holds := WriteThenExit(d, x, true, Failures(c => [], c => [], c => [], c => []), {x}, 0);
  }
}
