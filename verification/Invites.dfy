// Invitations: each hangs in its channel's list and in its client's list, newest first.
module Invites {
  import opened Lists
  import opened Entities

  // ---------------------------------------------------------------- the lists as a value

  datatype InviteGraph = InviteGraph(ofChannel: map<Channel, seq<Invite>>, ofClient: map<Client, seq<Invite>>)

  ghost function InviteView(d: Ircd): InviteGraph
    reads d`channelList, Channels(d)`invites, d.people`invited
  {
    InviteGraph(InvitesIn(Channels(d)), InvitedOf(d.people))
  }

  ghost function InvitesIn(cs: set<Channel>): map<Channel, seq<Invite>>
    reads cs`invites
  {
    map c | c in cs :: c.invites
  }

  ghost function InvitedOf(us: set<Client>): map<Client, seq<Invite>>
    reads us`invited
  {
    map u | u in us && u.local :: u.invited
  }

  ghost predicate NewestFirst(list: seq<Invite>, now: nat) {
    (forall i, j :: 0 <= i < j < |list| ==> list[i].when >= list[j].when) &&
    forall i :: i in list ==> i.when <= now
  }

  ghost predicate OnePerClient(list: seq<Invite>) {
    forall i, j :: 0 <= i < j < |list| ==> list[i].client != list[j].client
  }

  ghost predicate ChannelConsistent(g: InviteGraph, c: Channel, now: nat)
    requires c in g.ofChannel
  {
    && Distinct(g.ofChannel[c]) && OnePerClient(g.ofChannel[c]) && NewestFirst(g.ofChannel[c], now)
    && forall i :: i in g.ofChannel[c] ==> i.channel == c && i.client in g.ofClient && i in g.ofClient[i.client]
  }

  ghost predicate ClientConsistent(g: InviteGraph, u: Client, now: nat)
    requires u in g.ofClient
  {
    && Distinct(g.ofClient[u]) && NewestFirst(g.ofClient[u], now)
    && forall i :: i in g.ofClient[u] ==> i.client == u && i.channel in g.ofChannel && i in g.ofChannel[i.channel]
  }

  /** The two families of lists hold the same invites, newest first, one per channel and client. */
  ghost predicate Consistent(g: InviteGraph, now: nat) {
    && (forall c :: c in g.ofChannel ==> ChannelConsistent(g, c, now))
    && (forall u :: u in g.ofClient ==> ClientConsistent(g, u, now))
  }

  function Drop(g: InviteGraph, gone: set<Invite>): InviteGraph {
    InviteGraph(map c | c in g.ofChannel :: Without(g.ofChannel[c], gone),
                map u | u in g.ofClient :: Without(g.ofClient[u], gone))
  }

  function Insert(g: InviteGraph, i: Invite): InviteGraph
    requires i.channel in g.ofChannel && i.client in g.ofClient
  {
    InviteGraph(g.ofChannel[i.channel := [i] + g.ofChannel[i.channel]],
                g.ofClient[i.client := [i] + g.ofClient[i.client]])
  }

  // ---------------------------------------------------------------- what dropping and inserting keep

  lemma WithoutNewestFirst(list: seq<Invite>, gone: set<Invite>, now: nat)
    requires NewestFirst(list, now)
    ensures NewestFirst(Without(list, gone), now)
  {
    WithoutAll(list, gone, (a: Invite, b: Invite) => a.when >= b.when);
  }

  lemma DropConsistent(g: InviteGraph, gone: set<Invite>, now: nat)
    requires Consistent(g, now)
    ensures Consistent(Drop(g, gone), now)
  {
    var h := Drop(g, gone);
    forall c | c in h.ofChannel ensures ChannelConsistent(h, c, now) {
      assert ChannelConsistent(g, c, now);
      WithoutDistinct(g.ofChannel[c], gone);
      WithoutAll(g.ofChannel[c], gone, (a: Invite, b: Invite) => a.client != b.client);
      WithoutNewestFirst(g.ofChannel[c], gone, now);
    }
    forall u | u in h.ofClient ensures ClientConsistent(h, u, now) {
      assert ClientConsistent(g, u, now);
      WithoutDistinct(g.ofClient[u], gone);
      WithoutNewestFirst(g.ofClient[u], gone, now);
    }
  }

  lemma DropTwice(g: InviteGraph, a: set<Invite>, b: set<Invite>)
    ensures Drop(Drop(g, a), b) == Drop(g, a + b)
  {
    forall c | c in g.ofChannel ensures Without(Without(g.ofChannel[c], a), b) == Without(g.ofChannel[c], a + b) {
      WithoutTwice(g.ofChannel[c], a, b);
    }
    forall u | u in g.ofClient ensures Without(Without(g.ofClient[u], a), b) == Without(g.ofClient[u], a + b) {
      WithoutTwice(g.ofClient[u], a, b);
    }
  }

  lemma DropNone(g: InviteGraph)
    ensures Drop(g, {}) == g
  {
    forall c | c in g.ofChannel ensures Without(g.ofChannel[c], {}) == g.ofChannel[c] {
      WithoutNone(g.ofChannel[c], {});
    }
    forall u | u in g.ofClient ensures Without(g.ofClient[u], {}) == g.ofClient[u] {
      WithoutNone(g.ofClient[u], {});
    }
  }

  ghost predicate Pending(g: InviteGraph, c: Channel, u: Client)
    requires c in g.ofChannel
  {
    exists i :: i in g.ofChannel[c] && i.client == u
  }

  lemma InsertConsistent(g: InviteGraph, i: Invite, now: nat)
    requires Consistent(g, now) && i.channel in g.ofChannel && i.client in g.ofClient
    requires i.when == now && !Pending(g, i.channel, i.client)
    ensures Consistent(Insert(g, i), now)
  {
    var h := Insert(g, i);
    forall c | c in h.ofChannel ensures ChannelConsistent(h, c, now) { InsertChannel(g, i, now, c); }
    forall u | u in h.ofClient ensures ClientConsistent(h, u, now) { InsertClient(g, i, now, u); }
  }

  lemma InsertChannel(g: InviteGraph, i: Invite, now: nat, c: Channel)
    requires Consistent(g, now) && i.channel in g.ofChannel && i.client in g.ofClient
    requires i.when == now && !Pending(g, i.channel, i.client) && c in g.ofChannel
    ensures ChannelConsistent(Insert(g, i), c, now)
  {
    assert ChannelConsistent(g, c, now);
    if c == i.channel {
      assert forall k :: k in g.ofChannel[c] ==> k.client != i.client;
    }
  }

  lemma InsertClient(g: InviteGraph, i: Invite, now: nat, u: Client)
    requires Consistent(g, now) && i.channel in g.ofChannel && i.client in g.ofClient
    requires i.when == now && !Pending(g, i.channel, i.client) && u in g.ofClient
    ensures ClientConsistent(Insert(g, i), u, now)
  {
    assert ClientConsistent(g, u, now);
    if u == i.client { assert i !in g.ofClient[u]; }
  }

  // ---------------------------------------------------------------- the operations

  predicate Expired(i: Invite, now: nat, ttl: nat) {
    ttl != 0 && ttl + i.when < now
  }

  ghost predicate Hung(g: InviteGraph, i: Invite) {
    i.channel in g.ofChannel && i.client in g.ofClient && i in g.ofChannel[i.channel] && i in g.ofClient[i.client]
  }

  lemma DropOne(g: InviteGraph, h: InviteGraph, i: Invite, now: nat)
    requires Consistent(g, now) && Hung(g, i)
    requires Distinct(g.ofChannel[i.channel]) && Distinct(g.ofClient[i.client])
    requires h.ofChannel == g.ofChannel[i.channel := Delete(g.ofChannel[i.channel], i)]
    requires h.ofClient == g.ofClient[i.client := Delete(g.ofClient[i.client], i)]
    ensures h == Drop(g, {i})
  {
    hide Consistent, Delete, Without;
    forall c | c in g.ofChannel ensures h.ofChannel[c] == Without(g.ofChannel[c], {i}) {
      DropFromChannel(g, i, now, c);
    }
    forall u | u in g.ofClient ensures h.ofClient[u] == Without(g.ofClient[u], {i}) { DropFromClient(g, i, now, u); }
  }

  lemma DropFromChannel(g: InviteGraph, i: Invite, now: nat, c: Channel)
    requires Consistent(g, now) && Hung(g, i) && c in g.ofChannel
    requires Distinct(g.ofChannel[i.channel])
    ensures Without(g.ofChannel[c], {i}) == if c == i.channel then Delete(g.ofChannel[c], i) else g.ofChannel[c]
  {
    assert ChannelConsistent(g, c, now);
    if c == i.channel { DeleteIsWithout(g.ofChannel[c], i); } else { WithoutNone(g.ofChannel[c], {i}); }
  }

  lemma DropFromClient(g: InviteGraph, i: Invite, now: nat, u: Client)
    requires Consistent(g, now) && Hung(g, i) && u in g.ofClient
    requires Distinct(g.ofClient[i.client])
    ensures Without(g.ofClient[u], {i}) == if u == i.client then Delete(g.ofClient[u], i) else g.ofClient[u]
  {
    assert ClientConsistent(g, u, now);
    if u == i.client { DeleteIsWithout(g.ofClient[u], i); } else { WithoutNone(g.ofClient[u], {i}); }
  }

  /** invite_del. */
  method InviteDel(ghost d: Ircd, invite: Invite, ghost now: nat)
    requires Consistent(InviteView(d), now) && Hung(InviteView(d), invite)
    modifies invite.client`invited, invite.channel`invites
    ensures InviteView(d) == Drop(old(InviteView(d)), {invite})
    ensures Consistent(InviteView(d), now)
  {
    ghost var g := InviteView(d);
    assert ChannelConsistent(g, invite.channel, now) && ClientConsistent(g, invite.client, now);
    invite.client.invited := Delete(invite.client.invited, invite);
    invite.channel.invites := Delete(invite.channel.invites, invite);
    DropOne(g, InviteView(d), invite, now);
    DropConsistent(g, {invite}, now);
  }

  /** Whose list is meant. */
  datatype Owner = ByChannel(channel: Channel) | ByClient(client: Client)

  function ListOf(o: Owner): seq<Invite>
    reads (if o.ByChannel? then {o.channel} else {})`invites, (if o.ByClient? then {o.client} else {})`invited
  {
    if o.ByClient? then o.client.invited else o.channel.invites
  }

  ghost predicate Owned(d: Ircd, o: Owner)
    reads d`channelList
  {
    if o.ByClient? then o.client in d.people && o.client.local else o.channel in d.channelList
  }

  ghost function ListIn(g: InviteGraph, o: Owner): seq<Invite>
    requires if o.ByClient? then o.client in g.ofClient else o.channel in g.ofChannel
  {
    if o.ByClient? then g.ofClient[o.client] else g.ofChannel[o.channel]
  }

  predicate OfPair(i: Invite, channel: Channel, client: Client) {
    i.channel == channel && i.client == client
  }

  predicate Wanted(i: Invite, channel: Channel, client: Client, now: nat, ttl: nat) {
    i.channel == channel && i.client == client && !Expired(i, now, ttl)
  }

  /** An unexpired invite of the pair would have survived in whichever list was walked. */
  lemma WantedIsWalked(g: InviteGraph, gone: set<Invite>, channel: Channel, client: Client, now: nat, ttl: nat,
      i: Invite)
    requires Consistent(Drop(g, gone), now) && channel in g.ofChannel && client in g.ofClient
    requires forall k :: k in gone ==> Expired(k, now, ttl)
    requires i in g.ofChannel[channel] && Wanted(i, channel, client, now, ttl)
    ensures i in Drop(g, gone).ofChannel[channel] && i in Drop(g, gone).ofClient[client]
  {
    var h := Drop(g, gone);
    assert ChannelConsistent(h, channel, now);
  }

  lemma WalkedHung(d: Ircd, o: Owner, now: nat)
    requires Consistent(InviteView(d), now) && Owned(d, o)
    ensures Distinct(ListOf(o))
    ensures forall i :: i in ListOf(o) ==>
      Hung(InviteView(d), i) && (if o.ByClient? then i.client == o.client else i.channel == o.channel)
  {
    if o.ByClient? {
      assert ClientConsistent(InviteView(d), o.client, now);
    } else {
      assert ChannelConsistent(InviteView(d), o.channel, now);
    }
  }

  /** After deleting element k, the elements before it are the same and those after it move up. */
  lemma WalkedShrinks(list: seq<Invite>, k: nat, list': seq<Invite>)
    requires Distinct(list) && k < |list| && list' == Without(list, {list[k]})
    ensures |list'| == |list| - 1 && list'[..k] == list[..k]
  {
    DeleteIsWithout(list, list[k]);
    DeleteAt(list, k);
  }

  lemma ViewWalked(d: Ircd, g: InviteGraph, gone: set<Invite>, o: Owner)
    requires InviteView(d) == Drop(g, gone) && Owned(d, o)
    ensures if o.ByClient? then o.client in g.ofClient else o.channel in g.ofChannel
    ensures ListOf(o) == Without(ListIn(g, o), gone)
  {
    if o.ByClient? {
      assert InviteView(d).ofClient[o.client] == o.client.invited;
    } else {
      assert InviteView(d).ofChannel[o.channel] == o.channel.invites;
    }
  }

  /** Deleting the invite the walk stands on: the walk goes on at the same index. */
  method VacuumAt(ghost d: Ircd, o: Owner, k: nat, ghost now: nat)
    requires Consistent(InviteView(d), now) && Owned(d, o) && k < |ListOf(o)|
    modifies d.people`invited, Channels(d)`invites
    ensures InviteView(d) == Drop(old(InviteView(d)), {old(ListOf(o)[k])}) && Consistent(InviteView(d), now)
    ensures |ListOf(o)| == |old(ListOf(o))| - 1 && ListOf(o)[..k] == old(ListOf(o))[..k]
  {
    hide Consistent, Drop, Without, Distinct;
    ghost var list, g := ListOf(o), InviteView(d);
    WalkedHung(d, o, now);
    InviteDel(d, ListOf(o)[k], now);
    ViewWalked(d, g, {list[k]}, o);
    WalkedShrinks(list, k, ListOf(o));
  }

  /** invite_find: an unexpired invite is found if and only if there is one, whichever list is walked;
      what is deleted on the way has expired. */
  method InviteFind(ghost d: Ircd, channel: Channel, client: Client, now: nat, ttl: nat)
    returns (invite: Invite?, ghost gone: set<Invite>)
    requires Consistent(InviteView(d), now) && channel in d.channelList && client in d.people && client.local
    modifies d.people`invited, Channels(d)`invites
    ensures invite != null <==> exists i :: i in old(channel.invites) && Wanted(i, channel, client, now, ttl)
    ensures invite != null ==> Wanted(invite, channel, client, now, ttl) && Hung(InviteView(d), invite)
    ensures invite == null ==> !Pending(InviteView(d), channel, client)
    ensures forall i :: i in gone ==> Expired(i, now, ttl)
    ensures InviteView(d) == Drop(old(InviteView(d)), gone)
    ensures Consistent(InviteView(d), now)
  {
    hide Consistent, Drop, Without, Distinct;
    ghost var g := InviteView(d);
    gone, invite := {}, null;
    DropNone(g);
    var o := if |client.invited| < |channel.invites| then ByClient(client) else ByChannel(channel);
    var k := 0;
    while k < |ListOf(o)|
      invariant k <= |ListOf(o)|
      invariant forall i :: i in gone ==> Expired(i, now, ttl)
      invariant InviteView(d) == Drop(g, gone) && Consistent(InviteView(d), now)
      invariant forall j :: 0 <= j < k ==> !OfPair(ListOf(o)[j], channel, client)
      decreases |ListOf(o)| - k
    {
      var i := ListOf(o)[k];
      WalkedHung(d, o, now);
      if Expired(i, now, ttl) {
        DropTwice(g, gone, {i});
        VacuumAt(d, o, k, now);
        gone := gone + {i};
      } else if i.channel == channel && i.client == client {
        invite := i;
        ViewWalked(d, g, gone, ByChannel(channel));
        return;
      } else {
        k := k + 1;
      }
    }
    FindFailed(d, g, gone, channel, client, o, now, ttl);
  }

  lemma FindFailed(d: Ircd, g: InviteGraph, gone: set<Invite>, channel: Channel, client: Client, o: Owner, now: nat,
      ttl: nat)
    requires Consistent(InviteView(d), now) && channel in d.channelList && client in d.people && client.local
    requires channel in g.ofChannel && client in g.ofClient && InviteView(d) == Drop(g, gone)
    requires o == ByClient(client) || o == ByChannel(channel)
    requires forall i :: i in gone ==> Expired(i, now, ttl)
    requires forall i :: i in ListOf(o) ==> !OfPair(i, channel, client)
    ensures !Pending(InviteView(d), channel, client)
    ensures forall i :: i in g.ofChannel[channel] ==> !Wanted(i, channel, client, now, ttl)
  {
    NotWalkedNotPending(d, channel, client, o, now);
    ViewWalked(d, g, gone, o);
    if i :| i in g.ofChannel[channel] && Wanted(i, channel, client, now, ttl) {
      WantedIsWalked(g, gone, channel, client, now, ttl, i);
      assert false;
    }
  }

  lemma NotWalkedNotPending(d: Ircd, channel: Channel, client: Client, o: Owner, now: nat)
    requires Consistent(InviteView(d), now) && channel in d.channelList && client in d.people && client.local
    requires o == ByClient(client) || o == ByChannel(channel)
    requires forall i :: i in ListOf(o) ==> !OfPair(i, channel, client)
    ensures !Pending(InviteView(d), channel, client)
  {
    assert ChannelConsistent(InviteView(d), channel, now);
    assert InviteView(d).ofChannel[channel] == channel.invites && InviteView(d).ofClient[client] == client.invited;
    assert forall i :: i in channel.invites && i.client == client ==> i in ListOf(o);
  }

  lemma OnlyOnePending(g: InviteGraph, i: Invite, now: nat)
    requires Consistent(g, now) && Hung(g, i)
    ensures !Pending(Drop(g, {i}), i.channel, i.client)
  {
    assert ChannelConsistent(g, i.channel, now);
  }

  lemma StillNotPending(g: InviteGraph, gone: set<Invite>, c: Channel, u: Client)
    requires c in g.ofChannel && !Pending(g, c, u)
    ensures !Pending(Drop(g, gone), c, u)
  {
  }

  /** How many older invites may stay beside a new one. */
  function Room(n: nat, maxInvites: nat): nat {
    var most := if maxInvites == 0 then 0 else maxInvites - 1;
    if n <= most then n else most
  }

  /** Together with the new one there are as many as before and one more, but no more than allowed, and one in any case.
      */
  lemma RoomFor(maxInvites: nat)
    ensures forall n: nat :: Room(n, maxInvites) <= n
    ensures forall n: nat ::
      Room(n, maxInvites) + 1 == if n < maxInvites then n + 1 else if maxInvites == 0 then 1 else maxInvites
  {
  }

  /** The eviction loop: while the client's list is full, its oldest invite goes. */
  method EvictOldest(ghost d: Ircd, ghost channel: Channel, client: Client, ghost now: nat, maxInvites: nat)
    returns (ghost gone: set<Invite>)
    requires Consistent(InviteView(d), now) && channel in d.channelList && client in d.people && client.local
    requires !Pending(InviteView(d), channel, client)
    modifies d.people`invited, Channels(d)`invites
    ensures InviteView(d) == Drop(old(InviteView(d)), gone) && Consistent(InviteView(d), now)
    ensures !Pending(InviteView(d), channel, client)
    ensures client.invited == old(client.invited)[..Room(|old(client.invited)|, maxInvites)]
    ensures forall i :: i in gone ==> i in old(client.invited)
  {
    hide Consistent, Drop, Without, Distinct;
    ghost var g, keep := InviteView(d), client.invited;
    gone := {};
    DropNone(g);
    while |client.invited| != 0 && |client.invited| >= maxInvites
      invariant InviteView(d) == Drop(g, gone) && Consistent(InviteView(d), now)
      invariant !Pending(InviteView(d), channel, client)
      invariant |client.invited| <= |keep| && client.invited == keep[..|client.invited|]
      invariant |client.invited| < |keep| ==> |client.invited| >= Room(|keep|, maxInvites)
      invariant forall i :: i in gone ==> i in keep
      decreases |client.invited|
    {
      ghost var last := client.invited[|client.invited| - 1];
      StillNotPending(InviteView(d), {last}, channel, client);
      DropTwice(g, gone, {last});
      gone := gone + {last};
      VacuumAt(d, ByClient(client), |client.invited| - 1, now);
    }
  }

  /** Every channel that is left has the invites it had. */
  ghost predicate InvitesStay(w: InviteGraph, w': InviteGraph) {
    SameLists(w.ofChannel, w'.ofChannel)
  }

  ghost predicate SameLists(lists: map<Channel, seq<Invite>>, lists': map<Channel, seq<Invite>>) {
    forall c :: c in lists' ==> c in lists && lists'[c] == lists[c]
  }

  /** Every channel that is left has the invites it had, but for some of these users, and no other. */
  ghost predicate OwnGone(lists: map<Channel, seq<Invite>>, lists': map<Channel, seq<Invite>>, users: set<Client>) {
    forall c :: c in lists' ==>
      && c in lists && (forall i :: i in lists'[c] ==> i in lists[c])
      && (forall i :: i in lists[c] && i.client !in users ==> i in lists'[c])
  }

  lemma OwnGoneTwice(lists: map<Channel, seq<Invite>>, lists1: map<Channel, seq<Invite>>,
                     lists2: map<Channel, seq<Invite>>, users: set<Client>, more: set<Client>)
    requires OwnGone(lists, lists1, users) && OwnGone(lists1, lists2, more)
    ensures OwnGone(lists, lists2, users + more)
  {
  }

  lemma MoreGone(lists: map<Channel, seq<Invite>>, lists': map<Channel, seq<Invite>>, users: set<Client>,
                 more: set<Client>)
    requires OwnGone(lists, lists', users) && users <= more
    ensures OwnGone(lists, lists', more)
  {
  }

  /** The lists without the invites of one user. */
  ghost function Disinvited(lists: map<Channel, seq<Invite>>, u: Client): map<Channel, seq<Invite>> {
    map c | c in lists :: Without(lists[c], set i | i in lists[c] && i.client == u)
  }

  lemma {:induction false} WithoutSame<T>(s: seq<T>, a: set<T>, b: set<T>)
    requires forall y :: y in s ==> (y in a <==> y in b)
    ensures Without(s, a) == Without(s, b)
  {
    if s != [] { WithoutSame(s[1..], a, b); }
  }

  /** Dropping a user's own list is that. */
  lemma DropsOwn(w: InviteGraph, u: Client, now: nat)
    requires Consistent(w, now) && u in w.ofClient
    ensures Drop(w, SetOf(w.ofClient[u])).ofChannel == Disinvited(w.ofChannel, u)
  {
    forall c | c in w.ofChannel
      ensures Without(w.ofChannel[c], SetOf(w.ofClient[u])) ==
        Without(w.ofChannel[c], set i | i in w.ofChannel[c] && i.client == u)
    {
      assert ChannelConsistent(w, c, now) && ClientConsistent(w, u, now);
      WithoutSame(w.ofChannel[c], SetOf(w.ofClient[u]), set i | i in w.ofChannel[c] && i.client == u);
    }
  }

  lemma AllInvitesStay(w: InviteGraph)
    ensures InvitesStay(w, w)
  {
  }

  lemma StayTwice(w: InviteGraph, w1: InviteGraph, w2: InviteGraph)
    requires InvitesStay(w, w1) && InvitesStay(w1, w2)
    ensures InvitesStay(w, w2)
  {
  }

  /** What one channel had is dropped. */
  lemma OthersInvitesStay(w: InviteGraph, c: Channel, now: nat)
    requires Consistent(w, now) && c in w.ofChannel
    ensures var h := Drop(w, SetOf(w.ofChannel[c]));
      InvitesStay(w, h.(ofChannel := h.ofChannel - {c}))
  {
    forall k | k in w.ofChannel && k != c ensures Without(w.ofChannel[k], SetOf(w.ofChannel[c])) == w.ofChannel[k] {
      assert ChannelConsistent(w, k, now) && ChannelConsistent(w, c, now);
      WithoutNone(w.ofChannel[k], SetOf(w.ofChannel[c]));
    }
  }

  lemma FoundInOwnList(d: Ircd, i: Invite)
    requires Hung(InviteView(d), i)
    ensures i in i.client.invited
  {
    assert InviteView(d).ofClient[i.client] == i.client.invited;
  }

  /** The invites of everybody but u that have not expired are all still in both lists. */
  ghost predicate OthersKept(g: InviteGraph, g': InviteGraph, u: Client, now: nat, ttl: nat) {
    forall c, i :: c in g.ofChannel && i in g.ofChannel[c] && i.client != u && (ttl == 0 || now <= i.when + ttl) ==>
      Hung(g', i)
  }

  lemma OthersKeptDrop(g: InviteGraph, gone: set<Invite>, u: Client, now: nat, ttl: nat)
    requires Consistent(g, now) && forall i :: i in gone ==> Expired(i, now, ttl) || i.client == u
    ensures OthersKept(g, Drop(g, gone), u, now, ttl)
  {
    hide Without;
    forall c, i | c in g.ofChannel && i in g.ofChannel[c] && i.client != u && (ttl == 0 || now <= i.when + ttl)
      ensures Hung(Drop(g, gone), i)
    {
      assert ChannelConsistent(g, c, now);
    }
  }

  lemma OthersKeptSelf(g: InviteGraph, u: Client, now: nat, ttl: nat)
    requires Consistent(g, now)
    ensures OthersKept(g, g, u, now, ttl)
  {
    DropNone(g);
    OthersKeptDrop(g, {}, u, now, ttl);
  }

  lemma OthersKeptTwice(g: InviteGraph, g1: InviteGraph, g2: InviteGraph, u: Client, now: nat, ttl: nat)
    requires OthersKept(g, g1, u, now, ttl) && OthersKept(g1, g2, u, now, ttl)
    ensures OthersKept(g, g2, u, now, ttl)
  {
  }

  lemma OthersStay(g: InviteGraph, gone: set<Invite>, invite: Invite, now: nat, ttl: nat)
    requires Consistent(g, now) && invite.channel in g.ofChannel && invite.client in g.ofClient
    requires forall i :: i in gone ==> Expired(i, now, ttl) || i in g.ofClient[invite.client]
    ensures OthersKept(g, Insert(Drop(g, gone), invite), invite.client, now, ttl)
  {
    hide Without;
    assert ClientConsistent(g, invite.client, now);
    forall c, i | c in g.ofChannel && i in g.ofChannel[c] && i.client != invite.client && !Expired(i, now, ttl)
      ensures Hung(Insert(Drop(g, gone), invite), i)
    {
      assert ChannelConsistent(g, c, now);
    }
  }

  /** The first half of invite_add: nothing of the pair stays pending. */
  method InviteForget(ghost d: Ircd, channel: Channel, client: Client, now: nat, ttl: nat)
    returns (ghost stale: set<Invite>)
    requires Consistent(InviteView(d), now) && channel in d.channelList && client in d.people && client.local
    modifies d.people`invited, Channels(d)`invites
    ensures forall i :: i in stale ==> Expired(i, now, ttl) || OfPair(i, channel, client)
    ensures forall i :: i in stale ==> Expired(i, now, ttl) || i in old(client.invited)
    ensures InviteView(d) == Drop(old(InviteView(d)), stale) && Consistent(InviteView(d), now)
    ensures client.invited == Without(old(client.invited), stale)
    ensures !Pending(InviteView(d), channel, client)
  {
    hide Consistent, Drop, Without, Distinct;
    ghost var g := InviteView(d);
    var found;
    found, stale := InviteFind(d, channel, client, now, ttl);
    if found != null {
      ViewWalked(d, g, stale, ByClient(client));
      FoundInOwnList(d, found);
      OnlyOnePending(InviteView(d), found, now);
      InviteDel(d, found, now);
      DropTwice(g, stale, {found});
      stale := stale + {found};
    }
    ViewWalked(d, g, stale, ByClient(client));
  }

  /** invite_add: any invite of the pair is replaced, the oldest make room, and the new one heads both lists. */
  method InviteAdd(ghost d: Ircd, channel: Channel, client: Client, now: nat, ttl: nat, maxInvites: nat)
    returns (invite: Invite, ghost stale: set<Invite>, ghost gone: set<Invite>)
    requires Consistent(InviteView(d), now) && channel in d.channelList && client in d.people && client.local
    modifies d.people`invited, Channels(d)`invites
    ensures fresh(invite) && invite.channel == channel && invite.client == client && invite.when == now
    ensures forall i :: i in stale ==> Expired(i, now, ttl) || OfPair(i, channel, client)
    ensures var keep := Without(old(client.invited), stale);
      client.invited == [invite] + keep[..Room(|keep|, maxInvites)] &&
      |client.invited| == if |keep| < maxInvites then |keep| + 1 else if maxInvites == 0 then 1 else maxInvites
    ensures forall i :: i in gone ==> Expired(i, now, ttl) || i in old(client.invited)
    ensures stale <= gone && InviteView(d) == Insert(Drop(old(InviteView(d)), gone), invite)
    ensures OthersKept(old(InviteView(d)), InviteView(d), client, now, ttl)
    ensures Consistent(InviteView(d), now)
  {
    hide Consistent, Drop, Without, Distinct, Expired, OfPair, Pending, Room, OthersKept, Insert;
    ghost var g := InviteView(d);
    ClientHere(d, client);
    RoomFor(maxInvites);
    stale := InviteForget(d, channel, client, now, ttl);
    ghost var evicted := EvictOldest(d, channel, client, now, maxInvites);
    gone := stale + evicted;
    DropTwice(g, stale, evicted);
    invite := new Invite(channel, client, now);
    InsertConsistent(InviteView(d), invite, now);
    HangUp(d, invite);
    OthersStay(g, gone, invite, now, ttl);
  }

  lemma ClientHere(d: Ircd, client: Client)
    requires client in d.people && client.local
    ensures client in InviteView(d).ofClient && InviteView(d).ofClient[client] == client.invited
  {
  }

  /** Both lists of a new invite get it at the head. */
  method HangUp(ghost d: Ircd, invite: Invite)
    requires invite.channel in d.channelList && invite.client in d.people && invite.client.local
    modifies invite.client`invited, invite.channel`invites
    ensures InviteView(d) == Insert(old(InviteView(d)), invite)
    ensures invite.client.invited == [invite] + old(invite.client.invited)
  {
    invite.channel.invites := [invite] + invite.channel.invites;
    invite.client.invited := [invite] + invite.client.invited;
  }

  ghost function SetOf(list: seq<Invite>): set<Invite> { set i | i in list }

  lemma ClearedAll(list: seq<Invite>, gone: set<Invite>)
    requires Without(list, gone) == [] && forall i :: i in gone ==> i in list
    ensures gone == SetOf(list)
  {
    assert forall i :: i in list && i !in gone ==> i in Without(list, gone);
  }

  /** invite_clear_list: exactly the invites of the list go, from both sides. */
  method InviteClearList(ghost d: Ircd, o: Owner, ghost now: nat)
    requires Consistent(InviteView(d), now) && Owned(d, o)
    modifies d.people`invited, Channels(d)`invites
    ensures InviteView(d) == Drop(old(InviteView(d)), SetOf(old(ListOf(o))))
    ensures Consistent(InviteView(d), now) && ListOf(o) == []
  {
    hide Consistent, Drop, Without, Distinct;
    ghost var g, gone, list := InviteView(d), {}, ListOf(o);
    DropNone(g);
    while |ListOf(o)| != 0
      invariant InviteView(d) == Drop(g, gone) && Consistent(InviteView(d), now)
      invariant forall i :: i in gone ==> i in list
      decreases |ListOf(o)|
    {
      ghost var head := ListOf(o)[0];
      ViewWalked(d, g, gone, o);
      DropTwice(g, gone, {head});
      gone := gone + {head};
      VacuumAt(d, o, 0, now);
    }
    ViewWalked(d, g, gone, o);
    ClearedAll(list, gone);
  }

  /** A channel without invites can be taken away. */
  lemma ForgetChannel(g: InviteGraph, c: Channel, now: nat)
    requires Consistent(g, now) && c in g.ofChannel && g.ofChannel[c] == []
    ensures Consistent(g.(ofChannel := g.ofChannel - {c}), now)
  {
    var h := g.(ofChannel := g.ofChannel - {c});
    forall k | k in h.ofChannel ensures ChannelConsistent(h, k, now) {
      assert ChannelConsistent(g, k, now);
    }
    forall u | u in h.ofClient ensures ClientConsistent(h, u, now) {
      assert ClientConsistent(g, u, now);
    }
  }
}
