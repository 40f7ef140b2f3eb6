// Who is on which channel: every membership hangs in its channel's list, in its client's list and,
// for a directly connected user, in the channel's local list.
module Membership {
  import opened Lists
  import opened Entities
  import opened Invites

  // ---------------------------------------------------------------- the graph as a value

  /** The listed channels, the users, and the three kinds of membership list. */
  datatype Graph = Graph(
    channels: seq<Channel>, people: set<Client>,
    members: map<Channel, seq<ChannelMember>>,
    local: map<Channel, seq<ChannelMember>>,
    on: map<Client, seq<ChannelMember>>)

  /** The members that are directly connected, in list order. */
  function LocalPart(members: seq<ChannelMember>): (r: seq<ChannelMember>)
    ensures forall m :: m in r ==> m in members && m.client.local
    ensures forall m :: m in members && m.client.local ==> m in r
  {
    if members == [] then []
    else if members[0].client.local then [members[0]] + LocalPart(members[1..])
    else LocalPart(members[1..])
  }

  /** No user is on the same channel twice. */
  predicate OncePerClient(members: seq<ChannelMember>) {
    forall i, j :: 0 <= i < j < |members| ==> members[i].client != members[j].client
  }

  ghost predicate WellTyped(g: Graph) {
    && Distinct(g.channels)
    && g.members.Keys == (set c | c in g.channels)
    && g.local.Keys == g.members.Keys && g.on.Keys == g.people
  }

  ghost predicate ChannelLinked(g: Graph, c: Channel)
    requires c in g.members && c in g.local && g.on.Keys == g.people
  {
    && Distinct(g.members[c]) && OncePerClient(g.members[c])
    && g.local[c] == LocalPart(g.members[c])
    && forall m :: m in g.members[c] ==>
      m.channel == c && m.client in g.people && !m.client.server && m in g.on[m.client]
  }

  ghost predicate ClientLinked(g: Graph, u: Client)
    requires u in g.on
  {
    && Distinct(g.on[u])
    && forall m :: m in g.on[u] ==> m.client == u && m.channel in g.members && m in g.members[m.channel]
  }

  /** A membership is in its channel's list exactly when it is in its client's, once in each; no user
      is on a channel twice; the local list is the local part of the full one. */
  ghost predicate Linked(g: Graph) {
    && WellTyped(g)
    && (forall c :: c in g.members ==> ChannelLinked(g, c))
    && (forall u :: u in g.on ==> ClientLinked(g, u))
  }

  /** No channel without members is listed. */
  ghost predicate NoneEmpty(g: Graph) {
    forall c :: c in g.members ==> g.members[c] != []
  }

  /** The plain membership question. */
  ghost predicate IsMember(g: Graph, u: Client, c: Channel)
    requires c in g.members
  {
    exists m :: m in g.members[c] && m.client == u
  }

  // ---------------------------------------------------------------- what joining and leaving mean

  function Make(g: Graph, c: Channel): Graph {
    g.(channels := [c] + g.channels, members := g.members[c := []], local := g.local[c := []])
  }

  function Join(g: Graph, m: ChannelMember): Graph
    requires m.channel in g.members && m.channel in g.local && m.client in g.on
  {
    var c, u := m.channel, m.client;
    g.(members := g.members[c := [m] + g.members[c]],
       local := if u.local then g.local[c := [m] + g.local[c]] else g.local,
       on := g.on[u := [m] + g.on[u]])
  }

  predicate Leavable(g: Graph, m: ChannelMember) {
    && m.channel in g.members && m.channel in g.local && m.client in g.on
    && Distinct(g.members[m.channel]) && Distinct(g.local[m.channel])
    && Distinct(g.on[m.client]) && Distinct(g.channels)
  }

  /** Unlink a membership; a channel whose last member leaves is gone. */
  function Leave(g: Graph, m: ChannelMember): Graph
    requires Leavable(g, m)
  {
    var c, u := m.channel, m.client;
    var rest := Delete(g.members[c], m);
    var h := g.(on := g.on[u := Delete(g.on[u], m)]);
    if rest == [] then
      h.(channels := Delete(g.channels, c), members := g.members - {c}, local := g.local - {c})
    else
      h.(members := g.members[c := rest],
         local := if u.local then g.local[c := Delete(g.local[c], m)] else g.local)
  }

  // ---------------------------------------------------------------- and what they keep

  lemma MakeLinked(g: Graph, c: Channel)
    requires Linked(g) && c !in g.members
    ensures Linked(Make(g, c))
  {
    var h := Make(g, c);
    forall k | k in h.members ensures ChannelLinked(h, k) {
      if k != c { assert ChannelLinked(g, k); }
    }
    forall u | u in h.on ensures ClientLinked(h, u) {
      assert ClientLinked(g, u);
    }
  }

  lemma LocalPartHead(m: ChannelMember, members: seq<ChannelMember>)
    ensures LocalPart([m] + members) == if m.client.local then [m] + LocalPart(members) else LocalPart(members)
  {
    assert ([m] + members)[1..] == members;
  }

  lemma JoinChannelLinked(g: Graph, m: ChannelMember, c: Channel)
    requires Linked(g) && m.channel in g.members && m.client in g.people && !m.client.server
    requires !IsMember(g, m.client, m.channel) && c in g.members
    ensures ChannelLinked(Join(g, m), c)
  {
    assert ChannelLinked(g, c);
    if c == m.channel { JoinOwnChannelLinked(g, m); }
  }

  lemma JoinOwnChannelLinked(g: Graph, m: ChannelMember)
    requires Linked(g) && m.channel in g.members && m.client in g.people && !m.client.server
    requires !IsMember(g, m.client, m.channel)
    ensures ChannelLinked(Join(g, m), m.channel)
  {
    assert ChannelLinked(g, m.channel);
    LocalPartHead(m, g.members[m.channel]);
    assert forall k :: k in g.members[m.channel] ==> k.client != m.client;
  }

  lemma JoinClientLinked(g: Graph, m: ChannelMember, u: Client)
    requires Linked(g) && m.channel in g.members && m.client in g.people && !m.client.server
    requires !IsMember(g, m.client, m.channel) && u in g.on
    ensures ClientLinked(Join(g, m), u)
  {
    assert ClientLinked(g, u);
    if u == m.client { assert m !in g.on[u]; }
  }

  lemma JoinLinked(g: Graph, m: ChannelMember)
    requires Linked(g) && m.channel in g.members && m.client in g.people && !m.client.server
    requires !IsMember(g, m.client, m.channel)
    ensures Linked(Join(g, m))
  {
    var h := Join(g, m);
    forall c | c in h.members ensures ChannelLinked(h, c) { JoinChannelLinked(g, m, c); }
    forall u | u in h.on ensures ClientLinked(h, u) { JoinClientLinked(g, m, u); }
  }

  lemma {:induction false} LocalPartDistinct(members: seq<ChannelMember>)
    requires Distinct(members)
    ensures Distinct(LocalPart(members))
  {
    if members != [] {
      LocalPartDistinct(members[1..]);
      assert members[0] !in members[1..];
    }
  }

  lemma {:induction false} LocalPartDelete(members: seq<ChannelMember>, m: ChannelMember)
    requires Distinct(members) && Distinct(LocalPart(members))
    ensures LocalPart(Delete(members, m)) ==
      if m.client.local then Delete(LocalPart(members), m) else LocalPart(members)
  {
    if members != [] && members[0] != m {
      var head, rest := members[0], members[1..];
      LocalPartDistinct(rest);
      LocalPartDelete(rest, m);
      LocalPartHead(head, Delete(rest, m));
      assert head.client.local ==> LocalPart(members)[1..] == LocalPart(rest);
    }
  }

  lemma LeaveDefined(g: Graph, m: ChannelMember)
    requires Linked(g) && m.client in g.on && m in g.on[m.client]
    ensures Leavable(g, m) && m in g.members[m.channel]
  {
    assert ClientLinked(g, m.client);
    assert ChannelLinked(g, m.channel);
    LocalPartDistinct(g.members[m.channel]);
  }

  lemma LeaveChannelLinked(g: Graph, m: ChannelMember, c: Channel)
    requires Linked(g) && m.client in g.on && m in g.on[m.client] && c in g.members
    requires Leavable(g, m)
    requires c in Leave(g, m).members
    ensures ChannelLinked(Leave(g, m), c)
  {
    assert ChannelLinked(g, c);
    if c == m.channel {
      LeaveOwnChannelLinked(g, m);
    }
  }

  lemma LeaveOwnChannelLinked(g: Graph, m: ChannelMember)
    requires Linked(g) && m.client in g.on && m in g.on[m.client] && Leavable(g, m)
    requires m.channel in Leave(g, m).members
    ensures ChannelLinked(Leave(g, m), m.channel)
  {
    var c := m.channel;
    assert ChannelLinked(g, c);
    DeleteOnce(g.members[c], m);
    LocalPartDistinct(g.members[c]);
    LocalPartDelete(g.members[c], m);
    var h := Leave(g, m);
    assert h.members[c] == Delete(g.members[c], m);
    assert h.local[c] == LocalPart(h.members[c]);
    forall k | k in h.members[c] ensures k in h.on[k.client] {
      assert k in g.members[c] && k != m;
    }
  }

  lemma LeaveClientLinked(g: Graph, m: ChannelMember, u: Client)
    requires Linked(g) && m.client in g.on && m in g.on[m.client] && u in g.on
    requires Leavable(g, m)
    ensures ClientLinked(Leave(g, m), u)
  {
    assert ClientLinked(g, u);
  }

  lemma LeaveWellTyped(g: Graph, m: ChannelMember)
    requires WellTyped(g) && Leavable(g, m)
    ensures WellTyped(Leave(g, m))
    ensures NoneEmpty(g) ==> NoneEmpty(Leave(g, m))
  {
    hide Distinct;
    var h := Leave(g, m);
    var rest := Delete(g.members[m.channel], m);
    if rest == [] {
      assert (set c | c in h.channels) == (set c | c in g.channels) - {m.channel};
    }
    hide Delete;
    if NoneEmpty(g) { LeaveNoneEmpty(g, m); }
  }

  lemma LeaveNoneEmpty(g: Graph, m: ChannelMember)
    requires Leavable(g, m) && NoneEmpty(g)
    ensures NoneEmpty(Leave(g, m))
  {
    hide Delete, Distinct;
  }

  lemma LeaveLinked(g: Graph, m: ChannelMember)
    requires Linked(g) && m.client in g.on && m in g.on[m.client]
    requires Leavable(g, m)
    ensures Linked(Leave(g, m))
    ensures NoneEmpty(g) ==> NoneEmpty(Leave(g, m))
  {
    hide ChannelLinked, ClientLinked, Delete, Distinct;
    var h := Leave(g, m);
    LeaveWellTyped(g, m);
    forall c | c in h.members ensures ChannelLinked(h, c) { LeaveChannelLinked(g, m, c); }
    forall u | u in h.on ensures ClientLinked(h, u) { LeaveClientLinked(g, m, u); }
  }

  lemma DeleteOnce(members: seq<ChannelMember>, m: ChannelMember)
    requires Distinct(members) && OncePerClient(members)
    ensures OncePerClient(Delete(members, m))
  {
    DeleteIsWithout(members, m);
    WithoutAll(members, {m}, (a: ChannelMember, b: ChannelMember) => a.client != b.client);
  }

  // ---------------------------------------------------------------- many memberships at once

  /** The channels that still have members without `gone`. */
  ghost function Kept(members: map<Channel, seq<ChannelMember>>, gone: set<ChannelMember>): set<Channel> {
    set c | c in members && Without(members[c], gone) != []
  }

  ghost function StripLists<K>(lists: map<K, seq<ChannelMember>>, keep: set<K>, gone: set<ChannelMember>)
    : map<K, seq<ChannelMember>>
  {
    map k | k in keep && k in lists :: Without(lists[k], gone)
  }

  /** The graph without the memberships in `gone`, and without the channels that empties. */
  ghost function Strip(g: Graph, gone: set<ChannelMember>): Graph {
    var keep := Kept(g.members, gone);
    Graph(Without(g.channels, g.members.Keys - keep), g.people,
          StripLists(g.members, keep, gone), StripLists(g.local, keep, gone), StripLists(g.on, g.on.Keys, gone))
  }

  lemma StripListsTwice<K>(lists: map<K, seq<ChannelMember>>, k1: set<K>, k2: set<K>,
                           a: set<ChannelMember>, b: set<ChannelMember>)
    requires k2 <= k1
    ensures StripLists(StripLists(lists, k1, a), k2, b) == StripLists(lists, k2, a + b)
  {
    hide Without;
    forall k | k in k2 && k in lists ensures Without(Without(lists[k], a), b) == Without(lists[k], a + b) {
      WithoutTwice(lists[k], a, b);
    }
  }

  lemma KeptTwice(members: map<Channel, seq<ChannelMember>>, a: set<ChannelMember>, b: set<ChannelMember>)
    ensures Kept(StripLists(members, Kept(members, a), a), b) == Kept(members, a + b) <= Kept(members, a)
  {
    hide Without;
    forall c | c in members
      ensures Without(Without(members[c], a), b) == Without(members[c], a + b)
      ensures Without(members[c], a) == [] ==> Without(members[c], a + b) == []
    {
      WithoutTwice(members[c], a, b);
      WithoutNothing<ChannelMember>(b);
    }
  }

  lemma WithoutNothing<T>(gone: set<T>)
    ensures Without([], gone) == []
  {
  }

  lemma StripTwice(g: Graph, a: set<ChannelMember>, b: set<ChannelMember>)
    ensures Strip(Strip(g, a), b) == Strip(g, a + b)
  {
    hide Kept, StripLists, Without;
    var h := Strip(g, a);
    var k1, k2 := Kept(g.members, a), Kept(g.members, a + b);
    KeptTwice(g.members, a, b);
    KeptKeys(g.members, a);
    WithoutTwice(g.channels, g.members.Keys - k1, h.members.Keys - k2);
    assert (g.members.Keys - k1) + (k1 - k2) == g.members.Keys - k2;
    StripListsTwice(g.members, k1, k2, a, b);
    StripListsTwice(g.local, k1, k2, a, b);
    StripListsKeys(g.on, a);
    StripListsTwice(g.on, g.on.Keys, g.on.Keys, a, b);
  }

  lemma KeptKeys(members: map<Channel, seq<ChannelMember>>, a: set<ChannelMember>)
    ensures Kept(members, a) <= members.Keys && StripLists(members, Kept(members, a), a).Keys == Kept(members, a)
  {
  }

  lemma StripListsKeys<K>(lists: map<K, seq<ChannelMember>>, a: set<ChannelMember>)
    ensures StripLists(lists, lists.Keys, a).Keys == lists.Keys
  {
  }

  lemma StripListsSame<K>(lists: map<K, seq<ChannelMember>>, gone: set<ChannelMember>)
    requires forall k :: k in lists ==> Without(lists[k], gone) == lists[k]
    ensures StripLists(lists, lists.Keys, gone) == lists
  {
  }

  lemma StripNone(g: Graph)
    requires Linked(g) && NoneEmpty(g)
    ensures Strip(g, {}) == g
  {
    hide StripLists, ChannelLinked, ClientLinked;
    forall c | c in g.members ensures Without(g.members[c], {}) == g.members[c] { WithoutNone(g.members[c], {}); }
    forall c | c in g.local ensures Without(g.local[c], {}) == g.local[c] { WithoutNone(g.local[c], {}); }
    forall u | u in g.on ensures Without(g.on[u], {}) == g.on[u] { WithoutNone(g.on[u], {}); }
    assert Kept(g.members, {}) == g.members.Keys;
    assert g.members.Keys - Kept(g.members, {}) == {};
    WithoutNone(g.channels, {});
    StripListsSame(g.members, {});
    StripListsSame(g.local, {});
    StripListsSame(g.on, {});
  }

  lemma OthersUntouched(g: Graph, m: ChannelMember, c: Channel)
    requires Linked(g) && c in g.members && c != m.channel
    ensures Without(g.members[c], {m}) == g.members[c] && Without(g.local[c], {m}) == g.local[c]
  {
    assert ChannelLinked(g, c);
    WithoutNone(g.members[c], {m});
    WithoutNone(g.local[c], {m});
  }

  /** Leaving is losing the one membership. */
  lemma LeaveIsStrip(g: Graph, m: ChannelMember)
    requires Linked(g) && NoneEmpty(g) && m.client in g.on && m in g.on[m.client] && Leavable(g, m)
    ensures Leave(g, m) == Strip(g, {m})
  {
    hide Without, Delete, Distinct, ChannelLinked, ClientLinked;
    LeaveChannels(g, m);
    LeaveMembers(g, m);
    LeaveOn(g, m);
  }

  /** Only the lists of k change. */
  lemma StripOneList<K>(lists: map<K, seq<ChannelMember>>, k: K, gone: set<ChannelMember>)
    requires k in lists
    requires forall j :: j in lists && j != k ==> Without(lists[j], gone) == lists[j]
    ensures StripLists(lists, lists.Keys, gone) == lists[k := Without(lists[k], gone)]
    ensures StripLists(lists, lists.Keys - {k}, gone) == lists - {k}
  {
  }

  lemma KeptOthers(g: Graph, m: ChannelMember)
    requires Linked(g) && NoneEmpty(g) && m.channel in g.members
    ensures Kept(g.members, {m}) ==
      if Without(g.members[m.channel], {m}) == [] then g.members.Keys - {m.channel} else g.members.Keys
  {
    hide Without, ChannelLinked, ClientLinked;
    forall c | c in g.members && c != m.channel ensures Without(g.members[c], {m}) != [] {
      OthersUntouched(g, m, c);
    }
  }

  lemma LeaveMembers(g: Graph, m: ChannelMember)
    requires Linked(g) && NoneEmpty(g) && m.client in g.on && m in g.on[m.client] && Leavable(g, m)
    ensures var keep := Kept(g.members, {m});
      Leave(g, m).members == StripLists(g.members, keep, {m}) && Leave(g, m).local == StripLists(g.local, keep, {m})
  {
    hide Without, Delete, Distinct, ChannelLinked, ClientLinked, StripLists, Kept;
    forall c | c in g.members && c != m.channel
      ensures Without(g.members[c], {m}) == g.members[c] && Without(g.local[c], {m}) == g.local[c]
    {
      OthersUntouched(g, m, c);
    }
    OwnIsStripped(g, m);
    KeptOthers(g, m);
    StripOneList(g.members, m.channel, {m});
    StripOneList(g.local, m.channel, {m});
  }

  lemma LeaveOn(g: Graph, m: ChannelMember)
    requires Linked(g) && m.client in g.on && m in g.on[m.client] && Leavable(g, m)
    ensures Leave(g, m).on == StripLists(g.on, g.on.Keys, {m})
  {
    hide Without, Delete, Distinct, ChannelLinked, ClientLinked, StripLists, Kept;
    forall u | u in g.on && u != m.client ensures Without(g.on[u], {m}) == g.on[u] {
      NotOn(g, m, u);
    }
    DeleteIsWithout(g.on[m.client], m);
    StripOneList(g.on, m.client, {m});
  }

  lemma NotOn(g: Graph, m: ChannelMember, u: Client)
    requires Linked(g) && u in g.on && u != m.client
    ensures Without(g.on[u], {m}) == g.on[u]
  {
    assert ClientLinked(g, u);
    WithoutNone(g.on[u], {m});
  }

  lemma OwnIsStripped(g: Graph, m: ChannelMember)
    requires Linked(g) && m.client in g.on && m in g.on[m.client] && Leavable(g, m)
    ensures Without(g.members[m.channel], {m}) == Delete(g.members[m.channel], m)
    ensures Without(g.local[m.channel], {m}) ==
      if m.client.local then Delete(g.local[m.channel], m) else g.local[m.channel]
  {
    assert ChannelLinked(g, m.channel);
    DeleteIsWithout(g.members[m.channel], m);
    if m.client.local {
      DeleteIsWithout(g.local[m.channel], m);
    } else {
      WithoutNone(g.local[m.channel], {m});
    }
  }

  lemma LeaveChannels(g: Graph, m: ChannelMember)
    requires Linked(g) && NoneEmpty(g) && m.client in g.on && m in g.on[m.client] && Leavable(g, m)
    ensures Leave(g, m).channels == Without(g.channels, g.members.Keys - Kept(g.members, {m}))
  {
    hide ChannelLinked, ClientLinked, Without, Kept, StripLists;
    OwnIsStripped(g, m);
    KeptOthers(g, m);
    if Delete(g.members[m.channel], m) == [] {
      assert g.members.Keys - Kept(g.members, {m}) == {m.channel};
      DeleteIsWithout(g.channels, m.channel);
    } else {
      assert g.members.Keys - Kept(g.members, {m}) == {};
      WithoutNone(g.channels, {});
    }
  }

  // ---------------------------------------------------------------- the lists in the daemon

  ghost function View(d: Ircd): Graph
    reads d`channelList, d.people`channel, Channels(d)`members, Channels(d)`membersLocal
  {
    Graph(d.channelList, d.people, MembersIn(Channels(d)), LocalIn(Channels(d)), ChannelsOf(d.people))
  }

  ghost function MembersIn(cs: set<Channel>): map<Channel, seq<ChannelMember>>
    reads cs`members
  {
    map c | c in cs :: c.members
  }

  ghost function LocalIn(cs: set<Channel>): map<Channel, seq<ChannelMember>>
    reads cs`membersLocal
  {
    map c | c in cs :: c.membersLocal
  }

  ghost function ChannelsOf(us: set<Client>): map<Client, seq<ChannelMember>>
    reads us`channel
  {
    map u | u in us :: u.channel
  }

  // ---------------------------------------------------------------- the masks of the channels

  /** The two channels have no mask list in common. */
  predicate NoneShared(a: Channel, b: Channel) {
    && a.banlist !in {b.banlist, b.exceptlist, b.invexlist}
    && a.exceptlist !in {b.banlist, b.exceptlist, b.invexlist}
    && a.invexlist !in {b.banlist, b.exceptlist, b.invexlist}
  }

  /** Every channel has its own three lists. */
  ghost predicate OwnLists(cs: set<Channel>) {
    && (forall c :: c in cs ==> c.SeparateLists())
    && forall a, b :: a in cs && b in cs && a != b ==> NoneShared(a, b)
  }

  lemma ListsApart(cs: set<Channel>, a: Channel, b: Channel)
    requires OwnLists(cs) && a in cs && b in cs && a != b
    ensures NoneShared(a, b)
  {
  }

  lemma FewerOwnLists(some: set<Channel>, all: set<Channel>)
    requires some <= all && OwnLists(all)
    ensures OwnLists(some)
  {
  }

  type Masks = (seq<string>, seq<string>, seq<string>)

  function MasksOf(c: Channel): Masks
    reads c.banlist`masks, c.exceptlist`masks, c.invexlist`masks
  {
    (c.banlist.masks, c.exceptlist.masks, c.invexlist.masks)
  }

  ghost function MaskListsOf(cs: set<Channel>): set<MaskList> {
    (set c | c in cs :: c.banlist) + (set c | c in cs :: c.exceptlist) + (set c | c in cs :: c.invexlist)
  }

  ghost function MaskMap(cs: set<Channel>): map<Channel, Masks>
    reads MaskListsOf(cs)`masks
  {
    map c | c in cs :: MasksOf(c)
  }

  /** Channels may have gone; those that stay have the masks they had. */
  ghost predicate Narrower(now: map<Channel, Masks>, before: map<Channel, Masks>) {
    forall c :: c in now ==> c in before && now[c] == before[c]
  }

  /** What joining, leaving and exiting rely on and keep. */
  ghost predicate GraphOk(d: Ircd, now: nat)
    reads d`channelList, d.people`channel, Channels(d)`members, Channels(d)`membersLocal
    reads Channels(d)`invites, d.people`invited
  {
    Linked(View(d)) && NoneEmpty(View(d)) && Consistent(InviteView(d), now) && OwnLists(Channels(d))
  }

  /** find_channel_link: whichever list is scanned, the answer is the plain membership. */
  method FindChannelLink(ghost d: Ircd, client: Client, channel: Channel) returns (r: ChannelMember?)
    requires Linked(View(d)) && client in d.people && channel in d.channelList
    ensures r == null <==> !IsMember(View(d), client, channel)
    ensures r != null ==> r in channel.members && r in client.channel && r.client == client && r.channel == channel
  {
    assert ChannelLinked(View(d), channel) && ClientLinked(View(d), client);
    r := null;
    if client.server {
      return;
    }
    if |channel.members| < |client.channel| {
      for i := 0 to |channel.members|
        invariant forall j :: 0 <= j < i ==> channel.members[j].client != client
      {
        if channel.members[i].client == client {
          return channel.members[i];
        }
      }
    } else {
      for i := 0 to |client.channel|
        invariant forall j :: 0 <= j < i ==> client.channel[j].channel != channel
      {
        if client.channel[i].channel == channel {
          return client.channel[i];
        }
      }
    }
  }

  /** channel_make: a new channel heads the list of channels. */
  method ChannelMake(d: Ircd, name: string) returns (channel: Channel)
    requires Linked(View(d))
    modifies d`channelList
    ensures fresh(channel) && channel.name == name && channel.invites == [] && channel.SeparateLists()
    ensures fresh(channel.mode) && fresh(channel.banlist) && fresh(channel.exceptlist) && fresh(channel.invexlist)
    ensures channel.banlist.masks == [] && channel.exceptlist.masks == [] && channel.invexlist.masks == []
    ensures channel.mode.modes == {} && channel.mode.key == "" && channel.mode.limit == 0
    ensures d.channelList == [channel] + old(d.channelList)
    ensures View(d) == Make(old(View(d)), channel) && Linked(View(d))
  {
    hide Linked;
    channel := new Channel(name);
    hide Make;
    ListChannel(d, channel);
  }

  method ListChannel(d: Ircd, channel: Channel)
    requires Linked(View(d)) && channel !in d.channelList && channel.members == [] && channel.membersLocal == []
    modifies d`channelList
    ensures d.channelList == [channel] + old(d.channelList)
    ensures View(d) == Make(old(View(d)), channel) && Linked(View(d))
  {
    hide Linked;
    ghost var g, cs := View(d), Channels(d);
    d.channelList := [channel] + d.channelList;
    assert ChannelsOf(d.people) == g.on;
    assert Channels(d) == cs + {channel};
    assert MembersIn(cs + {channel}) == MembersIn(cs)[channel := []];
    assert LocalIn(cs + {channel}) == LocalIn(cs)[channel := []];
    hide MembersIn, LocalIn, ChannelsOf;
    assert View(d) == Make(g, channel);
    MakeLinked(g, channel);
  }

  /** The three list insertions of a new membership. */
  method Link(ghost d: Ircd, member: ChannelMember)
    requires member.channel in d.channelList && member.client in d.people
    modifies member.channel`members, member.channel`membersLocal, member.client`channel
    ensures View(d) == Join(old(View(d)), member)
  {
    ghost var cs := Channels(d);
    ghost var members, local, on := MembersIn(cs), LocalIn(cs), ChannelsOf(d.people);
    var client, channel := member.client, member.channel;
    channel.members := [member] + channel.members;
    assert MembersIn(cs) == members[channel := [member] + members[channel]];
    if client.local {
      channel.membersLocal := [member] + channel.membersLocal;
      assert LocalIn(cs) == local[channel := [member] + local[channel]];
    }
    client.channel := [member] + client.channel;
    assert ChannelsOf(d.people) == on[client := [member] + on[client]];
  }

  /** add_user_to_channel: the new membership heads every list it belongs to. */
  method AddUserToChannel(ghost d: Ircd, channel: Channel, client: Client, status: set<char>)
    returns (member: ChannelMember)
    requires Linked(View(d)) && channel in d.channelList && client in d.people && !client.server
    requires !IsMember(View(d), client, channel)
    modifies channel`members, channel`membersLocal, client`channel
    ensures fresh(member) && member.client == client && member.channel == channel && member.status == status
    ensures member.Unasked() && View(d) == Join(old(View(d)), member) && Linked(View(d))
  {
    hide Linked, IsMember, Join;
    ghost var g := View(d);
    member := new ChannelMember(client, channel, status);
    JoinLinked(g, member);
    Link(d, member);
  }

  method FreeMaskList(list: MaskList)
    modifies list`masks
    ensures list.masks == []
  {
    while |list.masks| != 0 {
      list.masks := list.masks[1..];
    }
  }

  method FreeMaskLists(channel: Channel)
    modifies channel.banlist`masks, channel.exceptlist`masks, channel.invexlist`masks
    ensures channel.banlist.masks == [] && channel.exceptlist.masks == [] && channel.invexlist.masks == []
  {
    FreeMaskList(channel.banlist);
    FreeMaskList(channel.exceptlist);
    FreeMaskList(channel.invexlist);
  }

  /** channel_free, called when the last member has left: its invites and masks go with it, and
      nothing is left in any of its lists. */
  method ChannelFree(d: Ircd, channel: Channel, ghost now: nat)
    requires Consistent(InviteView(d), now) && channel in d.channelList && Distinct(d.channelList)
    requires channel.members == [] && channel.membersLocal == []
    modifies d`channelList, d.people`invited, Channels(d)`invites
    modifies channel.banlist`masks, channel.exceptlist`masks, channel.invexlist`masks
    ensures channel.invites == [] && channel.members == [] && channel.membersLocal == []
    ensures channel.banlist.masks == [] && channel.exceptlist.masks == [] && channel.invexlist.masks == []
    ensures d.channelList == Delete(old(d.channelList), channel)
    ensures Consistent(InviteView(d), now) && InvitesStay(old(InviteView(d)), InviteView(d))
  {
    hide Consistent, Delete, Distinct, SetOf, Drop, InvitesStay;
    ghost var w := InviteView(d);
    InviteClearList(d, ByChannel(channel), now);
    OthersInvitesStay(w, channel, now);
    FreeMaskLists(channel);
    UnlistChannel(d, channel, now);
  }

  method UnlistChannel(d: Ircd, channel: Channel, ghost now: nat)
    requires Consistent(InviteView(d), now) && channel in d.channelList && Distinct(d.channelList)
    requires channel.invites == []
    modifies d`channelList
    ensures d.channelList == Delete(old(d.channelList), channel)
    ensures InviteView(d) == old(InviteView(d)).(ofChannel := old(InviteView(d)).ofChannel - {channel})
    ensures Consistent(InviteView(d), now)
  {
    hide Consistent;
    ForgetChannel(InviteView(d), channel, now);
    ghost var g := InviteView(d);
    d.channelList := Delete(d.channelList, channel);
    assert InviteView(d) == g.(ofChannel := g.ofChannel - {channel});
  }

  /** The list deletions of a membership that leaves; the channel stays listed. */
  method Unlink(ghost d: Ircd, member: ChannelMember)
    requires member.channel in d.channelList && member.client in d.people
    requires Distinct(member.channel.members) && Distinct(member.channel.membersLocal)
    requires Distinct(member.client.channel)
    modifies member.channel`members, member.channel`membersLocal, member.client`channel
    ensures MembersIn(Channels(d)) ==
      old(MembersIn(Channels(d)))[member.channel := Delete(old(member.channel.members), member)]
    ensures LocalIn(Channels(d)) == if member.client.local
      then old(LocalIn(Channels(d)))[member.channel := Delete(old(member.channel.membersLocal), member)]
      else old(LocalIn(Channels(d)))
    ensures ChannelsOf(d.people) ==
      old(ChannelsOf(d.people))[member.client := Delete(old(member.client.channel), member)]
  {
    hide Delete, Distinct;
    member.channel.members := Delete(member.channel.members, member);
    if member.client.local {
      member.channel.membersLocal := Delete(member.channel.membersLocal, member);
    }
    member.client.channel := Delete(member.client.channel, member);
  }

  ghost function Unlinked(g: Graph, m: ChannelMember): Graph
    requires Leavable(g, m)
  {
    var c, u := m.channel, m.client;
    g.(members := g.members[c := Delete(g.members[c], m)],
       local := if u.local then g.local[c := Delete(g.local[c], m)] else g.local,
       on := g.on[u := Delete(g.on[u], m)])
  }

  /** Unlinking and, if that emptied the channel, unlisting it, is leaving. */
  lemma UnlinkedThenUnlisted(g: Graph, m: ChannelMember)
    requires Linked(g) && m.client in g.on && m in g.on[m.client] && Leavable(g, m)
    ensures var h, c := Unlinked(g, m), m.channel;
      if h.members[c] == [] then
        h.local[c] == [] &&
        Leave(g, m) == h.(channels := Delete(g.channels, c), members := h.members - {c}, local := h.local - {c})
      else Leave(g, m) == h
  {
    hide Linked, Delete, Distinct;
    var c := m.channel;
    if Delete(g.members[c], m) == [] { NoLocalsLeft(g, m); }
    var h := Unlinked(g, m);
    assert h.members - {c} == g.members - {c} && h.local - {c} == g.local - {c};
  }

  lemma ViewAt(d: Ircd, m: ChannelMember)
    requires m.channel in View(d).members && m.client in d.people
    ensures m.channel in d.channelList
    ensures View(d).members[m.channel] == m.channel.members
    ensures View(d).local[m.channel] == m.channel.membersLocal
    ensures View(d).on[m.client] == m.client.channel
  {
  }

  /** The end of remove_user_from_channel. */
  method FreeIfEmpty(d: Ircd, channel: Channel, ghost now: nat)
    requires Consistent(InviteView(d), now) && channel in d.channelList && Distinct(d.channelList)
    requires channel.members == [] ==> channel.membersLocal == []
    modifies d`channelList, d.people`invited, Channels(d)`invites
    modifies channel.banlist`masks, channel.exceptlist`masks, channel.invexlist`masks
    ensures channel.members != [] ==> View(d) == old(View(d)) && MasksOf(channel) == old(MasksOf(channel))
    ensures channel.members == [] ==> View(d) == old(View(d)).(channels := Delete(old(d.channelList), channel),
      members := old(View(d)).members - {channel}, local := old(View(d)).local - {channel})
    ensures Consistent(InviteView(d), now) && InvitesStay(old(InviteView(d)), InviteView(d))
  {
    hide Consistent, Delete, Distinct, InvitesStay;
    AllInvitesStay(InviteView(d));
    if |channel.members| == 0 {
      ghost var cs := Channels(d);
      ChannelFree(d, channel, now);
      FewerChannels(cs, channel);
      assert Channels(d) == cs - {channel};
    }
  }

  lemma LeaveFacts(g: Graph, m: ChannelMember)
    requires Linked(g) && m.client in g.on && m in g.on[m.client]
    ensures Leavable(g, m) && m in g.members[m.channel] && Linked(Leave(g, m))
    ensures NoneEmpty(g) ==> NoneEmpty(Leave(g, m)) && Leave(g, m) == Strip(g, {m})
    ensures var h, c := Unlinked(g, m), m.channel;
      if h.members[c] == [] then
        h.local[c] == [] &&
        Leave(g, m) == h.(channels := Delete(g.channels, c), members := h.members - {c}, local := h.local - {c})
      else Leave(g, m) == h
  {
    hide Linked, Leave, Delete, NoneEmpty, Distinct, Strip;
    LeaveDefined(g, m);
    LeaveLinked(g, m);
    UnlinkedThenUnlisted(g, m);
    if NoneEmpty(g) { LeaveIsStrip(g, m); }
  }

  /** remove_user_from_channel. */
  method RemoveUserFromChannel(d: Ircd, member: ChannelMember, ghost now: nat)
    requires Linked(View(d)) && Consistent(InviteView(d), now)
    requires member.client in d.people && member in member.client.channel
    modifies d`channelList, d.people`channel, d.people`invited
    modifies Channels(d)`members, Channels(d)`membersLocal, Channels(d)`invites
    modifies member.channel.banlist`masks, member.channel.exceptlist`masks, member.channel.invexlist`masks
    ensures Leavable(old(View(d)), member)
    ensures View(d) == Leave(old(View(d)), member) && Linked(View(d))
    ensures old(NoneEmpty(View(d))) ==> NoneEmpty(View(d)) && View(d) == Strip(old(View(d)), {member})
    ensures member.channel.members != [] ==> MasksOf(member.channel) == old(MasksOf(member.channel))
    ensures Consistent(InviteView(d), now) && InvitesStay(old(InviteView(d)), InviteView(d))
  {
    hide Linked, Consistent, Leave, Delete, NoneEmpty, Distinct, Strip, View, InviteView, Unlinked, InvitesStay;
    ghost var g := View(d);
    MemberThere(d, member);
    LeaveFacts(g, member);
    UnlinkMember(d, member, now);
    FreeIfEmpty(d, member.channel, now);
  }

  /** The three lists without the membership, in terms of the graph. */
  method UnlinkMember(ghost d: Ircd, member: ChannelMember, ghost now: nat)
    requires Leavable(View(d), member) && member in member.client.channel && Distinct(member.client.channel)
    requires member.client in d.people && Distinct(member.channel.members) && Distinct(member.channel.membersLocal)
    requires member.channel in d.channelList && Consistent(InviteView(d), now)
    modifies member.channel`members, member.channel`membersLocal, member.client`channel
    ensures View(d) == Unlinked(old(View(d)), member)
    ensures Consistent(InviteView(d), now) && InviteView(d) == old(InviteView(d))
    ensures View(d).members[member.channel] == member.channel.members
    ensures View(d).local[member.channel] == member.channel.membersLocal
  {
    hide Consistent, Delete, Distinct, InviteView;
    ViewAt(d, member);
    Unlink(d, member);
    ViewAt(d, member);
  }

  lemma MemberThere(d: Ircd, member: ChannelMember)
    requires Linked(View(d)) && member.client in d.people && member in member.client.channel
    ensures Leavable(View(d), member) && member.channel in d.channelList && Distinct(d.channelList)
    ensures Distinct(member.channel.members) && Distinct(member.channel.membersLocal) && Distinct(member.client.channel)
    ensures View(d).channels == d.channelList && member in View(d).on[member.client]
  {
    hide Linked, Distinct;
    assert View(d).on[member.client] == member.client.channel;
    LeaveDefined(View(d), member);
    ViewAt(d, member);
  }

  lemma StillThere(d: Ircd, g: Graph, m: ChannelMember)
    requires Leavable(g, m) && View(d) == Leave(g, m) && g.members.Keys == (set c | c in g.channels)
    ensures Channels(d) <= (set c | c in g.channels)
    ensures m.channel in d.channelList ==> m.channel.members != []
  {
    assert forall c :: c in d.channelList ==> View(d).members[c] == c.members;
  }

  method RemoveMember(d: Ircd, member: ChannelMember, ghost now: nat)
    requires Linked(View(d)) && Consistent(InviteView(d), now)
    requires member.client in d.people && member in member.client.channel
    modifies d`channelList, d.people`channel, d.people`invited
    modifies Channels(d)`members, Channels(d)`membersLocal, Channels(d)`invites
    modifies member.channel.banlist`masks, member.channel.exceptlist`masks, member.channel.invexlist`masks
    ensures Leavable(old(View(d)), member)
    ensures View(d) == Leave(old(View(d)), member) && Linked(View(d))
    ensures old(NoneEmpty(View(d))) ==> NoneEmpty(View(d)) && View(d) == Strip(old(View(d)), {member})
    ensures Consistent(InviteView(d), now) && Channels(d) <= old(Channels(d)) && member.channel in old(Channels(d))
    ensures member.channel in d.channelList ==> MasksOf(member.channel) == old(MasksOf(member.channel))
    ensures InvitesStay(old(InviteView(d)), InviteView(d))
  {
    ghost var cs, g := Channels(d), View(d);
    assert cs == (set c | c in g.channels) && g.members.Keys == cs;
    hide Linked, Consistent, Leave, Leavable, NoneEmpty, Strip, View, InvitesStay, InviteView;
    OwnListDistinct(d, member.client);
    RemoveUserFromChannel(d, member, now);
    StillThere(d, g, member);
  }

  /** The channels that stay keep their masks. */
  method RemoveKeepingMasks(d: Ircd, member: ChannelMember, ghost now: nat)
    requires Linked(View(d)) && Consistent(InviteView(d), now) && OwnLists(Channels(d))
    requires member.client in d.people && member in member.client.channel
    modifies d`channelList, d.people`channel, d.people`invited
    modifies Channels(d)`members, Channels(d)`membersLocal, Channels(d)`invites
    modifies member.channel.banlist`masks, member.channel.exceptlist`masks, member.channel.invexlist`masks
    ensures Leavable(old(View(d)), member)
    ensures View(d) == Leave(old(View(d)), member) && Linked(View(d))
    ensures old(NoneEmpty(View(d))) ==> NoneEmpty(View(d)) && View(d) == Strip(old(View(d)), {member})
    ensures Consistent(InviteView(d), now) && OwnLists(Channels(d)) && Channels(d) <= old(Channels(d))
    ensures Narrower(MaskMap(Channels(d)), old(MaskMap(Channels(d))))
    ensures InvitesStay(old(InviteView(d)), InviteView(d))
  {
    hide Linked, Consistent, Leave, Leavable, NoneEmpty, Strip, OwnLists, View, InvitesStay, InviteView;
    ghost var cs, masks := Channels(d), MaskMap(Channels(d));
    RemoveMember(d, member, now);
    FewerOwnLists(Channels(d), cs);
    forall c | c in d.channelList ensures c in masks && MasksOf(c) == masks[c] {
      if c != member.channel { ListsApart(cs, c, member.channel); }
    }
  }

  lemma FewerChannels(cs: set<Channel>, c: Channel)
    ensures MembersIn(cs - {c}) == MembersIn(cs) - {c}
    ensures LocalIn(cs - {c}) == LocalIn(cs) - {c}
  {
  }

  lemma NoLocalsLeft(g: Graph, m: ChannelMember)
    requires Linked(g) && m.client in g.on && m in g.on[m.client] && Leavable(g, m)
    requires Delete(g.members[m.channel], m) == []
    ensures (if m.client.local then Delete(g.local[m.channel], m) else g.local[m.channel]) == []
  {
    assert ChannelLinked(g, m.channel);
    LocalPartDistinct(g.members[m.channel]);
    LocalPartDelete(g.members[m.channel], m);
  }

  // ---------------------------------------------------------------- leaving every channel

  lemma NarrowerSelf(masks: map<Channel, Masks>)
    ensures Narrower(masks, masks)
  {
  }

  lemma NarrowerTrans(now: map<Channel, Masks>, before: map<Channel, Masks>, first: map<Channel, Masks>)
    requires Narrower(now, before) && Narrower(before, first)
    ensures Narrower(now, first)
  {
  }

  /** All memberships of the given users. */
  ghost function MembershipsOf(g: Graph, users: set<Client>): set<ChannelMember> {
    set u, m | u in users && u in g.on && m in g.on[u] :: m
  }

  lemma AllStripped(g: Graph, gone: set<ChannelMember>, u: Client)
    requires u in g.on && Strip(g, gone).on[u] == []
    requires forall m :: m in gone ==> m in g.on[u]
    ensures gone == MembershipsOf(g, {u})
  {
    assert forall m :: m in g.on[u] && m !in gone ==> m in Without(g.on[u], gone);
  }

  lemma OnView(d: Ircd, g: Graph, gone: set<ChannelMember>, u: Client)
    requires View(d) == Strip(g, gone) && u in d.people && u in g.on
    ensures u.channel == Without(g.on[u], gone)
  {
    assert View(d).on[u] == u.channel;
  }

  lemma OwnListDistinct(d: Ircd, u: Client)
    requires Linked(View(d)) && u in d.people
    ensures Distinct(u.channel) && forall m :: m in u.channel ==> m.client == u
    ensures forall m :: m in u.channel ==> m.channel in d.channelList
  {
    assert ClientLinked(View(d), u);
  }

  lemma MaskListsFewer(some: set<Channel>, all: set<Channel>)
    requires some <= all
    ensures MaskListsOf(some) <= MaskListsOf(all)
  {
  }

  /** Removing the membership at the head of a user's list leaves the rest of the list. */
  method RemoveHead(d: Ircd, client: Client, ghost now: nat)
    requires Linked(View(d)) && NoneEmpty(View(d)) && Consistent(InviteView(d), now) && client in d.people
    requires client.channel != [] && OwnLists(Channels(d))
    modifies d`channelList, d.people`channel, d.people`invited
    modifies Channels(d)`members, Channels(d)`membersLocal, Channels(d)`invites
    modifies MaskListsOf(Channels(d))`masks
    ensures View(d) == Strip(old(View(d)), {old(client.channel[0])}) && Channels(d) <= old(Channels(d))
    ensures client.channel == Delete(old(client.channel), old(client.channel[0]))
    ensures Linked(View(d)) && NoneEmpty(View(d)) && Consistent(InviteView(d), now) && OwnLists(Channels(d))
    ensures Narrower(MaskMap(Channels(d)), old(MaskMap(Channels(d))))
    ensures InvitesStay(old(InviteView(d)), InviteView(d))
  {
    hide Linked, NoneEmpty, Consistent, Strip, Leave, Leavable, Distinct, OwnLists, Narrower, MaskMap, InvitesStay,
      InviteView;
    ghost var h, list := View(d), client.channel;
    OwnListDistinct(d, client);
    RemoveKeepingMasks(d, client.channel[0], now);
    OnView(d, h, {list[0]}, client);
    DeleteIsWithout(list, list[0]);
  }

  /** The loop of exit_one_client over a user's memberships, which deletes what it stands on. */
  method QuitChannels(d: Ircd, client: Client, ghost now: nat)
    requires Linked(View(d)) && NoneEmpty(View(d)) && Consistent(InviteView(d), now) && client in d.people
    requires OwnLists(Channels(d))
    modifies d`channelList, d.people`channel, d.people`invited
    modifies Channels(d)`members, Channels(d)`membersLocal, Channels(d)`invites
    modifies MaskListsOf(Channels(d))`masks
    ensures View(d) == Strip(old(View(d)), MembershipsOf(old(View(d)), {client})) && client.channel == []
    ensures Linked(View(d)) && NoneEmpty(View(d)) && Consistent(InviteView(d), now) && OwnLists(Channels(d))
    ensures Channels(d) <= old(Channels(d)) && Narrower(MaskMap(Channels(d)), old(MaskMap(Channels(d))))
    ensures InvitesStay(old(InviteView(d)), InviteView(d))
  {
    hide Linked, NoneEmpty, Consistent, Strip, Leave, Leavable, Distinct, MembershipsOf, Delete, Without, MaskListsOf;
    hide OwnLists, Narrower, MaskMap, InvitesStay, InviteView;
    ghost var g, gone, w := View(d), {}, InviteView(d);
    AllInvitesStay(w);
    ghost var cs, masks := Channels(d), MaskMap(Channels(d));
    NarrowerSelf(masks);
    StripNone(g);
    var node := First(client.channel);
    while node.Some?
      invariant View(d) == Strip(g, gone) && Linked(View(d)) && NoneEmpty(View(d)) && Consistent(InviteView(d), now)
      invariant Channels(d) <= cs && OwnLists(Channels(d)) && Narrower(MaskMap(Channels(d)), masks)
      invariant node == First(client.channel) && InvitesStay(w, InviteView(d))
      invariant forall m :: m in gone ==> m in g.on[client]
      decreases |client.channel|
    {
      OwnListDistinct(d, client);
      OnView(d, g, gone, client);
      var next := Next(client.channel, node.value);
      NextIsNewHead(client.channel);
      StripTwice(g, gone, {node.value});
      gone := gone + {node.value};
      MaskListsFewer(Channels(d), cs);
      ghost var before, w1 := MaskMap(Channels(d)), InviteView(d);
      RemoveHead(d, client, now);
      StayTwice(w, w1, InviteView(d));
      NarrowerTrans(MaskMap(Channels(d)), before, masks);
      node := next;
    }
    OnView(d, g, gone, client);
    AllStripped(g, gone, client);
  }
}
