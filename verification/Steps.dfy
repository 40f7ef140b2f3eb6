// Single actions of the daemon: each keeps the memberships, the invites, the tree, the counters, the abort list, the
// local lists, the names and limits of the channels and the ban caches right, all together.
module Steps {
  import opened Lists
  import opened Strings
  import opened Entities
  import opened Invites
  import opened Membership
  import opened ServerTree
  import opened DeadLinks
  import opened ClientExit
  import opened Departures
  import C = ChannelCommands
  import B = BanCache
  import G = ModeEngine
  import O = OperCount
  import S = ModeSpec
  import L = ModeLines

  // ---------------------------------------------------------------- what holds between two actions

  /** Channels have different names and limits that are not negative. */
  ghost predicate ChannelsOk(d: Ircd)
    reads d`channelList, (set c | c in d.channelList :: c.mode)`limit
  {
    C.NamesDistinct(d.channelList) && forall c :: c in d.channelList ==> c.mode.limit >= 0
  }

  /** No two clients have the same id. */
  ghost predicate IdsOk(people: set<Client>) {
    forall u, v :: u in people && v in people && u.id == v.id ==> u == v
  }

  lemma LaterConsistent(g: InviteGraph, now: nat, later: nat)
    requires Consistent(g, now) && now <= later
    ensures Consistent(g, later)
  {
    forall c | c in g.ofChannel ensures ChannelConsistent(g, c, later) { assert ChannelConsistent(g, c, now); }
    forall u | u in g.ofClient ensures ClientConsistent(g, u, later) { assert ClientConsistent(g, u, now); }
  }

  /** Time passing breaks nothing. */
  lemma StaysSane(d: Ircd, conn: set<Client>, now: nat, later: nat)
    requires Sane(d, conn, now) && now <= later
    ensures Sane(d, conn, later)
  {
    hide TreeOk, Linked, NoneEmpty, Consistent, OwnLists;
    LaterConsistent(InviteView(d), now, later);
  }

  lemma ListedUser(d: Ircd, conn: set<Client>, now: nat, u: Client)
    requires Sane(d, conn, now) && u in d.globalClients
    ensures u in d.people && !u.server && Listed(Net(d), u)
  {
    hide Linked, NoneEmpty, Consistent, CountMode, OwnLists;
    UserIsNoServer(Net(d), u);
  }

  // ---------------------------------------------------------------- JOIN

  /** After a join the local members are those there were and the new one. */
  lemma JoinedLocal(d: Ircd, g: Graph, m: ChannelMember, founded: bool, c: Channel)
    requires C.Joined(g, View(d), m, founded) && c in d.channelList
    ensures forall k :: k in c.membersLocal ==> k == m || (c in g.local && k in g.local[c])
  {
    assert View(d).local[c] == c.membersLocal;
  }

  lemma JoinedCoherent(d: Ircd, mt: B.Matcher, g: Graph, m: ChannelMember, founded: bool, masks: map<Channel, Masks>)
    requires B.CachesWere(mt, g.local, masks) && C.Joined(g, View(d), m, founded) && m.Unasked()
    requires forall c :: c in masks ==> MasksOf(c) == masks[c]
    ensures B.AllCoherent(d, mt)
  {
    hide C.Joined, B.MemberOk, B.MemberWas;
    forall c, k | c in d.channelList && k in c.membersLocal ensures B.MemberOk(mt, c, k) {
      JoinedLocal(d, g, m, founded, c);
      if k == m { B.EmptyCacheOk(mt, c, k); } else { B.WasIsOk(mt, c, k); }
    }
  }

  lemma SameCoherent(d: Ircd, mt: B.Matcher, g: Graph, masks: map<Channel, Masks>)
    requires B.CachesWere(mt, g.local, masks) && View(d) == g
    requires forall c :: c in masks ==> MasksOf(c) == masks[c]
    ensures B.AllCoherent(d, mt)
  {
    hide B.MemberOk, B.MemberWas;
    forall c, k | c in d.channelList && k in c.membersLocal ensures B.MemberOk(mt, c, k) {
      assert g.local[c] == c.membersLocal;
      B.WasIsOk(mt, c, k);
    }
  }

  /** channel_do_join, with what is needed of it below. */
  method JoinPlain(d: Ircd, mt: B.Matcher, u: Client, name: string, key: Option<string>, allowed: bool,
                   joinBan: bool, maxChannels: nat, now: nat, ttl: nat)
    returns (r: C.JoinResult)
    requires GraphOk(d, now) && ChannelsOk(d) && u in d.people && u.local && !u.server
    modifies d`channelList, d.people`channel, d.people`invited
    modifies Channels(d)`invites, Channels(d)`members, Channels(d)`membersLocal
    ensures GraphOk(d, now) && ChannelsOk(d)
    ensures if r.Entered? then C.Joined(old(View(d)), View(d), r.member, r.founded) && fresh(r.member)
      else View(d) == old(View(d))
    ensures r.Entered? ==> r.member.Unasked()
    ensures r.Entered? && r.founded ==> (
      && fresh(r.member.channel) && fresh(r.member.channel.mode)
      && fresh(r.member.channel.banlist) && fresh(r.member.channel.exceptlist) && fresh(r.member.channel.invexlist))
    ensures C.OnNamed(View(d), u, name) <==>
      C.MayGetOn(old(View(d)), old(C.Standings(d, mt, u, key, now, ttl)), allowed, joinBan,
                 |old(u.channel)| < maxChannels, u, name)
    ensures r.Entered? ==> r.member.status == if r.founded then {'o'} else {}
    ensures r.Entered? ==> r.member.client == u && C.IsNamed(r.member.channel, name)
    ensures OthersKept(old(InviteView(d)), InviteView(d), u, now, ttl)
  {
    hide C.IsNamed, C.OnNamed, C.MayGetOn, C.Standings, OthersKept, GraphOk, C.NamesDistinct, C.Joined, C.Decided,
      C.Verdicts, View;
    r := C.ChannelDoJoin(d, mt, u, name, key, allowed, joinBan, maxChannels, now, ttl);
  }

  /** Joining keeps the ban caches: the new member's is empty. */
  method JoinCoherent(d: Ircd, mt: B.Matcher, u: Client, name: string, key: Option<string>, allowed: bool,
                      joinBan: bool, maxChannels: nat, now: nat, ttl: nat)
    returns (r: C.JoinResult)
    requires GraphOk(d, now) && ChannelsOk(d) && u in d.people && u.local && !u.server
    modifies d`channelList, d.people`channel, d.people`invited
    modifies Channels(d)`invites, Channels(d)`members, Channels(d)`membersLocal
    ensures GraphOk(d, now) && ChannelsOk(d)
    ensures old(B.AllCoherent(d, mt)) ==> B.AllCoherent(d, mt)
    ensures if r.Entered? then C.Joined(old(View(d)), View(d), r.member, r.founded) && fresh(r.member)
      else View(d) == old(View(d))
    ensures r.Entered? && r.founded ==> (
      && fresh(r.member.channel) && fresh(r.member.channel.mode)
      && fresh(r.member.channel.banlist) && fresh(r.member.channel.exceptlist) && fresh(r.member.channel.invexlist))
    ensures C.OnNamed(View(d), u, name) <==>
      C.MayGetOn(old(View(d)), old(C.Standings(d, mt, u, key, now, ttl)), allowed, joinBan,
                 |old(u.channel)| < maxChannels, u, name)
    ensures r.Entered? ==> r.member.status == if r.founded then {'o'} else {}
    ensures r.Entered? ==> r.member.client == u && C.IsNamed(r.member.channel, name)
    ensures OthersKept(old(InviteView(d)), InviteView(d), u, now, ttl)
  {
    hide C.IsNamed, C.OnNamed, C.MayGetOn, C.Standings, OthersKept, GraphOk, ChannelsOk, C.Joined, B.AllCoherent,
      B.MemberWas, MasksOf, InviteView;
    ghost var g, cs, masks := View(d), Channels(d), MaskMap(Channels(d));
    ghost var right := B.AllCoherent(d, mt);
    if right { B.CoherentBefore(d, mt); }
    r := JoinPlain(d, mt, u, name, key, allowed, joinBan, maxChannels, now, ttl);
    assert MaskMap(cs) == masks;
    assert right ==> B.CachesWere(mt, g.local, masks);
    if !right {
    } else if r.Entered? {
      JoinedCoherent(d, mt, g, r.member, r.founded, masks);
    } else {
      SameCoherent(d, mt, g, masks);
    }
  }

  /** What joining leaves alone. */
  method JoinOnly(d: Ircd, mt: B.Matcher, u: Client, name: string, key: Option<string>, allowed: bool,
                  joinBan: bool, maxChannels: nat, now: nat, ttl: nat)
    returns (r: C.JoinResult)
    requires GraphOk(d, now) && ChannelsOk(d) && u in d.people && u.local && !u.server
    modifies d`channelList, d.people`channel, d.people`invited
    modifies Channels(d)`invites, Channels(d)`members, Channels(d)`membersLocal
    ensures GraphOk(d, now) && ChannelsOk(d)
    ensures old(B.AllCoherent(d, mt)) ==> B.AllCoherent(d, mt)
    ensures Net(d) == old(Net(d)) && (old(Counted(d)) ==> Counted(d))
    ensures if r.Entered? then C.Joined(old(View(d)), View(d), r.member, r.founded) && fresh(r.member)
      else View(d) == old(View(d))
    ensures r.Entered? && r.founded ==> (
      && fresh(r.member.channel) && fresh(r.member.channel.mode)
      && fresh(r.member.channel.banlist) && fresh(r.member.channel.exceptlist) && fresh(r.member.channel.invexlist))
    ensures C.OnNamed(View(d), u, name) <==>
      C.MayGetOn(old(View(d)), old(C.Standings(d, mt, u, key, now, ttl)), allowed, joinBan,
                 |old(u.channel)| < maxChannels, u, name)
    ensures r.Entered? ==> r.member.status == if r.founded then {'o'} else {}
    ensures r.Entered? ==> r.member.client == u && C.IsNamed(r.member.channel, name)
    ensures OthersKept(old(InviteView(d)), InviteView(d), u, now, ttl)
  {
    hide C.IsNamed, C.OnNamed, C.MayGetOn, C.Standings, OthersKept, GraphOk, ChannelsOk, B.AllCoherent, C.Joined,
      CountMode, View;
    ghost var s, n := Nodes(d), Net(d);
    r := JoinCoherent(d, mt, u, name, key, allowed, joinBan, maxChannels, now, ttl);
    assert Nodes(d) == s;
    assert UsersOn(s) == n.users;
    assert LinksOn(s) == n.links;
  }

  /** The tree, the queue and the local lists are as they were. */
  method JoinSane(d: Ircd, mt: B.Matcher, u: Client, name: string, key: Option<string>, allowed: bool,
                  joinBan: bool, maxChannels: nat, ghost conn: set<Client>, now: nat, ttl: nat)
    returns (r: C.JoinResult)
    requires Sane(d, conn, now) && LocalOk(d, conn) && ChannelsOk(d)
    requires u in d.people && u.local && !u.server
    modifies d`channelList, d.people`channel, d.people`invited
    modifies Channels(d)`invites, Channels(d)`members, Channels(d)`membersLocal
    ensures Sane(d, conn, now) && LocalOk(d, conn) && ChannelsOk(d)
    ensures old(B.AllCoherent(d, mt)) ==> B.AllCoherent(d, mt)
    ensures if r.Entered? then C.Joined(old(View(d)), View(d), r.member, r.founded) && fresh(r.member)
      else View(d) == old(View(d))
    ensures r.Entered? && r.founded ==> (
      && fresh(r.member.channel) && fresh(r.member.channel.mode)
      && fresh(r.member.channel.banlist) && fresh(r.member.channel.exceptlist) && fresh(r.member.channel.invexlist))
    ensures C.OnNamed(View(d), u, name) <==>
      C.MayGetOn(old(View(d)), old(C.Standings(d, mt, u, key, now, ttl)), allowed, joinBan,
                 |old(u.channel)| < maxChannels, u, name)
    ensures r.Entered? ==> r.member.status == if r.founded then {'o'} else {}
    ensures r.Entered? ==> r.member.client == u && C.IsNamed(r.member.channel, name)
    ensures OthersKept(old(InviteView(d)), InviteView(d), u, now, ttl)
  {
    hide C.IsNamed, C.OnNamed, C.MayGetOn, C.Standings, OthersKept, GraphOk, ChannelsOk, B.AllCoherent, C.Joined, View,
      Rooted, Directory, CountMode, Distinct;
    r := JoinOnly(d, mt, u, name, key, allowed, joinBan, maxChannels, now, ttl);
  }

  function Listing(g: Graph): set<Channel> {
    set c | c in g.channels
  }

  function ModesOf(cs: set<Channel>): set<Mode> {
    set c | c in cs :: c.mode
  }

  function MembersOf(g: Graph): set<ChannelMember> {
    set c, m | c in g.members && m in g.members[c] :: m
  }

  /** The objects that the graph holds: channels with their modes and mask lists, and memberships. */
  ghost function Things(g: Graph): set<object> {
    var channels: set<object>, modes: set<object>, lists: set<object>, members: set<object> :=
      Listing(g), ModesOf(Listing(g)), MaskListsOf(Listing(g)), MembersOf(g);
    channels + modes + lists + members
  }

  ghost function NewThings(m: ChannelMember, founded: bool): set<object> {
    var c := m.channel;
    if founded then {m, c, c.mode, c.banlist, c.exceptlist, c.invexlist} else {m}
  }

  lemma ChannelThings(cs: set<Channel>, c: Channel)
    ensures ModesOf(cs + {c}) == ModesOf(cs) + {c.mode}
    ensures MaskListsOf(cs + {c}) == MaskListsOf(cs) + {c.banlist, c.exceptlist, c.invexlist}
  {
  }

  lemma JoinedThings(g: Graph, g': Graph, m: ChannelMember, founded: bool)
    requires C.Joined(g, g', m, founded)
    ensures Things(g') <= Things(g) + NewThings(m, founded)
  {
    hide ModesOf, MaskListsOf;
    assert Listing(g') == if founded then Listing(g) + {m.channel} else Listing(g);
    ChannelThings(Listing(g), m.channel);
    forall k | k in MembersOf(g') ensures k in MembersOf(g) || k == m {
      var c :| c in g'.members && k in g'.members[c];
    }
  }

  lemma FewerThings(g: Graph, gone: set<ChannelMember>)
    ensures Things(Strip(g, gone)) <= Things(g)
  {
    hide Kept, MaskListsOf;
    var h := Strip(g, gone);
    assert Listing(h) <= Listing(g);
    MaskListsFewer(Listing(h), Listing(g));
    forall k | k in MembersOf(h) ensures k in MembersOf(g) {
      var c :| c in h.members && k in h.members[c];
      assert k in Without(g.members[c], gone);
    }
  }

  method JoinStep(d: Ircd, mt: B.Matcher, u: Client, name: string, key: Option<string>, allowed: bool,
                  joinBan: bool, maxChannels: nat, ghost conn: set<Client>, now: nat, ttl: nat)
    returns (r: C.JoinResult, ghost extra: set<object>)
    requires Sane(d, conn, now) && LocalOk(d, conn) && ChannelsOk(d)
    requires u in d.people && u.local && !u.server
    modifies d`channelList, d.people`channel, d.people`invited
    modifies Channels(d)`invites, Channels(d)`members, Channels(d)`membersLocal
    ensures Sane(d, conn, now) && LocalOk(d, conn) && ChannelsOk(d)
    ensures old(B.AllCoherent(d, mt)) ==> B.AllCoherent(d, mt)
    ensures fresh(extra) && Things(View(d)) <= old(Things(View(d))) + extra
    ensures if r.Entered? then C.Joined(old(View(d)), View(d), r.member, r.founded) else View(d) == old(View(d))
    ensures C.OnNamed(View(d), u, name) <==>
      C.MayGetOn(old(View(d)), old(C.Standings(d, mt, u, key, now, ttl)), allowed, joinBan,
                 |old(u.channel)| < maxChannels, u, name)
    ensures r.Entered? ==> r.member.status == if r.founded then {'o'} else {}
    ensures C.OnlyOn(old(View(d)), View(d), u, name)
    ensures OthersKept(old(InviteView(d)), InviteView(d), u, now, ttl)
  {
    hide C.IsNamed, C.OnNamed, C.MayGetOn, C.Standings, OthersKept, Sane, LocalOk, ChannelsOk, B.AllCoherent, C.Joined,
      View, Things, C.OnlyOn;
    ghost var g, listed := View(d), d.channelList;
    SaneTyped(d, conn, now);
    r := JoinSane(d, mt, u, name, key, allowed, joinBan, maxChannels, conn, now, ttl);
    extra := {};
    NobodyOn(g, u, name);
    if r.Entered? {
      extra := NewThings(r.member, r.founded);
      JoinedThings(g, View(d), r.member, r.founded);
      assert r.founded ==> r.member.channel !in listed;
      C.JoinedMeans(g, View(d), r.member, r.founded, u, name);
    }
  }

  lemma NobodyOn(g: Graph, u: Client, name: string)
    ensures C.OnlyOn(g, g, u, name)
  {
  }

  // ---------------------------------------------------------------- PART

  method PartSome(d: Ircd, u: Client, name: string, ghost now: nat, ghost mt: B.Matcher,
                  ghost local: map<Channel, seq<ChannelMember>>, ghost masks: map<Channel, Masks>)
    returns (ghost gone: set<ChannelMember>)
    requires GraphOk(d, now) && C.NamesDistinct(d.channelList) && u in d.people && !u.server
    modifies d`channelList, d.people`channel, d.people`invited
    modifies Channels(d)`members, Channels(d)`membersLocal, Channels(d)`invites, MaskListsOf(Channels(d))`masks
    ensures GraphOk(d, now) && View(d) == Strip(old(View(d)), gone)
    ensures Narrower(MaskMap(Channels(d)), old(MaskMap(Channels(d))))
    ensures old(B.CachesWere(mt, local, masks)) ==> B.CachesWere(mt, local, masks)
    ensures !C.OnNamed(View(d), u, name) && InvitesStay(old(InviteView(d)), InviteView(d))
    ensures forall m :: m in gone ==> m.client == u && C.IsNamed(m.channel, name)
  {
    hide C.IsNamed, C.OnNamed, InvitesStay, Linked, NoneEmpty, Consistent, OwnLists, C.NamesDistinct, Strip, Narrower,
      MaskMap;
    StripNone(View(d));
    var r := C.ChannelPartOneClient(d, u, name, now);
    gone := if r.Parted? then {r.member} else {};
  }

  lemma GraphTyped(d: Ircd, now: nat)
    requires GraphOk(d, now)
    ensures WellTyped(View(d)) && View(d).channels == d.channelList
  {
  }

  /** Parting keeps the ban caches. */
  method PartCoherent(d: Ircd, mt: B.Matcher, u: Client, name: string, ghost now: nat)
    returns (ghost gone: set<ChannelMember>)
    requires GraphOk(d, now) && C.NamesDistinct(d.channelList) && u in d.people && !u.server
    modifies d`channelList, d.people`channel, d.people`invited
    modifies Channels(d)`members, Channels(d)`membersLocal, Channels(d)`invites, MaskListsOf(Channels(d))`masks
    ensures GraphOk(d, now) && View(d) == Strip(old(View(d)), gone)
    ensures old(B.AllCoherent(d, mt)) ==> B.AllCoherent(d, mt)
    ensures !C.OnNamed(View(d), u, name) && InvitesStay(old(InviteView(d)), InviteView(d))
    ensures forall m :: m in gone ==> m.client == u && C.IsNamed(m.channel, name)
  {
    hide C.IsNamed, C.OnNamed, InvitesStay, GraphOk, C.NamesDistinct, B.AllCoherent, B.CachesWere, Strip, Narrower,
      WellTyped;
    ghost var g, masks := View(d), MaskMap(Channels(d));
    GraphTyped(d, now);
    ghost var right := B.AllCoherent(d, mt);
    if right { B.CoherentBefore(d, mt); }
    gone := PartSome(d, u, name, now, mt, g.local, masks);
    if right { B.StillCoherentAll(d, mt, g, gone, masks); }
  }

  /** What parting leaves alone. */
  method PartOnly(d: Ircd, mt: B.Matcher, u: Client, name: string, ghost now: nat)
    returns (ghost gone: set<ChannelMember>)
    requires GraphOk(d, now) && C.NamesDistinct(d.channelList) && u in d.people && !u.server
    modifies d`channelList, d.people`channel, d.people`invited
    modifies Channels(d)`members, Channels(d)`membersLocal, Channels(d)`invites, MaskListsOf(Channels(d))`masks
    ensures GraphOk(d, now) && View(d) == Strip(old(View(d)), gone)
    ensures old(B.AllCoherent(d, mt)) ==> B.AllCoherent(d, mt)
    ensures Net(d) == old(Net(d)) && (old(Counted(d)) ==> Counted(d))
    ensures !C.OnNamed(View(d), u, name) && InvitesStay(old(InviteView(d)), InviteView(d))
    ensures forall m :: m in gone ==> m.client == u && C.IsNamed(m.channel, name)
  {
    hide C.IsNamed, C.OnNamed, InvitesStay, GraphOk, B.AllCoherent, C.NamesDistinct, CountMode, Strip, MaskListsOf,
      View;
    ghost var s, n := Nodes(d), Net(d);
    gone := PartCoherent(d, mt, u, name, now);
    assert Nodes(d) == s;
    assert UsersOn(s) == n.users;
    assert LinksOn(s) == n.links;
  }

  lemma FewerNow(g: Graph, gone: set<ChannelMember>, d: Ircd, channels: seq<Channel>)
    requires g.channels == channels && View(d) == Strip(g, gone) && C.NamesDistinct(channels)
    ensures C.NamesDistinct(d.channelList) && forall c :: c in d.channelList ==> c in channels
    ensures Things(View(d)) <= Things(g)
  {
    C.FewerNames(g, gone, d.channelList);
    FewerThings(g, gone);
  }

  method PartStep(d: Ircd, mt: B.Matcher, u: Client, name: string, ghost conn: set<Client>, ghost now: nat)
    requires Sane(d, conn, now) && LocalOk(d, conn) && ChannelsOk(d)
    requires u in d.people && !u.server
    modifies d`channelList, d.people`channel, d.people`invited
    modifies Channels(d)`members, Channels(d)`membersLocal, Channels(d)`invites, MaskListsOf(Channels(d))`masks
    ensures Sane(d, conn, now) && LocalOk(d, conn) && ChannelsOk(d)
    ensures old(B.AllCoherent(d, mt)) ==> B.AllCoherent(d, mt)
    ensures Things(View(d)) <= old(Things(View(d)))
    ensures C.OnlyOff(old(View(d)), View(d), u, name) && InvitesStay(old(InviteView(d)), InviteView(d))
  {
    hide C.IsNamed, C.OnNamed, C.OnlyOff, InvitesStay, Linked, NoneEmpty, Consistent, OwnLists, B.AllCoherent, Rooted,
      Directory, C.NamesDistinct, CountMode, Distinct, Strip, Things;
    ghost var g := View(d);
    ghost var gone := PartOnly(d, mt, u, name, now);
    C.PartedMeans(g, gone, u, name);
    FewerNow(g, gone, d, g.channels);
  }

  // ---------------------------------------------------------------- INVITE

  /** The user's newest invite is one to a channel of that name. */
  ghost predicate NewlyInvited(u: Client, name: string, now: nat)
    reads u`invited
  {
    u.invited != [] && C.IsNamed(u.invited[0].channel, name) && u.invited[0].when == now
  }

  method InviteAny(ghost d: Ircd, channel: Channel, u: Client, now: nat, ttl: nat, maxInvites: nat)
    requires Consistent(InviteView(d), now) && channel in d.channelList && u in d.people && u.local
    modifies d.people`invited, Channels(d)`invites
    ensures Consistent(InviteView(d), now) && OthersKept(old(InviteView(d)), InviteView(d), u, now, ttl)
    ensures NewlyInvited(u, channel.name, now) && (|u.invited| <= maxInvites || |u.invited| == 1)
  {
    var invite, stale, gone := InviteAdd(d, channel, u, now, ttl, maxInvites);
  }

  /** What inviting leaves alone. */
  method InviteOnly(d: Ircd, channel: Channel, u: Client, now: nat, ttl: nat, maxInvites: nat)
    requires GraphOk(d, now) && channel in d.channelList && u in d.people && u.local
    modifies d.people`invited, Channels(d)`invites
    ensures GraphOk(d, now) && Net(d) == old(Net(d)) && (old(Counted(d)) ==> Counted(d)) && View(d) == old(View(d))
    ensures OthersKept(old(InviteView(d)), InviteView(d), u, now, ttl)
    ensures NewlyInvited(u, channel.name, now) && (|u.invited| <= maxInvites || |u.invited| == 1)
  {
    hide Linked, NoneEmpty, Consistent, OwnLists, CountMode, Distinct, OthersKept, NewlyInvited;
    ghost var s, n, v := Nodes(d), Net(d), View(d);
    InviteAny(d, channel, u, now, ttl, maxInvites);
    assert Nodes(d) == s;
    assert UsersOn(s) == n.users;
    assert LinksOn(s) == n.links;
    assert View(d) == v;
  }

  /** An invitation to the channel of that name, if there is one. It is the user's newest, and others lose none. */
  method InviteStep(d: Ircd, mt: B.Matcher, u: Client, name: string, ghost conn: set<Client>, now: nat, ttl: nat,
                    maxInvites: nat)
    requires Sane(d, conn, now) && LocalOk(d, conn) && ChannelsOk(d)
    requires u in d.people && u.local
    modifies d.people`invited, Channels(d)`invites
    ensures Sane(d, conn, now) && LocalOk(d, conn) && ChannelsOk(d)
    ensures old(B.AllCoherent(d, mt)) ==> B.AllCoherent(d, mt)
    ensures View(d) == old(View(d)) && OthersKept(old(InviteView(d)), InviteView(d), u, now, ttl)
    ensures if exists c :: c in d.channelList && C.IsNamed(c, name)
      then NewlyInvited(u, name, now) && (|u.invited| <= maxInvites || |u.invited| == 1)
      else InviteView(d) == old(InviteView(d))
  {
    hide Linked, NoneEmpty, OwnLists, Consistent, Rooted, Directory, C.NamesDistinct, CountMode, Distinct, View,
      B.Coherent, OthersKept, InviteView;
    var channel := C.FindChannel(d.channelList, name);
    OthersKeptSelf(InviteView(d), u, now, ttl);
    if channel != null {
      InviteOnly(d, channel, u, now, ttl, maxInvites);
      SameAsNamed(u, channel, name, now);
    }
  }

  lemma SameAsNamed(u: Client, c: Channel, name: string, now: nat)
    requires C.IsNamed(c, name)
    ensures NewlyInvited(u, c.name, now) ==> NewlyInvited(u, name, now)
  {
  }

  // ---------------------------------------------------------------- exits

  lemma BegunMasks(a: Side, b: Side, x: Client)
    requires Onward(Begun(a, x), b)
    ensures Narrower(b.masks, a.masks)
  {
  }

  lemma SaneTyped(d: Ircd, conn: set<Client>, now: nat)
    requires Sane(d, conn, now)
    ensures WellTyped(View(d)) && View(d).channels == d.channelList && Strip(View(d), {}) == View(d)
  {
    hide TreeOk, Strip, Linked, NoneEmpty;
    StripNone(View(d));
    GraphTyped(d, now);
  }

  /** What exit_client does to the channels. */
  method ExitThere(d: Ircd, x: Client, f: Failures, ghost conn: set<Client>, ghost now: nat)
    returns (ghost gone: set<ChannelMember>)
    requires Sane(d, conn, now) && LocalOk(d, conn) && AllIn(f, d.people, conn)
    requires if x.local then x in conn else Listed(Net(d), x)
    modifies d`globalClients, d`globalServers, d`deadList, d`countOper, d`countInvisi
    modifies d.people`clientList, d.people`serverList, d.people`dead
    modifies d`channelList, d.people`channel, d.people`invited
    modifies Channels(d)`members, Channels(d)`membersLocal, Channels(d)`invites, MaskListsOf(Channels(d))`masks
    modifies d`abortList, d`eacNext
    modifies conn`closing, d`operList, d`localClients, d`localServers
    ensures Sane(d, conn, now) && LocalOk(d, conn) && View(d) == Strip(old(View(d)), gone)
    ensures if old(x.local && x.closing) then Net(d) == old(Net(d)) && View(d) == old(View(d))
      else OnlyBehind(old(Net(d)), old(View(d)), Net(d), View(d), x)
    ensures OwnGone(old(InviteView(d)).ofChannel, InviteView(d).ofChannel, {x})
    ensures Narrower(MaskMap(Channels(d)), old(MaskMap(Channels(d)))) && (x.local ==> x.closing)
  {
    hide Sane, LocalOk, Exited, AllIn, Listed, Branch, Open, Onward, SideOf, Narrower, WellTyped, Strip, MembershipsOf,
      View, Begun, Linked, NoneEmpty, Net, OnlyBehind, Rooted, OwnGone, InviteView;
    ghost var n, g, a, closing := Net(d), View(d), SideOf(d, conn), x.local && x.closing;
    SaneTyped(d, conn, now);
    SaneParts(d, conn, now);
    if x.local && !x.closing { ClosingIsGone(d, conn, now, x); }
    OpenHere(conn, x);
    SideFields(d, conn);
    ExitClient(d, x, f, conn, now);
    SideFields(d, conn);
    BegunMasks(a, SideOf(d, conn), x);
    if x.local { NowClosing(conn, x); }
    gone := {};
    if !closing {
      gone := MembershipsOf(g, Branch(n, x));
      ExitedTakes(n, g, Net(d), View(d), Branch(n, x));
      ExitMeans(n, g, Net(d), View(d), x);
    }
  }

  /** And what was in the caches stays there. */
  method ExitGraph(d: Ircd, x: Client, f: Failures, ghost conn: set<Client>, ghost now: nat, ghost mt: B.Matcher,
                   ghost local: map<Channel, seq<ChannelMember>>, ghost masks: map<Channel, Masks>)
    returns (ghost gone: set<ChannelMember>)
    requires Sane(d, conn, now) && LocalOk(d, conn) && AllIn(f, d.people, conn)
    requires if x.local then x in conn else Listed(Net(d), x)
    modifies d`globalClients, d`globalServers, d`deadList, d`countOper, d`countInvisi
    modifies d.people`clientList, d.people`serverList, d.people`dead
    modifies d`channelList, d.people`channel, d.people`invited
    modifies Channels(d)`members, Channels(d)`membersLocal, Channels(d)`invites, MaskListsOf(Channels(d))`masks
    modifies d`abortList, d`eacNext
    modifies conn`closing, d`operList, d`localClients, d`localServers
    ensures Sane(d, conn, now) && LocalOk(d, conn) && View(d) == Strip(old(View(d)), gone)
    ensures if old(x.local && x.closing) then Net(d) == old(Net(d)) && View(d) == old(View(d))
      else OnlyBehind(old(Net(d)), old(View(d)), Net(d), View(d), x)
    ensures OwnGone(old(InviteView(d)).ofChannel, InviteView(d).ofChannel, {x})
    ensures Narrower(MaskMap(Channels(d)), old(MaskMap(Channels(d)))) && (x.local ==> x.closing)
    ensures old(B.CachesWere(mt, local, masks)) ==> B.CachesWere(mt, local, masks)
  {
    hide Sane, LocalOk, AllIn, Listed, Narrower, Strip, View, Net, MaskMap, OnlyBehind, B.MemberWas, OwnGone;
    gone := ExitThere(d, x, f, conn, now);
  }

  lemma OpenHere(conn: set<Client>, x: Client)
    ensures x in conn && !x.closing ==> x in Open(conn)
  {
  }

  /** And exit_aborted_clients. */
  method WorkOffThere(d: Ircd, f: Failures, ghost conn: set<Client>, ghost now: nat)
    returns (ghost gone: set<ChannelMember>)
    requires Sane(d, conn, now) && LocalOk(d, conn) && AllIn(f, d.people, conn)
    modifies d`globalClients, d`globalServers, d`deadList, d`countOper, d`countInvisi
    modifies d.people`clientList, d.people`serverList, d.people`dead
    modifies d`channelList, d.people`channel, d.people`invited
    modifies Channels(d)`members, Channels(d)`membersLocal, Channels(d)`invites, MaskListsOf(Channels(d))`masks
    modifies d`abortList, d`eacNext
    modifies conn`closing, d`operList, d`localClients, d`localServers
    ensures Sane(d, conn, now) && LocalOk(d, conn) && View(d) == Strip(old(View(d)), gone) && d.abortList == []
    ensures forall c :: c in old(d.abortList) ==> c in Closing(conn)
    ensures OwnGone(old(InviteView(d)).ofChannel, InviteView(d).ofChannel, Closing(conn))
    ensures Narrower(MaskMap(Channels(d)), old(MaskMap(Channels(d))))
  {
    hide Sane, LocalOk, Exited, AllIn, Branches, Distinct, Narrower, Strip, MembershipsOf, OwnGone, InviteView;
    ghost var n, g, w, closing := Net(d), View(d), InviteView(d), Closing(conn);
    ghost var popped := ExitAbortedClients(d, f, conn, now);
    MoreGone(w.ofChannel, InviteView(d).ofChannel, (set c | c in popped), Closing(conn));
    gone := MembershipsOf(g, Branches(n, Without(popped, closing)));
    ExitedTakes(n, g, Net(d), View(d), Branches(n, Without(popped, closing)));
  }

  method WorkOffGraph(d: Ircd, f: Failures, ghost conn: set<Client>, ghost now: nat, ghost mt: B.Matcher,
                      ghost local: map<Channel, seq<ChannelMember>>, ghost masks: map<Channel, Masks>)
    returns (ghost gone: set<ChannelMember>)
    requires Sane(d, conn, now) && LocalOk(d, conn) && AllIn(f, d.people, conn)
    modifies d`globalClients, d`globalServers, d`deadList, d`countOper, d`countInvisi
    modifies d.people`clientList, d.people`serverList, d.people`dead
    modifies d`channelList, d.people`channel, d.people`invited
    modifies Channels(d)`members, Channels(d)`membersLocal, Channels(d)`invites, MaskListsOf(Channels(d))`masks
    modifies d`abortList, d`eacNext
    modifies conn`closing, d`operList, d`localClients, d`localServers
    ensures Sane(d, conn, now) && LocalOk(d, conn) && View(d) == Strip(old(View(d)), gone) && d.abortList == []
    ensures forall c :: c in old(d.abortList) ==> c in Closing(conn)
    ensures OwnGone(old(InviteView(d)).ofChannel, InviteView(d).ofChannel, Closing(conn))
    ensures Narrower(MaskMap(Channels(d)), old(MaskMap(Channels(d))))
    ensures old(B.CachesWere(mt, local, masks)) ==> B.CachesWere(mt, local, masks)
  {
    hide Sane, LocalOk, AllIn, Narrower, Strip, View, MaskMap, B.MemberWas, OwnGone, InviteView;
    gone := WorkOffThere(d, f, conn, now);
  }

  /** exit_client, for any client that is connected or listed. */
  method ExitStep(d: Ircd, mt: B.Matcher, x: Client, f: Failures, ghost conn: set<Client>, ghost now: nat)
    requires Sane(d, conn, now) && LocalOk(d, conn) && ChannelsOk(d) && AllIn(f, d.people, conn)
    requires if x.local then x in conn else Listed(Net(d), x)
    modifies d`globalClients, d`globalServers, d`deadList, d`countOper, d`countInvisi
    modifies d.people`clientList, d.people`serverList, d.people`dead
    modifies d`channelList, d.people`channel, d.people`invited
    modifies Channels(d)`members, Channels(d)`membersLocal, Channels(d)`invites, MaskListsOf(Channels(d))`masks
    modifies d`abortList, d`eacNext
    modifies conn`closing, d`operList, d`localClients, d`localServers
    ensures Sane(d, conn, now) && LocalOk(d, conn) && ChannelsOk(d)
    ensures old(B.AllCoherent(d, mt)) ==> B.AllCoherent(d, mt)
    ensures if old(x.local && x.closing) then Net(d) == old(Net(d)) && View(d) == old(View(d))
      else OnlyBehind(old(Net(d)), old(View(d)), Net(d), View(d), x)
    ensures OwnGone(old(InviteView(d)).ofChannel, InviteView(d).ofChannel, {x})
    ensures Things(View(d)) <= old(Things(View(d))) && (x.local ==> x.closing)
  {
    hide Sane, LocalOk, AllIn, Listed, C.NamesDistinct, B.AllCoherent, B.CachesWere, Strip, Narrower, WellTyped, Things,
      OnlyBehind, OwnGone;
    ghost var g, masks := View(d), MaskMap(Channels(d));
    SaneTyped(d, conn, now);
    ghost var right := B.AllCoherent(d, mt);
    if right { B.CoherentBefore(d, mt); }
    ghost var gone := ExitGraph(d, x, f, conn, now, mt, g.local, masks);
    if right { B.StillCoherentAll(d, mt, g, gone, masks); }
    FewerNow(g, gone, d, g.channels);
  }

  /** exit_aborted_clients */
  method WorkOffStep(d: Ircd, mt: B.Matcher, f: Failures, ghost conn: set<Client>, ghost now: nat)
    requires Sane(d, conn, now) && LocalOk(d, conn) && ChannelsOk(d) && AllIn(f, d.people, conn)
    modifies d`globalClients, d`globalServers, d`deadList, d`countOper, d`countInvisi
    modifies d.people`clientList, d.people`serverList, d.people`dead
    modifies d`channelList, d.people`channel, d.people`invited
    modifies Channels(d)`members, Channels(d)`membersLocal, Channels(d)`invites, MaskListsOf(Channels(d))`masks
    modifies d`abortList, d`eacNext
    modifies conn`closing, d`operList, d`localClients, d`localServers
    ensures Sane(d, conn, now) && LocalOk(d, conn) && ChannelsOk(d)
    ensures old(B.AllCoherent(d, mt)) ==> B.AllCoherent(d, mt)
    ensures Things(View(d)) <= old(Things(View(d))) && d.abortList == []
    ensures forall c :: c in old(d.abortList) ==> c in Closing(conn)
    ensures OwnGone(old(InviteView(d)).ofChannel, InviteView(d).ofChannel, Closing(conn))
  {
    hide Sane, LocalOk, AllIn, Listed, C.NamesDistinct, B.AllCoherent, B.CachesWere, Strip, Narrower, WellTyped, Things,
      OwnGone;
    ghost var g, masks := View(d), MaskMap(Channels(d));
    SaneTyped(d, conn, now);
    ghost var right := B.AllCoherent(d, mt);
    if right { B.CoherentBefore(d, mt); }
    ghost var gone := WorkOffGraph(d, f, conn, now, mt, g.local, masks);
    if right { B.StillCoherentAll(d, mt, g, gone, masks); }
    FewerNow(g, gone, d, g.channels);
  }

  /** Messages of any other command. */
  method WriteStep(d: Ircd, mt: B.Matcher, failing: seq<Client>, ghost conn: set<Client>, ghost now: nat)
    requires Sane(d, conn, now) && LocalOk(d, conn) && ChannelsOk(d)
    requires forall c :: c in failing ==> c in conn
    modifies d`abortList, d`eacNext, conn`dead
    ensures Sane(d, conn, now) && LocalOk(d, conn) && ChannelsOk(d)
    ensures old(B.AllCoherent(d, mt)) ==> B.AllCoherent(d, mt)
    ensures View(d) == old(View(d))
  {
    hide Sane, Directory, C.NamesDistinct, B.Coherent, View;
    ghost var n := Net(d);
    Send(d, failing, conn, now);
    assert Net(d) == n;
  }

  // ---------------------------------------------------------------- PRIVMSG, MODE

  /** The status of a client on a channel, if it is there. */
  ghost function StatusIn(members: seq<ChannelMember>, u: Client): Option<set<char>>
    reads (set m | m in members)`status
  {
    if members == [] then None
    else if members[0].client == u then Some(members[0].status)
    else StatusIn(members[1..], u)
  }

  lemma {:induction false} StatusFound(members: seq<ChannelMember>, u: Client)
    requires OncePerClient(members)
    ensures forall m :: m in members && m.client == u ==> StatusIn(members, u) == Some(m.status)
    ensures (forall m :: m in members ==> m.client != u) ==> StatusIn(members, u) == None
  {
    if members != [] {
      StatusFound(members[1..], u);
      assert forall m :: m in members ==> m == members[0] || m in members[1..];
      assert forall m :: m in members[1..] ==> m.client != members[0].client;
    }
  }

  /** What can_send would say about a message to the channel of that name if there were no ban cache. */
  ghost function MaySay(d: Ircd, mt: B.Matcher, u: Client, name: string, msg: B.Message): Option<B.Verdict>
    reads d`channelList, Channels(d)`members, (set c, m | c in d.channelList && m in c.members :: m)`status
    reads u`name, u`umodes
    reads (set c | c in d.channelList :: c.mode), (set c | c in d.channelList :: c.banlist)
    reads (set c | c in d.channelList :: c.exceptlist)
  {
    var c := C.FindChannel(d.channelList, name);
    if c == null then None else Some(B.Uncached(mt, c, u, StatusIn(c.members, u), msg))
  }

  lemma VerdictIs(d: Ircd, mt: B.Matcher, c: Channel, u: Client, msg: B.Message, v: B.Verdict)
    requires Linked(View(d)) && c in d.channelList
    requires forall m :: m in c.members && m.client == u ==> v == B.Uncached(mt, c, u, Some(m.status), msg)
    requires !IsMember(View(d), u, c) ==> v == B.Uncached(mt, c, u, None, msg)
    ensures v == B.Uncached(mt, c, u, StatusIn(c.members, u), msg)
  {
    hide B.Uncached;
    assert View(d).members[c] == c.members && ChannelLinked(View(d), c);
    StatusFound(c.members, u);
  }

  /** The verdict on a message to the channel of that name, if there is one, is the one that its modes, its lists and
      the membership call for. */
  ghost predicate SaidRightly(d: Ircd, mt: B.Matcher, u: Client, name: string, msg: B.Message, said: Option<B.Verdict>)
    reads d`channelList, Channels(d)`members, (set c, m | c in d.channelList && m in c.members :: m)`status
    reads u`name, u`umodes
    reads (set c | c in d.channelList :: c.mode), (set c | c in d.channelList :: c.banlist)
    reads (set c | c in d.channelList :: c.exceptlist)
  {
    && (said.None? <==> forall c :: c in d.channelList ==> !C.IsNamed(c, name))
    && forall c :: c in d.channelList && C.IsNamed(c, name) && said.Some? ==>
      && (forall m :: m in c.members && m.client == u ==> B.Judged(mt, c, u, Some(m.status), msg, said.value))
      && ((forall m :: m in c.members ==> m.client != u) ==> B.Judged(mt, c, u, None, msg, said.value))
  }

  lemma MaySayRightly(d: Ircd, mt: B.Matcher, u: Client, name: string, msg: B.Message)
    requires Linked(View(d)) && C.NamesDistinct(d.channelList)
    ensures SaidRightly(d, mt, u, name, msg, MaySay(d, mt, u, name, msg))
  {
    hide C.IsNamed, C.NamesDistinct, B.Judged, B.Uncached, StatusIn, Linked;
    var c := C.FindChannel(d.channelList, name);
    if c != null {
      forall k | k in d.channelList && C.IsNamed(k, name) ensures k == c { C.SameName(d.channelList, k, c, name); }
      assert View(d).members[c] == c.members;
      MembersOnce(View(d), c);
      StatusFound(c.members, u);
      B.UncachedJudges(mt, c, u, StatusIn(c.members, u), msg);
    }
  }

  lemma MembersOnce(g: Graph, c: Channel)
    requires Linked(g) && c in g.members
    ensures OncePerClient(g.members[c])
  {
    assert ChannelLinked(g, c);
  }

  method SpeakOn(d: Ircd, mt: B.Matcher, channel: Channel, u: Client, msg: B.Message) returns (v: B.Verdict)
    requires Linked(View(d)) && channel in d.channelList && u in d.people
    modifies (set m | m in channel.membersLocal)`banChecked, (set m | m in channel.membersLocal)`banSilenced
    modifies (set m | m in channel.membersLocal)`muteChecked
    ensures old(B.AllCoherent(d, mt)) ==>
      B.AllCoherent(d, mt) && v == B.Uncached(mt, channel, u, StatusIn(channel.members, u), msg)
  {
    hide B.AllCoherent, Linked, B.Uncached, IsMember;
    ghost var right := B.AllCoherent(d, mt);
    v := B.Speak(d, mt, channel, u, null, msg);
    if right { VerdictIs(d, mt, channel, u, msg, v); }
  }

  /** A message to a channel: if the caches are right it is let through exactly if it would be without them, and judged
      by the modes, the lists and the membership. */
  method SpeakStep(d: Ircd, mt: B.Matcher, u: Client, name: string, msg: B.Message, ghost conn: set<Client>,
                   ghost now: nat)
    returns (said: Option<B.Verdict>)
    requires Sane(d, conn, now) && LocalOk(d, conn) && ChannelsOk(d) && u in d.people
    modifies (set c, m | c in d.channelList && m in c.membersLocal :: m)
    ensures Sane(d, conn, now) && LocalOk(d, conn) && ChannelsOk(d)
    ensures View(d) == old(View(d))
    ensures old(B.AllCoherent(d, mt)) ==> B.AllCoherent(d, mt) && said == old(MaySay(d, mt, u, name, msg))
    ensures old(B.AllCoherent(d, mt)) ==> SaidRightly(d, mt, u, name, msg, said)
  {
    hide Sane, LocalOk, B.AllCoherent, Linked, MaySay, SaidRightly, C.NamesDistinct, View;
    said := SpeakThere(d, mt, u, name, msg, conn, now);
    SaneParts(d, conn, now);
    MaySayRightly(d, mt, u, name, msg);
  }

  method SpeakThere(d: Ircd, mt: B.Matcher, u: Client, name: string, msg: B.Message, ghost conn: set<Client>,
                    ghost now: nat)
    returns (said: Option<B.Verdict>)
    requires Sane(d, conn, now) && LocalOk(d, conn) && ChannelsOk(d) && u in d.people
    modifies (set c, m | c in d.channelList && m in c.membersLocal :: m)
    ensures Sane(d, conn, now) && LocalOk(d, conn) && ChannelsOk(d)
    ensures View(d) == old(View(d))
    ensures old(B.AllCoherent(d, mt)) ==> B.AllCoherent(d, mt) && said == old(MaySay(d, mt, u, name, msg))
    ensures MaySay(d, mt, u, name, msg) == old(MaySay(d, mt, u, name, msg))
  {
    hide TreeOk, GraphOk, LocalOk, ChannelsOk, B.AllCoherent, Linked, B.Uncached, StatusIn;
    ghost var before := MaySay(d, mt, u, name, msg);
    var channel := C.FindChannel(d.channelList, name);
    if channel == null {
      return None;
    }
    SaneParts(d, conn, now);
    var v := SpeakOn(d, mt, channel, u, msg);
    said := Some(v);
    assert MaySay(d, mt, u, name, msg) == before;
  }

  lemma {:induction false} LimitStays(x: S.Context, ml: string, dir: S.Dir, e: S.Engine)
    requires e.chan.limit >= 0
    ensures S.Run(x, ml, dir, e).chan.limit >= 0
  {
    hide S.Step;
    if ml != "" {
      if S.IsTurn(ml[0]) {
        LimitStays(x, ml[1..], S.Turn(ml[0], dir), e);
      } else {
        LetterKeepsLimit(x, dir, ml[0], e);
        LimitStays(x, ml[1..], dir, S.Step(x, dir, ml[0], e));
      }
    }
  }

  lemma LetterKeepsLimit(x: S.Context, dir: S.Dir, c: char, e: S.Engine)
    requires e.chan.limit >= 0
    ensures S.Step(x, dir, c, e).chan.limit >= 0
  {
  }

  /** What a MODE asks for, and what the tables say: whom a parameter names, how a mask is reformatted, which masks are
      empty, and the configured sizes. */
  datatype Asked = Asked(src: S.Source, parv: seq<string>, lookup: string -> Client?,
                         normalise: (char, string) -> Option<string>, emptyMask: string -> bool,
                         maxBans: int, maxBansLarge: int, clientHead: string, serverHead: string)

  /** Only clients that are listed are found. */
  function Chase(lookup: string -> Client?, listed: set<Client>): string -> Client? {
    s => if lookup(s) != null && lookup(s) in listed then lookup(s) else null
  }

  function EnvOf(a: Asked, listed: set<Client>, names: map<string, string>): S.Env {
    var chase := Chase(a.lookup, listed);
    S.Env(s => if chase(s) == null then None else Some(chase(s).id), id => if id in names then names[id] else "",
          a.normalise, a.emptyMask, a.maxBans, a.maxBansLarge)
  }

  lemma TablesResolve(a: Asked, listed: set<Client>, names: map<string, string>, people: set<Client>)
    requires IdsOk(people) && listed <= people && forall u :: u in listed ==> u.id in names && names[u.id] == u.name
    ensures G.Resolves(EnvOf(a, listed, names), Chase(a.lookup, listed), people)
  {
  }

  /** The names of the clients by id. */
  function NamesById(list: seq<Client>, ghost people: set<Client>): map<string, string>
    requires IdsOk(people) && forall u :: u in list ==> u in people
    reads (set u | u in list)`name
    ensures forall u :: u in list ==> u.id in NamesById(list, people) && NamesById(list, people)[u.id] == u.name
  {
    map u | u in list :: u.id := u.name
  }

  lemma IdsOnChannel(d: Ircd, channel: Channel)
    requires Linked(View(d)) && channel in d.channelList && IdsOk(d.people)
    ensures G.DistinctIds(channel.members)
    ensures forall m :: m in channel.membersLocal ==> m in channel.members
  {
    assert View(d).members[channel] == channel.members && View(d).local[channel] == channel.membersLocal;
    assert ChannelLinked(View(d), channel);
  }

  lemma LimitAfter(env: S.Env, src: S.Source, member: Option<set<char>>, chan: S.Channel, parv: seq<string>)
    requires parv != [] && chan.limit >= 0
    ensures S.ModeSet(env, src, member, chan, parv).chan.limit >= 0
  {
    LimitStays(S.Context(env, src, S.Access(src, member), parv), parv[0], S.Add, S.Fresh(chan));
  }

  /** MODE on a channel: it ends as the engine says, all caches stay right and no limit is negative. */
  method ModeOn(g: G.ModeGlobals, d: Ircd, mt: B.Matcher, channel: Channel, member: ChannelMember?, a: Asked,
                listed: set<Client>, names: map<string, string>)
    requires Linked(View(d)) && OwnLists(Channels(d)) && IdsOk(d.people)
    requires channel in d.channelList && channel.mode.limit >= 0
    requires G.Resolves(EnvOf(a, listed, names), Chase(a.lookup, listed), d.people)
    requires g.changes.Length == L.IRCD_BUFSIZE && a.parv != [] && |a.parv[0]| < L.IRCD_BUFSIZE
    modifies g, g.changes, channel.mode, channel.banlist, channel.exceptlist, channel.invexlist
    modifies (set m | m in channel.members)
    ensures channel.mode.limit >= 0
    ensures old(B.AllCoherent(d, mt)) ==> B.AllCoherent(d, mt)
    ensures G.DistinctIds(channel.members) && g.count < g.changes.Length
    ensures g.State(channel) ==
      S.ModeSet(EnvOf(a, listed, names), a.src, if member == null then None else Some(old(member.status)),
                old(G.Value(channel)), a.parv)
  {
    hide Linked, OwnLists, B.AllCoherent, G.Resolves, S.ModeSet, G.DistinctIds, EnvOf, Chase;
    IdsOnChannel(d, channel);
    var parv := new string[|a.parv|](i requires 0 <= i < |a.parv| => a.parv[i]);
    assert parv[..] == a.parv;
    var env := EnvOf(a, listed, names);
    LimitAfter(env, a.src, if member == null then None else Some(member.status), G.Value(channel), a.parv);
    B.ChangeModes(g, env, a.src, d, mt, Chase(a.lookup, listed), channel, member, parv, a.clientHead, a.serverHead);
  }

  lemma StillChannelsOk(d: Ircd, channel: Channel, limits: map<Channel, int>)
    requires C.NamesDistinct(d.channelList) && channel.mode.limit >= 0
    requires forall c :: c in d.channelList ==> c in limits && limits[c] >= 0
    requires forall c :: c in d.channelList && c.mode != channel.mode ==> c.mode.limit == limits[c]
    ensures ChannelsOk(d)
  {
    hide C.NamesDistinct;
  }

  /** The graph stays as it is. */
  method ModeChannels(g: G.ModeGlobals, d: Ircd, mt: B.Matcher, channel: Channel, member: ChannelMember?, a: Asked,
                      listed: set<Client>, names: map<string, string>)
    requires Linked(View(d)) && OwnLists(Channels(d)) && ChannelsOk(d) && IdsOk(d.people)
    requires channel in d.channelList && G.Resolves(EnvOf(a, listed, names), Chase(a.lookup, listed), d.people)
    requires g.changes.Length == L.IRCD_BUFSIZE && a.parv != [] && |a.parv[0]| < L.IRCD_BUFSIZE
    modifies g, g.changes, channel.mode, channel.banlist, channel.exceptlist, channel.invexlist
    modifies (set m | m in channel.members)
    ensures ChannelsOk(d) && View(d) == old(View(d))
    ensures old(B.AllCoherent(d, mt)) ==> B.AllCoherent(d, mt)
    ensures G.DistinctIds(channel.members)
    ensures G.Value(channel) ==
      S.ModeSet(EnvOf(a, listed, names), a.src, if member == null then None else Some(old(member.status)),
                old(G.Value(channel)), a.parv).chan
  {
    hide B.AllCoherent, Linked, OwnLists, G.Resolves, S.ModeSet, EnvOf, Chase, C.NamesDistinct, IdsOk, G.DistinctIds,
      View;
    ghost var v, limits := View(d), map c | c in d.channelList :: c.mode.limit;
    ModeOn(g, d, mt, channel, member, a, listed, names);
    assert View(d) == v;
    StillChannelsOk(d, channel, limits);
  }

  /** What else MODE leaves alone. */
  method ModeOnly(g: G.ModeGlobals, d: Ircd, mt: B.Matcher, channel: Channel, member: ChannelMember?, a: Asked,
                  listed: set<Client>, names: map<string, string>, ghost conn: set<Client>, ghost now: nat)
    requires Sane(d, conn, now) && LocalOk(d, conn) && ChannelsOk(d) && IdsOk(d.people)
    requires channel in d.channelList && G.Resolves(EnvOf(a, listed, names), Chase(a.lookup, listed), d.people)
    requires g.changes.Length == L.IRCD_BUFSIZE && a.parv != [] && |a.parv[0]| < L.IRCD_BUFSIZE
    modifies g, g.changes, channel.mode, channel.banlist, channel.exceptlist, channel.invexlist
    modifies (set m | m in channel.members)
    ensures Sane(d, conn, now) && LocalOk(d, conn) && ChannelsOk(d)
    ensures old(B.AllCoherent(d, mt)) ==> B.AllCoherent(d, mt)
    ensures View(d) == old(View(d))
    ensures G.DistinctIds(channel.members)
    ensures G.Value(channel) ==
      S.ModeSet(EnvOf(a, listed, names), a.src, if member == null then None else Some(old(member.status)),
                old(G.Value(channel)), a.parv).chan
  {
    hide Directory, B.AllCoherent, Linked, NoneEmpty, Consistent, OwnLists, Rooted, CountMode, G.Resolves, EnvOf, Chase,
      ChannelsOk, IdsOk, Distinct, View, S.ModeSet, G.DistinctIds, G.Value;
    ModeChannels(g, d, mt, channel, member, a, listed, names);
  }

  lemma MembersThere(d: Ircd, c: Channel)
    requires c in d.channelList
    ensures (set m | m in c.members) <= (set k, m | k in d.channelList && m in k.members :: m)
  {
  }

  /** Who is asking, as a member. */
  method MemberOf(d: Ircd, ghost mt: B.Matcher, u: Client?, channel: Channel, ghost conn: set<Client>, ghost now: nat)
    returns (member: ChannelMember?)
    requires Sane(d, conn, now) && LocalOk(d, conn) && ChannelsOk(d)
    requires channel in d.channelList && (u != null ==> u in d.people)
    ensures Sane(d, conn, now) && LocalOk(d, conn) && ChannelsOk(d)
    ensures old(B.AllCoherent(d, mt)) ==> B.AllCoherent(d, mt)
    ensures member != null ==> u != null && member in channel.members && member.client == u
    ensures member == null && u != null ==> !IsMember(View(d), u, channel)
    ensures View(d) == old(View(d))
  {
    hide Directory, B.Coherent, Linked, NoneEmpty, Consistent, OwnLists, Rooted, CountMode, C.NamesDistinct, Distinct,
      IsMember;
    member := null;
    if u != null {
      member := FindChannelLink(d, u, channel);
    }
  }

  /** A channel as the mode engine sees it, if its members have different ids. */
  ghost function ValueOf(c: Channel): Option<S.Channel>
    reads c`members, (set m | m in c.members)`status, c.mode, c.banlist, c.exceptlist, c.invexlist
  {
    if G.DistinctIds(c.members) then Some(G.Value(c)) else None
  }

  /** What each channel is before a MODE by u, and what u is on it. */
  datatype Before = Before(value: Option<S.Channel>, status: Option<set<char>>)

  ghost function AllBefore(d: Ircd, u: Client?): map<Channel, Before>
    reads d`channelList, Channels(d)`members, (set c, m | c in d.channelList && m in c.members :: m)`status
    reads (set c | c in d.channelList :: c.mode), (set c | c in d.channelList :: c.banlist)
    reads (set c | c in d.channelList :: c.exceptlist), (set c | c in d.channelList :: c.invexlist)
  {
    map c | c in Channels(d) :: Before(ValueOf(c), if u == null then None else StatusIn(c.members, u))
  }

  /** Every channel of that name has become what the mode string asks for. */
  ghost predicate Changed(d: Ircd, name: string, env: S.Env, src: S.Source, parv: seq<string>,
                          was: map<Channel, Before>)
    requires parv != []
    reads d`channelList, Channels(d)`members, (set c, m | c in d.channelList && m in c.members :: m)`status
    reads (set c | c in d.channelList :: c.mode), (set c | c in d.channelList :: c.banlist)
    reads (set c | c in d.channelList :: c.exceptlist), (set c | c in d.channelList :: c.invexlist)
  {
    forall c :: c in d.channelList && C.IsNamed(c, name) ==>
      && c in was && was[c].value.Some?
      && ValueOf(c) == Some(S.ModeSet(env, src, was[c].status, was[c].value.value, parv).chan)
  }

  lemma OneChanged(d: Ircd, channel: Channel, name: string, env: S.Env, src: S.Source, parv: seq<string>,
                   was: map<Channel, Before>)
    requires parv != [] && C.NamesDistinct(d.channelList) && channel in d.channelList && C.IsNamed(channel, name)
    requires channel in was && was[channel].value.Some?
    requires ValueOf(channel) == Some(S.ModeSet(env, src, was[channel].status, was[channel].value.value, parv).chan)
    ensures Changed(d, name, env, src, parv, was)
  {
    hide C.IsNamed, C.NamesDistinct, S.ModeSet, ValueOf;
    forall c | c in d.channelList && C.IsNamed(c, name) ensures c == channel {
      C.SameName(d.channelList, c, channel, name);
    }
  }

  lemma BeforeAt(d: Ircd, u: Client?, c: Channel, member: ChannelMember?)
    requires c in d.channelList && Linked(View(d)) && IdsOk(d.people)
    requires member != null ==> u != null && member in c.members && member.client == u
    requires member == null && u != null ==> !IsMember(View(d), u, c)
    ensures G.DistinctIds(c.members) && c in AllBefore(d, u) && AllBefore(d, u)[c].value == Some(G.Value(c))
    ensures AllBefore(d, u)[c].status == if member == null then None else Some(member.status)
  {
    hide Linked, G.DistinctIds, G.Value, IdsOk, StatusIn;
    IdsOnChannel(d, c);
    assert View(d).members[c] == c.members;
    MembersOnce(View(d), c);
    if u != null {
      StatusFound(c.members, u);
      assert member == null ==> forall m :: m in c.members ==> m.client != u;
    }
  }

  /** Looking for the membership changes nothing that the mode engine reads. */
  method MemberBefore(d: Ircd, ghost mt: B.Matcher, u: Client?, channel: Channel, ghost conn: set<Client>,
                      ghost now: nat)
    returns (member: ChannelMember?)
    requires Sane(d, conn, now) && LocalOk(d, conn) && ChannelsOk(d)
    requires channel in d.channelList && (u != null ==> u in d.people)
    ensures Sane(d, conn, now) && LocalOk(d, conn) && ChannelsOk(d)
    ensures old(B.AllCoherent(d, mt)) ==> B.AllCoherent(d, mt)
    ensures member != null ==> u != null && member in channel.members && member.client == u
    ensures member == null && u != null ==> !IsMember(View(d), u, channel)
    ensures View(d) == old(View(d)) && AllBefore(d, u) == old(AllBefore(d, u))
  {
    hide Sane, LocalOk, ChannelsOk, B.AllCoherent, IsMember, View, G.DistinctIds, G.Value;
    member := MemberOf(d, mt, u, channel, conn, now);
  }

  /** The same on the channel that was found. */
  method ModeThere(g: G.ModeGlobals, d: Ircd, mt: B.Matcher, channel: Channel, u: Client?,
                   member: ChannelMember?, name: string, a: Asked, listed: set<Client>, names: map<string, string>,
                   ghost conn: set<Client>, ghost now: nat)
    requires Sane(d, conn, now) && LocalOk(d, conn) && ChannelsOk(d) && IdsOk(d.people)
    requires channel in d.channelList && C.IsNamed(channel, name)
    requires member != null ==> u != null && member in channel.members && member.client == u
    requires member == null && u != null ==> !IsMember(View(d), u, channel)
    requires G.Resolves(EnvOf(a, listed, names), Chase(a.lookup, listed), d.people)
    requires g.changes.Length == L.IRCD_BUFSIZE && a.parv != [] && |a.parv[0]| < L.IRCD_BUFSIZE
    modifies g, g.changes, channel.mode, channel.banlist, channel.exceptlist, channel.invexlist
    modifies (set m | m in channel.members)
    ensures Sane(d, conn, now) && LocalOk(d, conn) && ChannelsOk(d) && View(d) == old(View(d))
    ensures old(B.AllCoherent(d, mt)) ==> B.AllCoherent(d, mt)
    ensures G.Resolves(EnvOf(a, listed, names), Chase(a.lookup, listed), d.people)
    ensures Changed(d, name, EnvOf(a, listed, names), a.src, a.parv, old(AllBefore(d, u)))
  {
    hide Sane, LocalOk, B.AllCoherent, Linked, G.Resolves, EnvOf, Chase, IdsOk, IsMember, View, AllBefore, Changed,
      S.ModeSet, G.Value, G.DistinctIds, C.NamesDistinct, C.IsNamed;
    ghost var was := AllBefore(d, u);
    SaneParts(d, conn, now);
    BeforeAt(d, u, channel, member);
    ModeOnly(g, d, mt, channel, member, a, listed, names, conn, now);
    OneChanged(d, channel, name, EnvOf(a, listed, names), a.src, a.parv, was);
  }

  /** MODE by a user, or by a server (`u` is null), on the channel of that name: it ends as the mode string asks for,
      read with the clients and names that the tables hold. */
  method ModeStep(g: G.ModeGlobals, d: Ircd, mt: B.Matcher, u: Client?, name: string, a: Asked,
                  ghost conn: set<Client>, ghost now: nat)
    returns (ghost env: S.Env)
    requires Sane(d, conn, now) && LocalOk(d, conn) && ChannelsOk(d) && IdsOk(d.people)
    requires g.changes.Length == L.IRCD_BUFSIZE && a.parv != [] && |a.parv[0]| < L.IRCD_BUFSIZE
    requires u != null ==> u in d.people
    modifies g, g.changes, (set c | c in d.channelList :: c.mode), MaskListsOf(Channels(d))
    modifies (set c, m | c in d.channelList && m in c.members :: m)
    ensures Sane(d, conn, now) && LocalOk(d, conn) && ChannelsOk(d)
    ensures old(B.AllCoherent(d, mt)) ==> B.AllCoherent(d, mt)
    ensures View(d) == old(View(d))
    ensures G.Resolves(env, Chase(a.lookup, set k | k in d.globalClients), d.people)
    ensures Changed(d, name, env, a.src, a.parv, old(AllBefore(d, u)))
  {
    hide Sane, LocalOk, ChannelsOk, B.AllCoherent, Linked, G.Resolves, EnvOf, Chase, IdsOk, View, AllBefore, Changed,
      C.IsNamed;
    ListedPeople(d, conn, now);
    var channel := C.FindChannel(d.channelList, name);
    var listed := set k | k in d.globalClients;
    var names := NamesById(d.globalClients, d.people);
    TablesResolve(a, listed, names, d.people);
    env := EnvOf(a, listed, names);
    if channel == null {
      NoneChanged(d, name, env, a.src, a.parv, AllBefore(d, u));
    } else {
      MembersThere(d, channel);
      var member := MemberBefore(d, mt, u, channel, conn, now);
      ModeThere(g, d, mt, channel, u, member, name, a, listed, names, conn, now);
    }
  }

  lemma NoneChanged(d: Ircd, name: string, env: S.Env, src: S.Source, parv: seq<string>, was: map<Channel, Before>)
    requires parv != [] && forall c :: c in d.channelList ==> !C.IsNamed(c, name)
    ensures Changed(d, name, env, src, parv, was)
  {
  }

  // ---------------------------------------------------------------- SVSNICK, OPER, SVSMODE

  /** The new nick, if nobody else has it; the counters stay right. */
  method RenameCounted(d: Ircd, mt: B.Matcher, u: Client, nick: string)
    requires Linked(View(d)) && u in d.people
    requires Distinct(d.globalClients) && Counted(d) && u in d.globalClients
    modifies u`name, u`umodes
    modifies (set m | m in u.channel)`banChecked, (set m | m in u.channel)`banSilenced,
      (set m | m in u.channel)`muteChecked
    ensures Counted(d) && u.name == nick
    ensures old(B.AllCoherent(d, mt)) ==> B.AllCoherent(d, mt)
    ensures 'o' in u.umodes <==> 'o' in old(u.umodes)
  {
    hide B.AllCoherent, Linked, CountMode, Distinct;
    O.CountedBy(d, u);
    ghost var opers, invisible := O.Others(d, u, 'o'), O.Others(d, u, 'i');
    B.SvsNick(d, mt, u, nick);
    assert O.Others(d, u, 'o') == opers && O.Others(d, u, 'i') == invisible;
    O.CountedBy(d, u);
  }

  method RenameStep(d: Ircd, mt: B.Matcher, u: Client, nick: string, ghost conn: set<Client>, ghost now: nat)
    requires Sane(d, conn, now) && LocalOk(d, conn) && ChannelsOk(d)
    requires u in d.globalClients && u in d.people
    modifies u`name, u`umodes
    modifies (set m | m in u.channel)`banChecked, (set m | m in u.channel)`banSilenced,
      (set m | m in u.channel)`muteChecked
    ensures Sane(d, conn, now) && LocalOk(d, conn) && ChannelsOk(d)
    ensures old(B.AllCoherent(d, mt)) ==> B.AllCoherent(d, mt)
    ensures View(d) == old(View(d)) && u.name == nick
  {
    hide GraphOk, B.AllCoherent, Rooted, Directory, C.NamesDistinct, Counted, Distinct, View;
    ghost var n, opers, s := Net(d), WithMode(d.people, 'o'), Nodes(d);
    ListedPeople(d, conn, now);
    SaneParts(d, conn, now);
    RenameCounted(d, mt, u, nick);
    assert WithMode(d.people, 'o') == opers;
    assert Nodes(d) == s;
    assert UsersOn(s) == n.users;
    assert LinksOn(s) == n.links;
  }

  /** hash_find_client, but for one client. */
  function OtherNamed(list: seq<Client>, u: Client, nick: string): (r: Client?)
    reads (set k | k in list)`name
    ensures r != null ==> r in list && r != u && SameFolded(r.name, nick)
    ensures r == null ==> forall k :: k in list && k != u ==> !SameFolded(k.name, nick)
  {
    if list == [] then null
    else
      assert forall k :: k in list ==> k == list[0] || k in list[1..];
      if list[0] != u && SameFolded(list[0].name, nick) then list[0] else OtherNamed(list[1..], u, nick)
  }

  /** Has anybody else the nick, up to folding? */
  ghost predicate Taken(d: Ircd, u: Client, nick: string)
    reads d`globalClients, d`globalServers
    reads (set k | k in d.globalClients)`name, (set k | k in d.globalServers)`name
  {
    || (exists k :: k in d.globalClients && k != u && SameFolded(k.name, nick))
    || (exists k :: k in d.globalServers && k != u && SameFolded(k.name, nick))
  }

  /** SVSNICK for a local user: it leaves if anybody else has the nick, and has it otherwise. */
  method SvsNickStep(d: Ircd, mt: B.Matcher, u: Client, nick: string, f: Failures, ghost conn: set<Client>,
                     ghost now: nat)
    returns (collided: bool)
    requires Sane(d, conn, now) && LocalOk(d, conn) && ChannelsOk(d) && AllIn(f, d.people, conn)
    requires u in d.globalClients && u in d.people && u.local && u in conn
    modifies d`globalClients, d`globalServers, d`deadList, d`countOper, d`countInvisi
    modifies d.people`clientList, d.people`serverList, d.people`dead
    modifies d`channelList, d.people`channel, d.people`invited
    modifies Channels(d)`members, Channels(d)`membersLocal, Channels(d)`invites, MaskListsOf(Channels(d))`masks
    modifies d`abortList, d`eacNext
    modifies conn`closing, d`operList, d`localClients, d`localServers
    modifies u`name, u`umodes, (set m | m in u.channel)
    ensures Sane(d, conn, now) && LocalOk(d, conn) && ChannelsOk(d)
    ensures old(B.AllCoherent(d, mt)) ==> B.AllCoherent(d, mt)
    ensures Things(View(d)) <= old(Things(View(d)))
    ensures collided <==> old(Taken(d, u, nick))
    ensures if collided then u.closing else u.name == nick
  {
    hide Sane, LocalOk, ChannelsOk, B.AllCoherent, AllIn, Things;
    collided := OtherNamed(d.globalClients, u, nick) != null || OtherNamed(d.globalServers, u, nick) != null;
    if collided {
      ExitStep(d, mt, u, f, conn, now);
    } else {
      RenameStep(d, mt, u, nick, conn, now);
    }
  }

  /** Other user modes leave the caches right if no mask looks at them. */
  lemma StillOk(mt: B.Matcher, c: Channel, m: ChannelMember, before: set<char>)
    requires B.BlindToModes(mt, m.client)
    requires B.WasRight(mt, c.banlist.masks, c.exceptlist.masks, m.client, B.Looks(m.client.name, before), B.CacheOf(m))
    ensures B.MemberOk(mt, c, m)
  {
    hide B.BlindToModes, B.WasRight, B.MemberOk;
    var u, bans, excepts := m.client, c.banlist.masks, c.exceptlist.masks;
    B.StaysRight(mt, bans, excepts, u, u.name, before, u.umodes, B.CacheOf(m));
    B.WasIsOk(mt, c, m);
  }

  /** OPER keeps the ban caches of such masks. */
  method OperCoherent(d: Ircd, mt: B.Matcher, u: Client, confModes: set<char>, operUmodes: set<char>, admin: bool,
                      ghost conn: set<Client>)
    requires Distinct(d.globalClients) && Counted(d) && LocalOk(d, conn)
    requires u in d.globalClients && u in d.people && u.local && 'o' !in u.umodes
    modifies u`umodes, d`countOper, d`countInvisi, d`operList
    ensures Counted(d) && LocalOk(d, conn)
    ensures old(B.AllCoherent(d, mt)) && B.BlindToModes(mt, u) ==> B.AllCoherent(d, mt)
    ensures d.operList == [u] + old(d.operList)
    ensures u.umodes == old(u.umodes) + {'o'} + (if confModes != {} then confModes else operUmodes) +
      if admin then {'a'} else {}
  {
    hide Counted, LocalOk, Distinct, B.BlindToModes, B.WasRight, O.SvsRun;
    ghost var before, right := u.umodes, B.AllCoherent(d, mt) && B.BlindToModes(mt, u);
    forall c, m | right && c in d.channelList && m in c.membersLocal
      ensures B.WasRight(mt, c.banlist.masks, c.exceptlist.masks, m.client, B.LooksOf(m.client), B.CacheOf(m))
    {
      B.WasIsOk(mt, c, m);
    }
    O.OperUp(d, u, confModes, operUmodes, admin, conn);
    forall c, m | right && c in d.channelList && m in c.membersLocal ensures B.MemberOk(mt, c, m) {
      if m.client == u { StillOk(mt, c, m, before); } else { B.WasIsOk(mt, c, m); }
    }
  }

  /** OPER by a local user that is no operator yet. */
  method OperStep(d: Ircd, mt: B.Matcher, u: Client, confModes: set<char>, operUmodes: set<char>, admin: bool,
                  ghost conn: set<Client>, ghost now: nat)
    requires Sane(d, conn, now) && LocalOk(d, conn) && ChannelsOk(d)
    requires u in d.globalClients && u in d.people && u.local && 'o' !in u.umodes
    modifies u`umodes, d`countOper, d`countInvisi, d`operList
    ensures Sane(d, conn, now) && LocalOk(d, conn) && ChannelsOk(d)
    ensures old(B.AllCoherent(d, mt)) && B.BlindToModes(mt, u) ==> B.AllCoherent(d, mt)
    ensures View(d) == old(View(d)) && d.operList == [u] + old(d.operList)
    ensures u.umodes == old(u.umodes) + {'o'} + (if confModes != {} then confModes else operUmodes) +
      if admin then {'a'} else {}
  {
    hide GraphOk, LocalOk, B.AllCoherent, Rooted, C.NamesDistinct, Counted, Distinct, B.BlindToModes, View, O.SvsRun;
    ListedPeople(d, conn, now);
    OperCoherent(d, mt, u, confModes, operUmodes, admin, conn);
  }

  /** SVSMODE keeps the ban caches of masks that do not look at user modes. */
  method SvsmodeCoherent(d: Ircd, mt: B.Matcher, u: Client, modes: string, operOnly: set<char>, ghost conn: set<Client>)
    requires Distinct(d.globalClients) && Counted(d) && LocalOk(d, conn)
    requires u in d.globalClients && u in d.people
    modifies u`umodes, d`countOper, d`countInvisi, d`lost, d`operList
    ensures Counted(d) && LocalOk(d, conn)
    ensures old(B.AllCoherent(d, mt)) && B.BlindToModes(mt, u) ==> B.AllCoherent(d, mt)
    ensures u.umodes == O.SvsRun(modes, true, O.Tally(old(u.umodes), 0, 0), u.local, operOnly).umodes
    ensures d.lost == old(d.lost) + O.Uncounted(modes, old(u.umodes), u.local, operOnly)
  {
    hide Counted, LocalOk, Distinct, B.BlindToModes, B.WasRight, O.SvsRun, O.Uncounted;
    ghost var before, right := u.umodes, B.AllCoherent(d, mt) && B.BlindToModes(mt, u);
    forall c, m | right && c in d.channelList && m in c.membersLocal
      ensures B.WasRight(mt, c.banlist.masks, c.exceptlist.masks, m.client, B.LooksOf(m.client), B.CacheOf(m))
    {
      B.WasIsOk(mt, c, m);
    }
    O.SvsmodeKeeps(d, u, modes, operOnly, conn);
    forall c, m | right && c in d.channelList && m in c.membersLocal ensures B.MemberOk(mt, c, m) {
      if m.client == u { StillOk(mt, c, m, before); } else { B.WasIsOk(mt, c, m); }
    }
  }

  /** SVSMODE for any user. */
  method SvsmodeStep(d: Ircd, mt: B.Matcher, u: Client, modes: string, operOnly: set<char>, ghost conn: set<Client>,
                     ghost now: nat)
    requires Sane(d, conn, now) && LocalOk(d, conn) && ChannelsOk(d)
    requires u in d.globalClients && u in d.people
    modifies u`umodes, d`countOper, d`countInvisi, d`lost, d`operList
    ensures Sane(d, conn, now) && LocalOk(d, conn) && ChannelsOk(d)
    ensures old(B.AllCoherent(d, mt)) && B.BlindToModes(mt, u) ==> B.AllCoherent(d, mt)
    ensures View(d) == old(View(d))
    ensures u.umodes == O.SvsRun(modes, true, O.Tally(old(u.umodes), 0, 0), u.local, operOnly).umodes
    ensures d.lost == old(d.lost) + O.Uncounted(modes, old(u.umodes), u.local, operOnly)
  {
    hide GraphOk, LocalOk, B.AllCoherent, Rooted, C.NamesDistinct, Counted, Distinct, B.BlindToModes, View, O.SvsRun,
      O.Uncounted;
    ListedPeople(d, conn, now);
    SvsmodeCoherent(d, mt, u, modes, operOnly, conn);
  }

  lemma ListedPeople(d: Ircd, conn: set<Client>, now: nat)
    requires Sane(d, conn, now)
    ensures forall k :: k in d.globalClients ==> k in d.people
    ensures OwnLists(Channels(d)) && Distinct(d.globalClients) && Counted(d)
  {
    hide Linked, NoneEmpty, Consistent, OwnLists, CountMode;
  }
}
