// JOIN and PART for one channel name.
module ChannelCommands {
  import opened Lists
  import opened Strings
  import opened Entities
  import opened Invites
  import opened Membership
  import opened BanCache

  // ---------------------------------------------------------------- finding a channel

  predicate IsNamed(c: Channel, name: string) {
    SameFolded(c.name, name)
  }

  /** No two listed channels have the same name. */
  ghost predicate NamesDistinct(channels: seq<Channel>) {
    forall i, j :: 0 <= i < j < |channels| ==> !SameFolded(channels[i].name, channels[j].name)
  }

  /** hash_find_channel */
  function FindChannel(channels: seq<Channel>, name: string): (channel: Channel?)
    ensures channel != null ==> channel in channels && IsNamed(channel, name)
    ensures channel == null ==> forall c :: c in channels ==> !IsNamed(c, name)
  {
    if channels == [] then null
    else
      assert forall c :: c in channels ==> c == channels[0] || c in channels[1..];
      if IsNamed(channels[0], name) then channels[0] else FindChannel(channels[1..], name)
  }

  // ---------------------------------------------------------------- can_join

  datatype JoinVerdict = MayJoin | SecureOnly | NeedRegged | OperOnly | InviteOnly | BadKey | Full | BannedFrom

  ghost predicate Invited(channel: Channel, u: Client, now: nat, ttl: nat)
    reads channel`invites
  {
    exists i :: i in channel.invites && Wanted(i, channel, u, now, ttl)
  }

  /** The verdict, with the checks in the order in which they decide; `joinBan` is the outcome of the extended bans
      against joining. */
  ghost function Verdict(mt: Matcher, c: Channel, u: Client, key: Option<string>, invited: bool,
      joinBan: bool): JoinVerdict
    reads c.mode, c`members, c.banlist, c.exceptlist, c.invexlist, u`umodes, u`name
  {
    if 'S' in c.mode.modes && 'S' !in u.umodes then SecureOnly
    else if 'R' in c.mode.modes && 'r' !in u.umodes then NeedRegged
    else if 'O' in c.mode.modes && 'o' !in u.umodes then OperOnly
    else if 'i' in c.mode.modes && !invited && !AnyHit(mt, General, c.invexlist.masks, u, LooksOf(u)) then InviteOnly
    else LaterVerdict(mt, c, u, key, joinBan)
  }

  ghost function LaterVerdict(mt: Matcher, c: Channel, u: Client, key: Option<string>, joinBan: bool): JoinVerdict
    reads c.mode, c`members, c.banlist, c.exceptlist, u`name, u`umodes
  {
    if c.mode.key != "" && key != Some(c.mode.key) then BadKey
    else if c.mode.limit > 0 && |c.members| >= c.mode.limit then Full
    else if Banned(mt, c, u) || joinBan then BannedFrom
    else MayJoin
  }

  /** How somebody stands with a channel: secure, registered and an operator if the channel asks for it, invited, with
      the key, with room left, and banned. */
  datatype Standing = Standing(secure: bool, registered: bool, oper: bool, invited: bool, keyed: bool, room: bool,
                               banned: bool)

  ghost function StandingOf(mt: Matcher, c: Channel, u: Client, key: Option<string>, now: nat, ttl: nat): Standing
    reads c.mode, c`members, c`invites, c.banlist, c.exceptlist, c.invexlist, u`umodes, u`name
  {
    var modes, bans, excepts, invexes := c.mode.modes, c.banlist.masks, c.exceptlist.masks, c.invexlist.masks;
    var l := Looks(u.name, u.umodes);
    Standing(
      'S' in modes ==> 'S' in u.umodes, 'R' in modes ==> 'r' in u.umodes, 'O' in modes ==> 'o' in u.umodes,
      'i' in modes ==>
        || (exists i :: i in c.invites && i.channel == c && i.client == u && (ttl == 0 || now <= i.when + ttl))
        || (exists j :: 0 <= j < |invexes| && !mt.acting(invexes[j]) && mt.hit(invexes[j], u, l)),
      c.mode.key == "" || key == Some(c.mode.key), c.mode.limit == 0 || |c.members| < c.mode.limit,
      && (exists j :: 0 <= j < |bans| && !mt.acting(bans[j]) && mt.hit(bans[j], u, l))
      && !(exists j :: 0 <= j < |excepts| && !mt.acting(excepts[j]) && mt.hit(excepts[j], u, l)))
  }

  /** Who may join: whoever fails no check. */
  predicate MayEnterWith(s: Standing, joinBan: bool) {
    s.secure && s.registered && s.oper && s.invited && s.keyed && s.room && !s.banned && !joinBan
  }

  /** The answer names the first check that fails. */
  predicate Answers(s: Standing, joinBan: bool, v: JoinVerdict) {
    && (v.MayJoin? <==> MayEnterWith(s, joinBan))
    && (v.SecureOnly? <==> !s.secure)
    && (v.NeedRegged? <==> s.secure && !s.registered)
    && (v.OperOnly? <==> s.secure && s.registered && !s.oper)
    && (v.InviteOnly? <==> s.secure && s.registered && s.oper && !s.invited)
    && (v.BadKey? <==> s.secure && s.registered && s.oper && s.invited && !s.keyed)
    && (v.Full? <==> s.secure && s.registered && s.oper && s.invited && s.keyed && !s.room)
    && (v.BannedFrom? <==>
         s.secure && s.registered && s.oper && s.invited && s.keyed && s.room && (s.banned || joinBan))
  }

  lemma VerdictAnswers(mt: Matcher, c: Channel, u: Client, key: Option<string>, joinBan: bool, now: nat, ttl: nat)
    requires c.mode.limit >= 0
    ensures Answers(StandingOf(mt, c, u, key, now, ttl), joinBan,
                    Verdict(mt, c, u, key, Invited(c, u, now, ttl), joinBan))
  {
    var invexes, l := c.invexlist.masks, LooksOf(u);
    assert AnyHit(mt, General, invexes, u, l) <==>
      exists j :: 0 <= j < |invexes| && !mt.acting(invexes[j]) && mt.hit(invexes[j], u, l);
    BannedMeans(mt, c, u);
    InvitedMeans(c, u, now, ttl);
  }

  lemma BannedMeans(mt: Matcher, c: Channel, u: Client)
    ensures var bans, excepts, l := c.banlist.masks, c.exceptlist.masks, Looks(u.name, u.umodes);
      Banned(mt, c, u) <==>
        && (exists j :: 0 <= j < |bans| && !mt.acting(bans[j]) && mt.hit(bans[j], u, l))
        && !(exists j :: 0 <= j < |excepts| && !mt.acting(excepts[j]) && mt.hit(excepts[j], u, l))
  {
  }

  lemma InvitedMeans(c: Channel, u: Client, now: nat, ttl: nat)
    ensures Invited(c, u, now, ttl) <==>
      exists i :: i in c.invites && i.channel == c && i.client == u && (ttl == 0 || now <= i.when + ttl)
  {
    if Invited(c, u, now, ttl) {
      var i :| i in c.invites && Wanted(i, c, u, now, ttl);
      assert i in c.invites && i.channel == c && i.client == u && (ttl == 0 || now <= i.when + ttl);
    }
    if i :| i in c.invites && i.channel == c && i.client == u && (ttl == 0 || now <= i.when + ttl) {
      assert Wanted(i, c, u, now, ttl);
    }
  }

  method KeyLimitBan(mt: Matcher, c: Channel, u: Client, key: Option<string>, joinBan: bool) returns (v: JoinVerdict)
    requires c.mode.limit >= 0
    ensures v == LaterVerdict(mt, c, u, key, joinBan)
  {
    hide Excluded, AnyHit;
    if c.mode.key != "" && (key.None? || c.mode.key != key.value) {
      return BadKey;
    }
    if c.mode.limit != 0 && |c.members| >= c.mode.limit {
      return Full;
    }
    var banned := IsBanned(mt, c, u);
    return if banned || joinBan then BannedFrom else MayJoin;
  }

  /** The invite-only check: an invite that has not expired, or an entry of the invite list. */
  method InviteAllows(ghost d: Ircd, mt: Matcher, c: Channel, u: Client, now: nat, ttl: nat) returns (ok: bool)
    requires Consistent(InviteView(d), now) && c in d.channelList && u in d.people && u.local
    modifies d.people`invited, Channels(d)`invites
    ensures ok <==> old(Invited(c, u, now, ttl)) || AnyHit(mt, General, c.invexlist.masks, u, LooksOf(u))
    ensures Consistent(InviteView(d), now) && OthersKept(old(InviteView(d)), InviteView(d), u, now, ttl)
  {
    hide Consistent, Drop, AnyHit, Wanted, Expired, OthersKept;
    ghost var g := InviteView(d);
    var invite, gone := InviteFind(d, c, u, now, ttl);
    OthersKeptDrop(g, gone, u, now, ttl);
    ok := true;
    if invite == null {
      ok := FindBmask(mt, u, c.invexlist.masks, General);
    }
  }

  /** can_join: the answer names the first check that fails. Looking for an invite deletes expired ones on the way and
      nothing else. */
  method CanJoin(ghost d: Ircd, mt: Matcher, c: Channel, u: Client, key: Option<string>, joinBan: bool, now: nat,
      ttl: nat)
    returns (v: JoinVerdict)
    requires Consistent(InviteView(d), now) && c in d.channelList && u in d.people && u.local && c.mode.limit >= 0
    modifies d.people`invited, Channels(d)`invites
    ensures v == Verdict(mt, c, u, key, old(Invited(c, u, now, ttl)), joinBan)
    ensures Answers(old(StandingOf(mt, c, u, key, now, ttl)), joinBan, v)
    ensures Consistent(InviteView(d), now) && OthersKept(old(InviteView(d)), InviteView(d), u, now, ttl)
  {
    hide Consistent, Verdict, OthersKept, Answers, StandingOf, Invited, InviteView;
    VerdictAnswers(mt, c, u, key, joinBan, now, ttl);
    v := Checks(d, mt, c, u, key, joinBan, now, ttl);
  }

  /** Its checks, one after the other. */
  method Checks(ghost d: Ircd, mt: Matcher, c: Channel, u: Client, key: Option<string>, joinBan: bool, now: nat,
                ttl: nat)
    returns (v: JoinVerdict)
    requires Consistent(InviteView(d), now) && c in d.channelList && u in d.people && u.local && c.mode.limit >= 0
    modifies d.people`invited, Channels(d)`invites
    ensures v == Verdict(mt, c, u, key, old(Invited(c, u, now, ttl)), joinBan)
    ensures Consistent(InviteView(d), now) && OthersKept(old(InviteView(d)), InviteView(d), u, now, ttl)
  {
    hide Consistent, AnyHit, Excluded, OthersKept, InviteView;
    OthersKeptSelf(InviteView(d), u, now, ttl);
    if 'S' in c.mode.modes && 'S' !in u.umodes {
      return SecureOnly;
    }
    if 'R' in c.mode.modes && 'r' !in u.umodes {
      return NeedRegged;
    }
    if 'O' in c.mode.modes && 'o' !in u.umodes {
      return OperOnly;
    }
    if 'i' in c.mode.modes {
      var ok := InviteAllows(d, mt, c, u, now, ttl);
      if !ok {
        return InviteOnly;
      }
    }
    v := KeyLimitBan(mt, c, u, key, joinBan);
  }

  // ---------------------------------------------------------------- JOIN

  /** A new channel has no invites yet. */
  lemma NewChannelConsistent(g: InviteGraph, c: Channel, now: nat)
    requires Consistent(g, now) && c !in g.ofChannel
    ensures Consistent(g.(ofChannel := g.ofChannel[c := []]), now)
  {
    var h := g.(ofChannel := g.ofChannel[c := []]);
    forall k | k in h.ofChannel ensures ChannelConsistent(h, k, now) {
      if k != c { assert ChannelConsistent(g, k, now); }
    }
    forall u | u in h.ofClient ensures ClientConsistent(h, u, now) {
      assert ClientConsistent(g, u, now);
    }
  }

  lemma JoinedNotEmpty(g: Graph, c: Channel, m: ChannelMember)
    requires NoneEmpty(g) && c !in g.members && m.channel == c && m.client in g.on && c in Make(g, c).local
    ensures NoneEmpty(Membership.Join(Make(g, c), m))
  {
  }

  lemma OwnListsMore(d: Ircd, cs: set<Channel>, c: Channel)
    requires OwnLists(cs) && c.SeparateLists() && Channels(d) == cs + {c}
    requires forall a :: a in cs ==> NoneShared(a, c)
    ensures OwnLists(Channels(d))
  {
    forall a, b | a in cs + {c} && b in cs + {c} && a != b ensures NoneShared(a, b) {
      if a in cs && b in cs { ListsApart(cs, a, b); }
      if b in cs { assert NoneShared(b, c); }
    }
  }

  /** channel_make, with what the invites and the names rely on. */
  method MakeChannel(d: Ircd, name: string, ghost now: nat) returns (channel: Channel)
    requires Linked(View(d)) && Consistent(InviteView(d), now) && OwnLists(Channels(d))
    modifies d`channelList
    ensures Linked(View(d)) && Consistent(InviteView(d), now) && OwnLists(Channels(d))
    ensures fresh(channel) && fresh(channel.mode) && channel.name == name
    ensures fresh(channel.banlist) && fresh(channel.exceptlist) && fresh(channel.invexlist)
    ensures channel.mode.modes == {} && channel.mode.key == "" && channel.mode.limit == 0
    ensures channel.banlist.masks == [] && channel.exceptlist.masks == [] && channel.invexlist.masks == []
    ensures d.channelList == [channel] + old(d.channelList) && View(d) == Make(old(View(d)), channel)
    ensures channel !in old(InviteView(d)).ofChannel
    ensures InviteView(d) == old(InviteView(d)).(ofChannel := old(InviteView(d)).ofChannel[channel := []])
  {
    hide Linked, NoneEmpty, Consistent, Distinct, OwnLists, View;
    ghost var w, cs := InviteView(d), Channels(d);
    channel := ChannelMake(d, name);
    assert Channels(d) == cs + {channel};
    assert InviteView(d) == w.(ofChannel := w.ofChannel[channel := []]);
    NewChannelConsistent(w, channel, now);
    OwnListsMore(d, cs, channel);
  }

  /** The channel is made, with the usual modes, and its maker is its operator. */
  method Found(d: Ircd, u: Client, name: string, ghost now: nat) returns (member: ChannelMember)
    requires GraphOk(d, now) && u in d.people && !u.server
    requires NamesDistinct(d.channelList) && forall c :: c in d.channelList ==> !IsNamed(c, name)
    modifies d`channelList, u`channel
    ensures GraphOk(d, now) && NamesDistinct(d.channelList)
    ensures fresh(member) && fresh(member.channel) && fresh(member.channel.mode)
    ensures member.client == u && member.status == {'o'} && member.Unasked()
    ensures fresh(member.channel.banlist) && fresh(member.channel.exceptlist) && fresh(member.channel.invexlist)
    ensures member.channel.name == name && member.channel.mode.modes == {'t', 'n'}
    ensures MasksOf(member.channel) == ([], [], []) && member.channel.mode.key == "" && member.channel.mode.limit == 0
    ensures d.channelList == [member.channel] + old(d.channelList)
    ensures member.channel in Make(old(View(d)), member.channel).members && u in old(View(d)).on
    ensures View(d) == Membership.Join(Make(old(View(d)), member.channel), member)
    ensures forall ttl: nat :: OthersKept(old(InviteView(d)), InviteView(d), u, now, ttl)
  {
    hide Linked, OwnLists, NoneEmpty, Consistent, Distinct, InviteView, OthersKept;
    ghost var g, w := View(d), InviteView(d);
    var channel := MakeChannel(d, name, now);
    NobodyYet(g, u, channel);
    member := EnterFirst(d, u, channel);
    JoinedNotEmpty(g, channel, member);
    NamesStayDistinct(channel, old(d.channelList), name);
    forall ttl: nat ensures OthersKept(w, InviteView(d), u, now, ttl) { NewChannelKept(w, channel, u, now, ttl); }
  }

  lemma NewChannelKept(w: InviteGraph, c: Channel, u: Client, now: nat, ttl: nat)
    requires Consistent(w, now) && c !in w.ofChannel
    ensures OthersKept(w, w.(ofChannel := w.ofChannel[c := []]), u, now, ttl)
  {
    OthersKeptSelf(w, u, now, ttl);
  }

  /** The maker enters as operator, and the channel gets the usual modes. */
  method EnterFirst(d: Ircd, u: Client, channel: Channel) returns (member: ChannelMember)
    requires Linked(View(d)) && channel in d.channelList && u in d.people && !u.server && !IsMember(View(d), u, channel)
    modifies channel`members, channel`membersLocal, u`channel, channel.mode`modes
    ensures fresh(member) && member.client == u && member.channel == channel
    ensures member.status == {'o'} && member.Unasked()
    ensures View(d) == Membership.Join(old(View(d)), member) && Linked(View(d)) && InviteView(d) == old(InviteView(d))
    ensures channel.mode.modes == old(channel.mode.modes) + {'t', 'n'}
  {
    hide Linked, OwnLists, IsMember, Membership.Join, Distinct, InviteView;
    member := AddOperator(d, u, channel);
    ghost var v := View(d);
    AddUsualModes(channel);
    assert View(d) == v;
  }

  method AddOperator(d: Ircd, u: Client, channel: Channel) returns (member: ChannelMember)
    requires Linked(View(d)) && channel in d.channelList && u in d.people && !u.server && !IsMember(View(d), u, channel)
    modifies channel`members, channel`membersLocal, u`channel
    ensures fresh(member) && member.client == u && member.channel == channel
    ensures member.status == {'o'} && member.Unasked()
    ensures View(d) == Membership.Join(old(View(d)), member) && Linked(View(d)) && InviteView(d) == old(InviteView(d))
  {
    hide Linked, OwnLists, IsMember, Membership.Join, Distinct, View;
    member := AddUserToChannel(d, channel, u, {'o'});
  }

  method AddUsualModes(channel: Channel)
    modifies channel.mode`modes
    ensures channel.mode.modes == old(channel.mode.modes) + {'t', 'n'}
  {
    channel.mode.modes := channel.mode.modes + {'t'};
    channel.mode.modes := channel.mode.modes + {'n'};
  }

  lemma NamesStayDistinct(c: Channel, channels: seq<Channel>, name: string)
    requires NamesDistinct(channels) && c.name == name && forall k :: k in channels ==> !IsNamed(k, name)
    ensures NamesDistinct([c] + channels)
  {
    assert forall i :: 0 <= i < |channels| ==> channels[i] in channels;
  }

  lemma NobodyYet(g: Graph, u: Client, c: Channel)
    ensures !IsMember(Make(g, c), u, c)
  {
  }

  /** An admitted user enters a channel that others are on. */
  method EnterExisting(d: Ircd, u: Client, channel: Channel, ghost now: nat) returns (member: ChannelMember)
    requires GraphOk(d, now) && channel in d.channelList && u in d.people && !u.server && !IsMember(View(d), u, channel)
    modifies channel`members, channel`membersLocal, u`channel
    ensures GraphOk(d, now) && fresh(member) && member.client == u && member.channel == channel && member.status == {}
    ensures member.Unasked()
    ensures View(d) == Membership.Join(old(View(d)), member) && InviteView(d) == old(InviteView(d))
  {
    hide Linked, OwnLists, IsMember, Consistent, NoneEmpty, Distinct, InviteView, Membership.Join;
    ghost var g := View(d);
    NotEmptied(d, channel, now);
    var flags: set<char> := if |channel.members| == 0 then {'o'} else {};
    member := AddUserToChannel(d, channel, u, flags);
    StillNoneEmpty(g, member);
  }

  /** A channel that is found has members: the daemon has no persistent channels. */
  lemma NotEmptied(d: Ircd, channel: Channel, now: nat)
    requires GraphOk(d, now) && channel in d.channelList
    ensures channel.members != []
  {
    assert View(d).members[channel] == channel.members;
  }

  lemma StillNoneEmpty(g: Graph, m: ChannelMember)
    requires NoneEmpty(g) && m.channel in g.members && m.channel in g.local && m.client in g.on
    ensures NoneEmpty(Membership.Join(g, m))
  {
  }

  /** The invite, if one has not expired, is used up: afterwards the user has none for the channel. */
  method UseInvite(ghost d: Ircd, channel: Channel, u: Client, now: nat, ttl: nat)
    requires Consistent(InviteView(d), now) && channel in d.channelList && u in d.people && u.local
    modifies d.people`invited, Channels(d)`invites
    ensures Consistent(InviteView(d), now) && OthersKept(old(InviteView(d)), InviteView(d), u, now, ttl)
    ensures channel in InviteView(d).ofChannel && !Pending(InviteView(d), channel, u)
  {
    hide Consistent, Drop, Pending, Expired, OthersKept;
    ghost var g := InviteView(d);
    var invite, gone := InviteFind(d, channel, u, now, ttl);
    OthersKeptDrop(g, gone, u, now, ttl);
    if invite != null {
      DropTwice(g, gone, {invite});
      OthersKeptDrop(g, gone + {invite}, u, now, ttl);
      OnlyOnePending(InviteView(d), invite, now);
      HungHere(d, invite);
      InviteDel(d, invite, now);
    }
  }

  lemma HungHere(d: Ircd, invite: Invite)
    requires Hung(InviteView(d), invite)
    ensures invite.channel in d.channelList && invite.client in d.people
  {
  }

  /** What a JOIN for one name may come to. */
  datatype JoinResult = BadName | TooMany | AlreadyOn | Denied(v: JoinVerdict)
    | Entered(member: ChannelMember, founded: bool)

  /** What can_join would say about each channel. */
  ghost function Verdicts(d: Ircd, mt: Matcher, u: Client, key: Option<string>, joinBan: bool, now: nat, ttl: nat)
    : map<Channel, JoinVerdict>
    reads d`channelList, Channels(d)`members, Channels(d)`invites, (set c | c in d.channelList :: c.mode)
    reads (set c | c in d.channelList :: c.banlist), (set c | c in d.channelList :: c.exceptlist)
    reads (set c | c in d.channelList :: c.invexlist), u`umodes, u`name
  {
    map c | c in Channels(d) :: Verdict(mt, c, u, key, Invited(c, u, now, ttl), joinBan)
  }

  /** On the channel of that name, if there is one, the user is already, or enters if can_join allows it and is refused
      for the reason it gives otherwise. */
  ghost predicate Decided(r: JoinResult, g: Graph, verdicts: map<Channel, JoinVerdict>, u: Client, name: string) {
    forall c :: c in g.members && c in verdicts && IsNamed(c, name) ==>
      && (r.AlreadyOn? <==> IsMember(g, u, c))
      && (r.Entered? <==> !IsMember(g, u, c) && verdicts[c].MayJoin?)
      && (r.Denied? ==> r.v == verdicts[c])
      && (r.Entered? ==> r.member.channel == c)
  }

  /** How the user stands with each channel. */
  ghost function Standings(d: Ircd, mt: Matcher, u: Client, key: Option<string>, now: nat, ttl: nat)
    : map<Channel, Standing>
    reads d`channelList, Channels(d)`members, Channels(d)`invites, (set c | c in d.channelList :: c.mode)
    reads (set c | c in d.channelList :: c.banlist), (set c | c in d.channelList :: c.exceptlist)
    reads (set c | c in d.channelList :: c.invexlist), u`umodes, u`name
  {
    map c | c in Channels(d) :: StandingOf(mt, c, u, key, now, ttl)
  }

  lemma StandingsAnswer(d: Ircd, mt: Matcher, u: Client, key: Option<string>, joinBan: bool, now: nat, ttl: nat)
    requires forall c :: c in d.channelList ==> c.mode.limit >= 0
    ensures var standings, verdicts := Standings(d, mt, u, key, now, ttl), Verdicts(d, mt, u, key, joinBan, now, ttl);
      && (forall c :: c in standings ==> c in verdicts && Answers(standings[c], joinBan, verdicts[c]))
      && (forall c :: c in d.channelList ==> c in standings)
  {
    hide StandingOf, Verdict, Answers, Invited;
    forall c | c in d.channelList
      ensures Answers(StandingOf(mt, c, u, key, now, ttl), joinBan,
                      Verdict(mt, c, u, key, Invited(c, u, now, ttl), joinBan))
    {
      VerdictAnswers(mt, c, u, key, joinBan, now, ttl);
    }
  }

  /** What becomes of a JOIN to the channel of that name, if there is one: who is on it stays, who fails no check enters
      it, and anybody else is told the first check that failed. */
  ghost predicate Admitted(r: JoinResult, g: Graph, standings: map<Channel, Standing>, joinBan: bool, u: Client,
                           name: string) {
    forall c :: c in g.members && c in standings && IsNamed(c, name) ==>
      && (r.AlreadyOn? <==> IsMember(g, u, c))
      && (r.Entered? <==> !IsMember(g, u, c) && MayEnterWith(standings[c], joinBan))
      && (r.Denied? <==> !IsMember(g, u, c) && !MayEnterWith(standings[c], joinBan))
      && (r.Denied? ==> Answers(standings[c], joinBan, r.v))
      && (r.Entered? ==> r.member.channel == c)
  }

  lemma DecidedAdmits(r: JoinResult, g: Graph, verdicts: map<Channel, JoinVerdict>, standings: map<Channel, Standing>,
                      joinBan: bool, u: Client, name: string)
    requires Decided(r, g, verdicts, u, name) && (r.AlreadyOn? || r.Denied? || r.Entered?)
    requires forall c :: c in standings ==> c in verdicts && Answers(standings[c], joinBan, verdicts[c])
    ensures Admitted(r, g, standings, joinBan, u, name)
  {
    hide IsNamed, IsMember;
  }

  /** The graph gained this membership and, if the channel was founded for it, the channel. */
  ghost predicate Joined(g: Graph, g': Graph, m: ChannelMember, founded: bool) {
    var h := if founded then Make(g, m.channel) else g;
    m.channel in h.members && m.channel in h.local && m.client in h.on && g' == Membership.Join(h, m)
  }

  lemma SameName(channels: seq<Channel>, a: Channel, b: Channel, name: string)
    requires NamesDistinct(channels) && a in channels && b in channels && IsNamed(a, name) && IsNamed(b, name)
    ensures a == b
  {
    assert SameFolded(a.name, b.name) && SameFolded(b.name, a.name);
  }

  lemma OnlyOneDecides(d: Ircd, g: Graph, r: JoinResult, verdicts: map<Channel, JoinVerdict>, u: Client, name: string,
                       c: Channel)
    requires NamesDistinct(g.channels) && c in g.channels && IsNamed(c, name) && c in g.members && c in verdicts
    requires WellTyped(g)
    requires (r.AlreadyOn? <==> IsMember(g, u, c)) && (r.Entered? <==> !IsMember(g, u, c) && verdicts[c].MayJoin?)
    requires (r.Denied? ==> r.v == verdicts[c]) && (r.Entered? ==> r.member.channel == c)
    ensures Decided(r, g, verdicts, u, name)
  {
    hide IsMember, NamesDistinct, IsNamed;
    forall k | k in g.members && k in verdicts && IsNamed(k, name) ensures k == c { SameName(g.channels, k, c, name); }
  }

  /** What happens if nothing stops the user: into the channel of that name, or into a new one. */
  method EnterNamed(d: Ircd, mt: Matcher, u: Client, name: string, key: Option<string>, joinBan: bool, now: nat,
                    ttl: nat)
    returns (r: JoinResult)
    requires GraphOk(d, now) && NamesDistinct(d.channelList) && u in d.people && u.local && !u.server
    requires forall c :: c in d.channelList ==> c.mode.limit >= 0
    modifies d`channelList, u`channel, d.people`invited, Channels(d)`invites, Channels(d)`members,
      Channels(d)`membersLocal
    ensures GraphOk(d, now) && NamesDistinct(d.channelList)
    ensures r.AlreadyOn? || r.Denied? || r.Entered?
    ensures Decided(r, old(View(d)), old(Verdicts(d, mt, u, key, joinBan, now, ttl)), u, name)
    ensures !r.Entered? ==> View(d) == old(View(d))
    ensures r.Entered? ==> r.member.client == u && IsNamed(r.member.channel, name) && r.member.channel in d.channelList
    ensures r.Entered? ==> Joined(old(View(d)), View(d), r.member, r.founded) && fresh(r.member) && r.member.Unasked()
    ensures r.Entered? && r.founded <==> forall c :: c in old(d.channelList) ==> !IsNamed(c, name)
    ensures d.channelList == if r.Entered? && r.founded then [r.member.channel] + old(d.channelList)
      else old(d.channelList)
    ensures r.Entered? && !r.founded ==> r.member.status == {}
    ensures r.Entered? && r.founded ==> (
      && fresh(r.member.channel) && fresh(r.member.channel.mode)
      && fresh(r.member.channel.banlist) && fresh(r.member.channel.exceptlist) && fresh(r.member.channel.invexlist)
      && MasksOf(r.member.channel) == ([], [], []) && r.member.channel.mode.limit == 0
      && r.member.status == {'o'} && r.member.channel.mode.modes == {'t', 'n'})
    ensures OthersKept(old(InviteView(d)), InviteView(d), u, now, ttl)
  {
    hide Linked, OwnLists, IsMember, Consistent, NoneEmpty, Distinct, Membership.Join, AnyHit, Excluded;
    hide NamesDistinct, Verdicts, Decided, OthersKept, InviteView;
    ghost var g, verdicts := View(d), Verdicts(d, mt, u, key, joinBan, now, ttl);
    ViewTyped(d);
    var channel := FindChannel(d.channelList, name);
    if channel == null {
      var m := Found(d, u, name, now);
      r := Entered(m, true);
      NobodyDecides(r, g, verdicts, u, name);
    } else {
      r := EnterAt(d, mt, channel, u, name, key, joinBan, now, ttl);
    }
  }

  lemma NobodyDecides(r: JoinResult, g: Graph, verdicts: map<Channel, JoinVerdict>, u: Client, name: string)
    requires WellTyped(g) && forall c :: c in g.channels ==> !IsNamed(c, name)
    ensures Decided(r, g, verdicts, u, name)
  {
    hide IsNamed;
  }

  /** Into a channel that the user is not on, if can_join allows it. */
  method EnterFound(d: Ircd, mt: Matcher, channel: Channel, u: Client, key: Option<string>, joinBan: bool, now: nat,
                    ttl: nat)
    returns (r: JoinResult)
    requires GraphOk(d, now) && channel in d.channelList && u in d.people && u.local && !u.server
    requires !IsMember(View(d), u, channel) && channel.mode.limit >= 0
    modifies u`channel, d.people`invited, Channels(d)`invites, channel`members, channel`membersLocal
    ensures GraphOk(d, now)
    ensures var v := old(Verdict(mt, channel, u, key, Invited(channel, u, now, ttl), joinBan));
      if v.MayJoin? then r.Entered? && !r.founded else r == Denied(v)
    ensures !r.Entered? ==> View(d) == old(View(d))
    ensures r.Entered? ==> (
      && r.member.client == u && r.member.channel == channel && r.member.status == {} && fresh(r.member)
      && r.member.Unasked() && Joined(old(View(d)), View(d), r.member, false))
    ensures OthersKept(old(InviteView(d)), InviteView(d), u, now, ttl)
  {
    hide Linked, OwnLists, IsMember, Consistent, NoneEmpty, Distinct, Membership.Join, AnyHit, Excluded, Verdict;
    hide OthersKept, InviteView;
    var v := MayEnter(d, mt, channel, u, key, joinBan, now, ttl);
    if !v.MayJoin? {
      return Denied(v);
    }
    var m := EnterExisting(d, u, channel, now);
    r := Entered(m, false);
  }

  /** Into the channel of that name. */
  method EnterAt(d: Ircd, mt: Matcher, channel: Channel, u: Client, name: string, key: Option<string>, joinBan: bool,
                 now: nat, ttl: nat)
    returns (r: JoinResult)
    requires GraphOk(d, now) && NamesDistinct(d.channelList) && u in d.people && u.local && !u.server
    requires channel in d.channelList && IsNamed(channel, name) && channel.mode.limit >= 0
    modifies u`channel, d.people`invited, Channels(d)`invites, channel`members, channel`membersLocal
    ensures GraphOk(d, now) && (r.AlreadyOn? || r.Denied? || (r.Entered? && !r.founded))
    ensures Decided(r, old(View(d)), old(Verdicts(d, mt, u, key, joinBan, now, ttl)), u, name)
    ensures !r.Entered? ==> View(d) == old(View(d))
    ensures r.Entered? ==> (
      && r.member.client == u && r.member.channel == channel && r.member.status == {} && fresh(r.member)
      && r.member.Unasked() && Joined(old(View(d)), View(d), r.member, false))
    ensures OthersKept(old(InviteView(d)), InviteView(d), u, now, ttl)
  {
    hide Linked, OwnLists, IsMember, Consistent, NoneEmpty, Distinct, Membership.Join, AnyHit, Excluded, Verdict;
    hide NamesDistinct, Decided, Joined, IsNamed, Verdicts, Invited, OthersKept, InviteView, View, MasksOf;
    OthersKeptSelf(InviteView(d), u, now, ttl);
    ghost var g, verdicts := View(d), Verdicts(d, mt, u, key, joinBan, now, ttl);
    ViewTyped(d);
    HasMembers(d, channel);
    var link := FindChannelLink(d, u, channel);
    assert View(d) == g;
    assert Verdicts(d, mt, u, key, joinBan, now, ttl) == verdicts;
    VerdictAt(d, mt, channel, u, key, joinBan, now, ttl);
    if link != null {
      r := AlreadyOn;
    } else {
      r := EnterFound(d, mt, channel, u, key, joinBan, now, ttl);
    }
    OnlyOneDecides(d, g, r, verdicts, u, name, channel);
  }

  lemma VerdictAt(d: Ircd, mt: Matcher, c: Channel, u: Client, key: Option<string>, joinBan: bool, now: nat, ttl: nat)
    requires c in d.channelList
    ensures c in Verdicts(d, mt, u, key, joinBan, now, ttl)
    ensures Verdicts(d, mt, u, key, joinBan, now, ttl)[c] ==
      Verdict(mt, c, u, key, Invited(c, u, now, ttl), joinBan)
  {
    hide Verdict, Invited;
  }

  lemma ViewTyped(d: Ircd)
    requires Linked(View(d))
    ensures WellTyped(View(d)) && View(d).channels == d.channelList
  {
  }

  lemma HasMembers(d: Ircd, c: Channel)
    requires Linked(View(d)) && c in d.channelList
    ensures c in View(d).members
  {
  }

  /** can_join leaves the memberships alone. */
  method MayEnter(d: Ircd, mt: Matcher, c: Channel, u: Client, key: Option<string>, joinBan: bool, now: nat, ttl: nat)
    returns (v: JoinVerdict)
    requires GraphOk(d, now) && c in d.channelList && u in d.people && u.local && c.mode.limit >= 0
    modifies d.people`invited, Channels(d)`invites
    ensures GraphOk(d, now) && View(d) == old(View(d))
    ensures v == Verdict(mt, c, u, key, old(Invited(c, u, now, ttl)), joinBan)
    ensures OthersKept(old(InviteView(d)), InviteView(d), u, now, ttl)
  {
    hide Linked, OwnLists, Consistent, NoneEmpty, View, Verdict, OthersKept, InviteView, Answers, StandingOf;
    v := CanJoin(d, mt, c, u, key, joinBan, now, ttl);
  }

  /** Does a JOIN leave the user on a channel of that name? It does if the user was on it, or if the name is allowed,
      the user on fewer channels than the limit, and no check of the channel fails or there is no such channel yet. */
  ghost predicate MayGetOn(g: Graph, standings: map<Channel, Standing>, allowed: bool, joinBan: bool, room: bool,
                           u: Client, name: string) {
    || OnNamed(g, u, name)
    || (allowed && room &&
        forall c :: c in g.members && c in standings && IsNamed(c, name) ==> MayEnterWith(standings[c], joinBan))
  }

  lemma GetsOn(r: JoinResult, g: Graph, g': Graph, standings: map<Channel, Standing>, allowed: bool, joinBan: bool,
               room: bool, u: Client, name: string)
    requires WellTyped(g) && forall c :: c in g.channels ==> c in standings
    requires (r.BadName? <==> !allowed) && (r.TooMany? <==> allowed && !room)
    requires r.AlreadyOn? || r.Denied? || r.Entered? ==> Admitted(r, g, standings, joinBan, u, name)
    requires r.Entered? && r.founded <==> allowed && room && forall c :: c in g.channels ==> !IsNamed(c, name)
    requires if r.Entered? then Joined(g, g', r.member, r.founded) else g' == g
    requires r.Entered? ==> r.member.client == u && IsNamed(r.member.channel, name)
    ensures OnNamed(g', u, name) <==> MayGetOn(g, standings, allowed, joinBan, room, u, name)
  {
    hide IsNamed;
    if r.Entered? {
      var c := r.member.channel;
      assert c in g'.members && r.member in g'.members[c];
      assert OnNamed(g', u, name);
    } else if r.AlreadyOn? || r.Denied? {
      var c :| c in g.channels && IsNamed(c, name);
      assert c in g.members && c in standings;
    }
  }

  /** channel_do_join for one name. `allowed` is the outcome of the checks of the name and of reserved channels. */
  method ChannelDoJoin(d: Ircd, mt: Matcher, u: Client, name: string, key: Option<string>, allowed: bool, joinBan: bool,
                       maxChannels: nat, now: nat, ttl: nat)
    returns (r: JoinResult)
    requires GraphOk(d, now) && NamesDistinct(d.channelList) && u in d.people && u.local && !u.server
    requires forall c :: c in d.channelList ==> c.mode.limit >= 0
    modifies d`channelList, u`channel, d.people`invited, Channels(d)`invites, Channels(d)`members,
      Channels(d)`membersLocal
    ensures GraphOk(d, now) && NamesDistinct(d.channelList)
    ensures (r.BadName? <==> !allowed) && (r.TooMany? <==> allowed && |old(u.channel)| >= maxChannels)
    ensures r.AlreadyOn? || r.Denied? || r.Entered? ==>
      Decided(r, old(View(d)), old(Verdicts(d, mt, u, key, joinBan, now, ttl)), u, name)
    ensures r.AlreadyOn? || r.Denied? || r.Entered? ==>
      Admitted(r, old(View(d)), old(Standings(d, mt, u, key, now, ttl)), joinBan, u, name)
    ensures OnNamed(View(d), u, name) <==>
      MayGetOn(old(View(d)), old(Standings(d, mt, u, key, now, ttl)), allowed, joinBan,
               |old(u.channel)| < maxChannels, u, name)
    ensures OthersKept(old(InviteView(d)), InviteView(d), u, now, ttl)
    ensures !r.Entered? ==> View(d) == old(View(d))
    ensures r.Entered? ==> r.member.client == u && IsNamed(r.member.channel, name) && r.member.channel in d.channelList
    ensures r.Entered? ==> Joined(old(View(d)), View(d), r.member, r.founded) && fresh(r.member) && r.member.Unasked()
    ensures r.Entered? ==> r.member.channel in InviteView(d).ofChannel && !Pending(InviteView(d), r.member.channel, u)
    ensures r.Entered? && r.founded <==>
      allowed && |old(u.channel)| < maxChannels && forall c :: c in old(d.channelList) ==> !IsNamed(c, name)
    ensures d.channelList == if r.Entered? && r.founded then [r.member.channel] + old(d.channelList)
      else old(d.channelList)
    ensures r.Entered? && r.founded ==> (
      && fresh(r.member.channel) && fresh(r.member.channel.mode)
      && fresh(r.member.channel.banlist) && fresh(r.member.channel.exceptlist) && fresh(r.member.channel.invexlist)
      && MasksOf(r.member.channel) == ([], [], []) && r.member.channel.mode.limit == 0
      && r.member.channel.mode.modes == {'t', 'n'})
    ensures r.Entered? ==> r.member.status == if r.founded then {'o'} else {}
  {
    hide Linked, OwnLists, IsMember, Consistent, NoneEmpty, Distinct, Membership.Join, Pending, Decided, Joined;
    hide Verdicts, NamesDistinct, IsNamed, View, InviteView, Standings, Admitted, Answers, OthersKept;
    ghost var g, w, standings := View(d), InviteView(d), Standings(d, mt, u, key, now, ttl);
    ghost var verdicts := Verdicts(d, mt, u, key, joinBan, now, ttl);
    StandingsAnswer(d, mt, u, key, joinBan, now, ttl);
    OthersKeptSelf(w, u, now, ttl);
    ViewTyped(d);
    hide OnNamed, MayGetOn;
    if !allowed {
      GetsOn(BadName, g, g, standings, allowed, joinBan, |u.channel| < maxChannels, u, name);
      return BadName;
    }
    if |u.channel| >= maxChannels {
      GetsOn(TooMany, g, g, standings, allowed, joinBan, false, u, name);
      return TooMany;
    }
    r := EnterNamed(d, mt, u, name, key, joinBan, now, ttl);
    DecidedAdmits(r, g, verdicts, standings, joinBan, u, name);
    if r.Entered? {
      ghost var w1 := InviteView(d);
      FinishJoin(d, r.member.channel, u, now, ttl);
      OthersKeptTwice(w, w1, InviteView(d), u, now, ttl);
    }
    GetsOn(r, g, View(d), standings, allowed, joinBan, true, u, name);
  }

  method FinishJoin(d: Ircd, channel: Channel, u: Client, now: nat, ttl: nat)
    requires GraphOk(d, now) && channel in d.channelList && u in d.people && u.local
    modifies d.people`invited, Channels(d)`invites
    ensures GraphOk(d, now) && View(d) == old(View(d))
    ensures channel in InviteView(d).ofChannel && !Pending(InviteView(d), channel, u)
    ensures OthersKept(old(InviteView(d)), InviteView(d), u, now, ttl)
  {
    hide Linked, OwnLists, Consistent, NoneEmpty, Pending, OthersKept;
    ghost var view := View(d);
    UseInvite(d, channel, u, now, ttl);
    assert View(d) == view;
  }

  // ---------------------------------------------------------------- PART

  datatype PartResult = NoSuchChannel | NotOnChannel | Parted(member: ChannelMember)

  /** channel_part_one_client */
  method ChannelPartOneClient(d: Ircd, u: Client, name: string, ghost now: nat) returns (r: PartResult)
    requires GraphOk(d, now) && NamesDistinct(d.channelList) && u in d.people && !u.server
    modifies d`channelList, d.people`channel, d.people`invited
    modifies Channels(d)`members, Channels(d)`membersLocal, Channels(d)`invites, MaskListsOf(Channels(d))`masks
    ensures GraphOk(d, now) && NamesDistinct(d.channelList)
    ensures Channels(d) <= old(Channels(d)) && Narrower(MaskMap(Channels(d)), old(MaskMap(Channels(d))))
    ensures !r.Parted? ==> View(d) == old(View(d))
    ensures r.Parted? ==> r.member.client == u && IsNamed(r.member.channel, name) && r.member in old(u.channel)
    ensures r.Parted? ==> View(d) == Strip(old(View(d)), {r.member})
    ensures r.NoSuchChannel? <==> forall c :: c in old(d.channelList) ==> !IsNamed(c, name)
    ensures r.Parted? <==> OnNamed(old(View(d)), u, name)
    ensures !OnNamed(View(d), u, name) && InvitesStay(old(InviteView(d)), InviteView(d))
  {
    hide Linked, OwnLists, IsMember, Consistent, NoneEmpty, Distinct, Leave, Strip, Leavable, Narrower, MaskMap;
    hide NamesDistinct, IsNamed, OnNamed, InvitesStay, InviteView;
    NarrowerSelf(MaskMap(Channels(d)));
    AllInvitesStay(InviteView(d));
    ViewTyped(d);
    ghost var g := View(d);
    var channel := FindChannel(d.channelList, name);
    if channel == null {
      OnNone(g, u, name);
      return NoSuchChannel;
    }
    OnlyThere(g, u, name, channel);
    var member := FindChannelLink(d, u, channel);
    if member == null {
      return NotOnChannel;
    }
    PartFrom(d, u, name, member, now);
    r := Parted(member);
  }

  /** The membership that was found goes. */
  method PartFrom(d: Ircd, u: Client, name: string, member: ChannelMember, ghost now: nat)
    requires GraphOk(d, now) && NamesDistinct(d.channelList) && u in d.people
    requires member in u.channel && member.client == u && IsNamed(member.channel, name)
    modifies d`channelList, d.people`channel, d.people`invited
    modifies Channels(d)`members, Channels(d)`membersLocal, Channels(d)`invites
    modifies member.channel.banlist`masks, member.channel.exceptlist`masks, member.channel.invexlist`masks
    ensures GraphOk(d, now) && NamesDistinct(d.channelList)
    ensures Channels(d) <= old(Channels(d)) && Narrower(MaskMap(Channels(d)), old(MaskMap(Channels(d))))
    ensures View(d) == Strip(old(View(d)), {member})
    ensures !OnNamed(View(d), u, name) && InvitesStay(old(InviteView(d)), InviteView(d))
  {
    hide Linked, OwnLists, Consistent, NoneEmpty, Distinct, Leave, Strip, Leavable, Narrower, MaskMap;
    hide NamesDistinct, IsNamed, OnNamed, InvitesStay, InviteView;
    ghost var g := View(d);
    ViewTyped(d);
    MemberIn(d, member);
    RemoveKeepingMasks(d, member, now);
    FewerNames(g, {member}, d.channelList);
    OffNamed(g, u, name, member);
  }

  /** Is the user on a channel of that name? */
  ghost predicate OnNamed(g: Graph, u: Client, name: string) {
    exists c :: c in g.members && IsNamed(c, name) && IsMember(g, u, c)
  }

  lemma OnNone(g: Graph, u: Client, name: string)
    requires WellTyped(g) && forall c :: c in g.channels ==> !IsNamed(c, name)
    ensures !OnNamed(g, u, name)
  {
    hide IsNamed, IsMember;
  }

  lemma OnlyThere(g: Graph, u: Client, name: string, channel: Channel)
    requires WellTyped(g) && NamesDistinct(g.channels) && channel in g.channels && IsNamed(channel, name)
    ensures OnNamed(g, u, name) <==> IsMember(g, u, channel)
  {
    hide IsNamed, IsMember, NamesDistinct;
    forall c | c in g.members && IsNamed(c, name) ensures c == channel { SameName(g.channels, c, channel, name); }
  }

  lemma MemberIn(d: Ircd, m: ChannelMember)
    requires Linked(View(d)) && m.client in d.people && m in m.client.channel
    ensures m.channel in View(d).members && m in View(d).members[m.channel] && ChannelLinked(View(d), m.channel)
  {
    assert View(d).on[m.client] == m.client.channel;
    assert ClientLinked(View(d), m.client);
  }

  /** Without that membership the user is on no channel of that name. */
  lemma OffNamed(g: Graph, u: Client, name: string, m: ChannelMember)
    requires WellTyped(g) && NamesDistinct(g.channels) && m.channel in g.members && m in g.members[m.channel]
    requires ChannelLinked(g, m.channel) && m.client == u && IsNamed(m.channel, name)
    ensures !OnNamed(Strip(g, {m}), u, name)
  {
    hide IsNamed, NamesDistinct, Strip, ChannelLinked, Without;
    var h := Strip(g, {m});
    forall c, k | c in h.members && IsNamed(c, name) && k in h.members[c] ensures k.client != u {
      LeftThere(g, m, c, k);
      SameName(g.channels, c, m.channel, name);
      OnceThere(g, m, k);
    }
  }

  lemma LeftThere(g: Graph, m: ChannelMember, c: Channel, k: ChannelMember)
    requires WellTyped(g) && c in Strip(g, {m}).members && k in Strip(g, {m}).members[c]
    ensures c in g.channels && c in g.members && k in g.members[c] && k != m
  {
    hide Without;
  }

  lemma OnceThere(g: Graph, m: ChannelMember, k: ChannelMember)
    requires WellTyped(g) && m.channel in g.members && ChannelLinked(g, m.channel)
    requires m in g.members[m.channel] && k in g.members[m.channel] && k != m
    ensures k.client != m.client
  {
  }

  /** Those and only those memberships of the user went that were on a channel of that name. */
  ghost predicate OnlyOff(g: Graph, g': Graph, u: Client, name: string) {
    && (forall c, m :: c in g'.members && m in g'.members[c] ==> c in g.members && m in g.members[c])
    && (forall c, m :: c in g.members && m in g.members[c] ==>
         ((c in g'.members && m in g'.members[c]) <==> !(m.client == u && IsNamed(c, name))))
  }

  lemma PartedMeans(g: Graph, gone: set<ChannelMember>, u: Client, name: string)
    requires Linked(g) && !OnNamed(Strip(g, gone), u, name)
    requires forall m :: m in gone ==> m.client == u && IsNamed(m.channel, name)
    ensures OnlyOff(g, Strip(g, gone), u, name)
  {
    hide IsNamed, Without;
    var h := Strip(g, gone);
    forall c, m | c in g.members && m in g.members[c]
      ensures (c in h.members && m in h.members[c]) <==> !(m.client == u && IsNamed(c, name))
    {
      assert ChannelLinked(g, c);
      if c in h.members && m in h.members[c] { assert IsNamed(c, name) ==> m.client != u; }
    }
  }

  /** Nobody's membership went, and none was added but one of the user on a channel of that name. */
  ghost predicate OnlyOn(g: Graph, g': Graph, u: Client, name: string) {
    && (forall c, m :: c in g.members && m in g.members[c] ==> c in g'.members && m in g'.members[c])
    && (forall c, m :: c in g'.members && m in g'.members[c] ==>
         (c in g.members && m in g.members[c]) || (m.client == u && IsNamed(c, name)))
  }

  lemma JoinedMeans(g: Graph, g': Graph, m: ChannelMember, founded: bool, u: Client, name: string)
    requires Joined(g, g', m, founded) && m.client == u && IsNamed(m.channel, name)
    requires founded ==> m.channel !in g.members
    ensures OnlyOn(g, g', u, name)
  {
    hide IsNamed;
  }

  lemma FewerNames(g: Graph, gone: set<ChannelMember>, channels: seq<Channel>)
    requires NamesDistinct(g.channels) && channels == Strip(g, gone).channels
    ensures NamesDistinct(channels)
  {
    WithoutAll(g.channels, g.members.Keys - Kept(g.members, gone),
      (a: Channel, b: Channel) => !SameFolded(a.name, b.name));
  }
}
