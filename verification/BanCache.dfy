// The per-member ban cache: what can_send remembers, and when it is thrown away.
module BanCache {
  import opened Strings
  import opened Entities
  import opened Membership
  import Invites
  import G = ModeEngine
  import S = ModeSpec
  import opened ModeLines

  // ---------------------------------------------------------------- matching

  /** What masks may look at and what changes while a client is connected: the nick and the user modes. */
  datatype Looks = Looks(nick: string, umodes: set<char>)

  function LooksOf(u: Client): Looks
    reads u`name, u`umodes
  {
    Looks(u.name, u.umodes)
  }

  /** How masks match: `hit(mask, client, looks)`, for a client that is otherwise fixed, which masks are acting
      extended bans, and which of those are mutes. */
  datatype Matcher = Matcher(hit: (string, Client, Looks) -> bool, acting: string -> bool, mute: string -> bool)

  /** find_bmask hunts either the mutes or everything that is not acting. */
  datatype Hunt = General | Mutes

  predicate Relevant(mt: Matcher, hunt: Hunt, mask: string) {
    if hunt.Mutes? then mt.mute(mask) else !mt.acting(mask)
  }

  ghost predicate AnyHit(mt: Matcher, hunt: Hunt, masks: seq<string>, u: Client, l: Looks) {
    exists i :: 0 <= i < |masks| && Relevant(mt, hunt, masks[i]) && mt.hit(masks[i], u, l)
  }

  /** Hit by the ban list and not by the exceptions. */
  ghost predicate Excluded(mt: Matcher, hunt: Hunt, bans: seq<string>, excepts: seq<string>, u: Client, l: Looks) {
    AnyHit(mt, hunt, bans, u, l) && !AnyHit(mt, hunt, excepts, u, l)
  }

  ghost predicate Banned(mt: Matcher, c: Channel, u: Client)
    reads c.banlist, c.exceptlist, u`name, u`umodes
  {
    Excluded(mt, General, c.banlist.masks, c.exceptlist.masks, u, LooksOf(u))
  }

  ghost predicate Muted(mt: Matcher, c: Channel, u: Client)
    reads c.banlist, c.exceptlist, u`name, u`umodes
  {
    Excluded(mt, Mutes, c.banlist.masks, c.exceptlist.masks, u, LooksOf(u))
  }

  // ---------------------------------------------------------------- the cache

  /** What the three flags of a member mean for the lists as they are now. */
  ghost predicate CacheOk(banned: bool, muted: bool, k: G.Cache) {
    && (k.banSilenced ==> k.banChecked && (banned || muted))
    && (k.banChecked && !k.banSilenced ==> !banned)
    && (k.muteChecked ==> k.banChecked)
    && (k.muteChecked && !k.banSilenced ==> !muted)
  }

  function CacheOf(m: ChannelMember): G.Cache
    reads m`banChecked, m`banSilenced, m`muteChecked
  {
    G.Cache(m.banChecked, m.banSilenced, m.muteChecked)
  }

  ghost predicate MemberOk(mt: Matcher, c: Channel, m: ChannelMember)
    reads c.banlist, c.exceptlist, m.client`name, m.client`umodes, m`banChecked, m`banSilenced, m`muteChecked
  {
    CacheOk(Banned(mt, c, m.client), Muted(mt, c, m.client), CacheOf(m))
  }

  ghost predicate Coherent(mt: Matcher, c: Channel)
    reads c`membersLocal, c.banlist, c.exceptlist
    reads (set m | m in c.membersLocal), (set m | m in c.membersLocal :: m.client)`name
    reads (set m | m in c.membersLocal :: m.client)`umodes
  {
    forall m :: m in c.membersLocal ==> MemberOk(mt, c, m)
  }

  /** Where a channel has no mutes, the cached answer is that of is_banned alone. */
  lemma CheckedMeansBanned(mt: Matcher, c: Channel, m: ChannelMember)
    requires Coherent(mt, c) && m in c.membersLocal && m.banChecked
    ensures m.banSilenced ==> Banned(mt, c, m.client) || Muted(mt, c, m.client)
    ensures (forall b :: b in c.banlist.masks ==> !mt.mute(b)) ==> (m.banSilenced <==> Banned(mt, c, m.client))
  {
    assert MemberOk(mt, c, m);
  }

  // ---------------------------------------------------------------- asking

  method FindBmask(mt: Matcher, u: Client, masks: seq<string>, hunt: Hunt) returns (found: bool)
    ensures found <==> AnyHit(mt, hunt, masks, u, LooksOf(u))
  {
    for i := 0 to |masks|
      invariant forall j :: 0 <= j < i ==> !(Relevant(mt, hunt, masks[j]) && mt.hit(masks[j], u, LooksOf(u)))
    {
      if !Relevant(mt, hunt, masks[i]) {
        continue;
      }
      if mt.hit(masks[i], u, LooksOf(u)) {
        return true;
      }
    }
    return false;
  }

  method IsBanned(mt: Matcher, c: Channel, u: Client) returns (banned: bool)
    ensures banned <==> Banned(mt, c, u)
    ensures var bans, excepts, l := c.banlist.masks, c.exceptlist.masks, Looks(u.name, u.umodes);
      banned <==>
        && (exists i :: 0 <= i < |bans| && !mt.acting(bans[i]) && mt.hit(bans[i], u, l))
        && !(exists i :: 0 <= i < |excepts| && !mt.acting(excepts[i]) && mt.hit(excepts[i], u, l))
  {
    banned := FindBmask(mt, u, c.banlist.masks, General);
    if banned {
      var excepted := FindBmask(mt, u, c.exceptlist.masks, General);
      banned := !excepted;
    }
  }

  datatype Verdict = OpOrVoice | NonOp | CannotSend | NeedReggedNick | NoCtrls | NoCtcp

  /** What can_send is told besides the channel and the client: the outcome of the reservation check, what is
      in the message, whether it is a notice, and two facts about the client. */
  datatype Message = Message(reserved: bool, ctrls: bool, ctcp: bool, notice: bool, service: bool, registered: bool)

  /** The verdict, if any, of the checks before the membership is looked up. */
  function AnyoneMay(modes: set<char>, server: bool, msg: Message): Option<Verdict> {
    if server || msg.service then Some(OpOrVoice)
    else if msg.reserved then Some(CannotSend)
    else if 'c' in modes && msg.ctrls then Some(NoCtrls)
    else if 'C' in modes && msg.ctcp then Some(NoCtcp)
    else None
  }

  /** And of those between that and the ban check; `status` is that of the member, if there is one. */
  function MemberMay(modes: set<char>, status: Option<set<char>>, msg: Message): Option<Verdict> {
    if status.Some? && status.value != {} then Some(OpOrVoice)
    else if status.None? && 'n' in modes then Some(CannotSend)
    else if 'm' in modes then Some(CannotSend)
    else if 'M' in modes && !msg.registered then Some(NeedReggedNick)
    else if 'T' in modes && msg.notice then Some(CannotSend)
    else None
  }

  /** What the mute check is told: for a member that the ban check has just been made and that its cache is right, for
      an outsider that it is not banned. */
  ghost predicate BanChecked(mt: Matcher, c: Channel, u: Client, member: ChannelMember?)
    reads c.banlist, c.exceptlist, u`name, u`umodes
    reads (if member == null then {} else {member})`banChecked, (if member == null then {} else {member})`banSilenced
    reads (if member == null then {} else {member})`muteChecked
    reads (if member == null then {} else {member.client})`name, (if member == null then {} else {member.client})`umodes
  {
    if member == null then u.local ==> !Banned(mt, c, u)
    else member.banChecked && MemberOk(mt, c, member) && (!member.banSilenced ==> !Banned(mt, c, u))
  }

  /** extban_mute_can_send */
  method MuteCanSend(mt: Matcher, c: Channel, u: Client, member: ChannelMember?) returns (v: Verdict)
    requires member != null ==> member.client == u && u.local
    modifies (if member == null then {} else {member})`banSilenced,
      (if member == null then {} else {member})`muteChecked
    ensures old(BanChecked(mt, c, u, member)) ==>
      && v == (if u.local && (Banned(mt, c, u) || Muted(mt, c, u)) then CannotSend else NonOp)
      && (member != null ==> MemberOk(mt, c, member) && member.banChecked)
      && (member != null ==> (member.banSilenced <==> Banned(mt, c, u) || Muted(mt, c, u)))
  {
    if !u.local {
      return NonOp;
    }
    if member != null {
      if member.banSilenced {
        return CannotSend;
      }
      if member.muteChecked {
        return NonOp;
      }
      member.muteChecked := true;
    }
    var muted := FindBmask(mt, u, c.banlist.masks, Mutes);
    if muted {
      var excepted := FindBmask(mt, u, c.exceptlist.masks, Mutes);
      if !excepted {
        if member != null {
          member.banSilenced := true;
        }
        return CannotSend;
      }
    }
    return NonOp;
  }

  ghost predicate Excluding(mt: Matcher, c: Channel, u: Client)
    reads c.banlist, c.exceptlist, u`name, u`umodes
  {
    Banned(mt, c, u) || Muted(mt, c, u)
  }

  /** The membership whose cache is used: only local clients have one. */
  function Cached(u: Client, member: ChannelMember?): set<ChannelMember> {
    if member == null || !u.local then {} else {member}
  }

  /** The cache that is used is right. */
  ghost predicate CachedOk(mt: Matcher, c: Channel, u: Client, member: ChannelMember?)
    reads c.banlist, c.exceptlist, Cached(u, member)
    reads (set m | m in Cached(u, member) :: m.client)`name, (set m | m in Cached(u, member) :: m.client)`umodes
  {
    forall m :: m in Cached(u, member) ==> MemberOk(mt, c, m)
  }

  /** The end of can_send: the ban check, through the member's cache if there is a member. It is exact if that was. */
  method BanCheck(mt: Matcher, c: Channel, u: Client, member: ChannelMember?) returns (v: Verdict)
    requires member != null ==> member.client == u
    modifies Cached(u, member)`banChecked, Cached(u, member)`banSilenced, Cached(u, member)`muteChecked
    ensures old(CachedOk(mt, c, u, member)) ==>
      && v == (if u.local && Excluding(mt, c, u) then CannotSend else NonOp)
      && (member != null && u.local ==> MemberOk(mt, c, member) && member.banChecked)
      && (member != null && u.local ==> (member.banSilenced <==> Excluding(mt, c, u)))
  {
    hide Excluded;
    if u.local {
      if member != null {
        if member.banSilenced {
          return CannotSend;
        }
        if !member.banChecked {
          var banned := IsBanned(mt, c, u);
          if banned {
            member.banChecked, member.banSilenced := true, true;
            return CannotSend;
          }
          member.banChecked := true;
        }
      } else {
        var banned := IsBanned(mt, c, u);
        if banned {
          return CannotSend;
        }
      }
      v := MuteCanSend(mt, c, u, member);
    } else {
      v := NonOp;
    }
  }

  /** can_send without a cache: the ban lists are searched every time. */
  ghost function Uncached(mt: Matcher, c: Channel, u: Client, status: Option<set<char>>, msg: Message): Verdict
    reads c.mode, c.banlist, c.exceptlist, u`name, u`umodes
  {
    var early := AnyoneMay(c.mode.modes, u.server, msg);
    if early.Some? then early.value else UncachedAs(mt, c, u, status, msg)
  }

  ghost function UncachedAs(mt: Matcher, c: Channel, u: Client, status: Option<set<char>>, msg: Message): Verdict
    reads c.mode, c.banlist, c.exceptlist, u`name, u`umodes
  {
    var early := MemberMay(c.mode.modes, status, msg);
    if early.Some? then early.value
    else if u.local && Excluding(mt, c, u) then CannotSend else NonOp
  }

  /** Hit by a ban that is not acting and by no such exception, or by a mute and by no mute among the exceptions. */
  ghost predicate Hushed(mt: Matcher, c: Channel, u: Client)
    reads c.banlist, c.exceptlist, u`name, u`umodes
  {
    var bans, excepts, l := c.banlist.masks, c.exceptlist.masks, Looks(u.name, u.umodes);
    || ((exists i :: 0 <= i < |bans| && !mt.acting(bans[i]) && mt.hit(bans[i], u, l)) &&
        !(exists i :: 0 <= i < |excepts| && !mt.acting(excepts[i]) && mt.hit(excepts[i], u, l)))
    || ((exists i :: 0 <= i < |bans| && mt.mute(bans[i]) && mt.hit(bans[i], u, l)) &&
        !(exists i :: 0 <= i < |excepts| && mt.mute(excepts[i]) && mt.hit(excepts[i], u, l)))
  }

  /** When each verdict is given. Servers and services may always speak. For anybody else a reserved channel comes
      first, then what the message holds. A member with o, h or v then gets through whatever else is set; an outsider is
      kept out by n, and everyone by m; then come M, T, and for local users the bans and mutes. */
  ghost predicate Judged(mt: Matcher, c: Channel, u: Client, status: Option<set<char>>, msg: Message, v: Verdict)
    reads c.mode, c.banlist, c.exceptlist, u`name, u`umodes
  {
    var modes := c.mode.modes;
    var free, raised := u.server || msg.service, status.Some? && status.value != {};
    var ctrls, ctcp := 'c' in modes && msg.ctrls, 'C' in modes && msg.ctcp;
    var plain := !free && !msg.reserved && !ctrls && !ctcp && !raised;
    var closed := 'm' in modes || (status.None? && 'n' in modes);
    var unregistered, notice := 'M' in modes && !msg.registered, 'T' in modes && msg.notice;
    var hushed := u.local && Hushed(mt, c, u);
    && (v.OpOrVoice? <==> free || (raised && !msg.reserved && !ctrls && !ctcp))
    && (v.NoCtrls? <==> !free && !msg.reserved && ctrls)
    && (v.NoCtcp? <==> !free && !msg.reserved && !ctrls && ctcp)
    && (v.NeedReggedNick? <==> plain && !closed && unregistered)
    && (v.CannotSend? <==> !free && (msg.reserved || (plain && (closed || (!unregistered && (notice || hushed))))))
    && (v.NonOp? <==> plain && !closed && !unregistered && !notice && !hushed)
  }

  lemma UncachedJudges(mt: Matcher, c: Channel, u: Client, status: Option<set<char>>, msg: Message)
    ensures Judged(mt, c, u, status, msg, Uncached(mt, c, u, status, msg))
  {
    HushedMeans(mt, c, u);
    hide Hushed, Excluding;
  }

  lemma HushedMeans(mt: Matcher, c: Channel, u: Client)
    ensures Hushed(mt, c, u) <==> Excluding(mt, c, u)
  {
  }

  lemma LocalMember(d: Ircd, c: Channel, m: ChannelMember)
    requires Linked(View(d)) && c in d.channelList && m in c.members
    ensures m.client.local ==> m in c.membersLocal
    ensures forall k :: k in c.members && k.client == m.client ==> k == m
  {
    assert View(d).members[c] == c.members && View(d).local[c] == c.membersLocal;
    assert ChannelLinked(View(d), c);
  }

  /** can_send: if the cache was right, the verdict is that of a version without any cache, and it stays right. */
  method CanSend(ghost d: Ircd, mt: Matcher, c: Channel, u: Client, known: ChannelMember?, msg: Message)
    returns (v: Verdict)
    requires Linked(View(d)) && c in d.channelList && u in d.people
    requires known != null ==> known in c.members && known.client == u
    modifies (set m | m in c.membersLocal)`banChecked, (set m | m in c.membersLocal)`banSilenced
    modifies (set m | m in c.membersLocal)`muteChecked
    ensures old(Coherent(mt, c)) ==>
      && Coherent(mt, c)
      && (forall m :: m in c.members && m.client == u ==> v == Uncached(mt, c, u, Some(m.status), msg))
      && (!IsMember(View(d), u, c) ==> v == Uncached(mt, c, u, None, msg))
      && (forall m :: m in c.members && m.client == u ==> Judged(mt, c, u, Some(m.status), msg, v))
      && (!IsMember(View(d), u, c) ==> Judged(mt, c, u, None, msg, v))
  {
    hide Linked, Coherent, Judged;
    v := Decide(d, mt, c, u, known, msg);
    UncachedJudges(mt, c, u, None, msg);
    forall m | m in c.members ensures Judged(mt, c, u, Some(m.status), msg, Uncached(mt, c, u, Some(m.status), msg)) {
      UncachedJudges(mt, c, u, Some(m.status), msg);
    }
  }

  /** Its checks, up to the membership. */
  method Decide(ghost d: Ircd, mt: Matcher, c: Channel, u: Client, known: ChannelMember?, msg: Message)
    returns (v: Verdict)
    requires Linked(View(d)) && c in d.channelList && u in d.people
    requires known != null ==> known in c.members && known.client == u
    modifies (set m | m in c.membersLocal)`banChecked, (set m | m in c.membersLocal)`banSilenced
    modifies (set m | m in c.membersLocal)`muteChecked
    ensures old(Coherent(mt, c)) ==>
      && Coherent(mt, c)
      && (forall m :: m in c.members && m.client == u ==> v == Uncached(mt, c, u, Some(m.status), msg))
      && (!IsMember(View(d), u, c) ==> v == Uncached(mt, c, u, None, msg))
  {
    hide Linked, Coherent, UncachedAs;
    if u.server || msg.service {
      return OpOrVoice;
    }
    if msg.reserved {
      return CannotSend;
    }
    if 'c' in c.mode.modes && msg.ctrls {
      return NoCtrls;
    }
    if 'C' in c.mode.modes && msg.ctcp {
      return NoCtcp;
    }
    var member := known;
    if member == null {
      member := FindChannelLink(d, u, c);
      assert member == null ==> forall m :: m in View(d).members[c] ==> m.client != u;
    }
    if member != null {
      LocalMember(d, c, member);
    }
    v := CanSendAs(d, mt, c, u, member, msg);
  }

  /** The checks that depend on the membership. */
  method CanSendAs(ghost d: Ircd, mt: Matcher, c: Channel, u: Client, member: ChannelMember?, msg: Message)
    returns (v: Verdict)
    requires Linked(View(d)) && c in d.channelList
    requires member != null ==> member in c.members && member.client == u
    modifies (set m | m in c.membersLocal)`banChecked, (set m | m in c.membersLocal)`banSilenced
    modifies (set m | m in c.membersLocal)`muteChecked
    ensures old(Coherent(mt, c)) ==>
      Coherent(mt, c) && v == UncachedAs(mt, c, u, if member == null then None else Some(member.status), msg)
  {
    hide Linked, CacheOk, Excluded;
    if member != null && member.status != {} {
      return OpOrVoice;
    }
    if member == null && 'n' in c.mode.modes {
      return CannotSend;
    }
    if 'm' in c.mode.modes {
      return CannotSend;
    }
    if 'M' in c.mode.modes && !msg.registered {
      return NeedReggedNick;
    }
    if 'T' in c.mode.modes && msg.notice {
      return CannotSend;
    }
    if member != null {
      LocalMember(d, c, member);
      assert Coherent(mt, c) && u.local ==> MemberOk(mt, c, member);
    }
    v := BanCheck(mt, c, u, member);
  }

  // ---------------------------------------------------------------- over all channels

  ghost predicate AllCoherent(d: Ircd, mt: Matcher)
    reads d`channelList, Channels(d)`membersLocal
    reads (set c | c in d.channelList :: c.banlist), (set c | c in d.channelList :: c.exceptlist)
    reads set c, m | c in d.channelList && m in c.membersLocal :: m
    reads (set c, m | c in d.channelList && m in c.membersLocal :: m.client)`name
    reads (set c, m | c in d.channelList && m in c.membersLocal :: m.client)`umodes
  {
    forall c :: c in d.channelList ==> Coherent(mt, c)
  }

  lemma MembersApart(d: Ircd, a: Channel, b: Channel)
    requires Linked(View(d)) && a in d.channelList && b in d.channelList && a != b
    ensures forall m :: m in a.membersLocal ==> m !in b.membersLocal
    ensures forall m :: m in a.membersLocal ==>
      m in a.members && m.channel == a && m in m.client.channel && m.client in d.people
  {
    assert View(d).members[a] == a.members && View(d).local[a] == a.membersLocal;
    assert View(d).members[b] == b.members && View(d).local[b] == b.membersLocal;
    assert ChannelLinked(View(d), a) && ChannelLinked(View(d), b);
    assert forall m :: m in a.members ==> View(d).on[m.client] == m.client.channel;
  }

  /** Speaking. */
  method Speak(d: Ircd, mt: Matcher, channel: Channel, u: Client, known: ChannelMember?, msg: Message)
    returns (v: Verdict)
    requires Linked(View(d)) && channel in d.channelList && u in d.people
    requires known != null ==> known in channel.members && known.client == u
    modifies (set m | m in channel.membersLocal)`banChecked, (set m | m in channel.membersLocal)`banSilenced
    modifies (set m | m in channel.membersLocal)`muteChecked
    ensures old(AllCoherent(d, mt)) ==>
      && AllCoherent(d, mt)
      && (forall m :: m in channel.members && m.client == u ==> v == Uncached(mt, channel, u, Some(m.status), msg))
      && (!IsMember(View(d), u, channel) ==> v == Uncached(mt, channel, u, None, msg))
      && (forall m :: m in channel.members && m.client == u ==> Judged(mt, channel, u, Some(m.status), msg, v))
      && (!IsMember(View(d), u, channel) ==> Judged(mt, channel, u, None, msg, v))
  {
    hide Linked, CacheOk, Excluded;
    forall c | c in d.channelList && c != channel
      ensures forall m :: m in c.membersLocal ==> m !in channel.membersLocal
    {
      MembersApart(d, c, channel);
    }
    v := CanSend(d, mt, channel, u, known, msg);
  }

  /** A mode change, as its own channel sees it. */
  method ChangeOwnModes(g: G.ModeGlobals, env: S.Env, src: S.Source, ghost d: Ircd, ghost mt: Matcher,
                        chase: string -> Client?, channel: Channel, member: ChannelMember?, parv: array<string>,
                        clientHead: string, serverHead: string)
    requires G.DistinctIds(channel.members) && channel.SeparateLists()
    requires parv.Length > 0 && |parv[0]| < IRCD_BUFSIZE == g.changes.Length
    requires Linked(View(d)) && channel in d.channelList && G.Resolves(env, chase, d.people)
    modifies g`count, g`quota, g`simple, g`parn, g`errors, g`replies, g.changes, parv, g`toServers, g`toMembers
    modifies channel.mode, channel.banlist, channel.exceptlist, channel.invexlist, (set m | m in channel.members)`status
    modifies (set m | m in channel.membersLocal)`banChecked, (set m | m in channel.membersLocal)`banSilenced
    modifies (set m | m in channel.membersLocal)`muteChecked
    ensures old(Coherent(mt, channel)) ==> Coherent(mt, channel)
    ensures g.count < g.changes.Length
    ensures g.State(channel) == S.ModeSet(env, src, if member == null then None else Some(old(member.status)),
                                          old(G.Value(channel)), old(parv[..]))
  {
    hide Linked, CacheOk, Excluded, WasRight, G.DistinctIds, G.Resolves, S.ModeSet, AnyHit;
    ghost var bans, excepts := channel.banlist.masks, channel.exceptlist.masks;
    ghost var caches := G.Caches(channel.membersLocal);
    ghost var right := Coherent(mt, channel);
    if right { CachesRight(mt, channel); }
    g.ChannelModeSet(env, src, d, chase, channel, member, parv, clientHead, serverHead);
    forall m | right && m in channel.membersLocal ensures MemberOk(mt, channel, m) {
      assert MemberWas(mt, bans, excepts, m, caches[m]);
      assert G.Caches(channel.membersLocal)[m] == CacheOf(m);
      StillCoherent(mt, bans, excepts, channel, m, caches[m]);
    }
  }

  /** A mode change. */
  method ChangeModes(g: G.ModeGlobals, env: S.Env, src: S.Source, d: Ircd, mt: Matcher, chase: string -> Client?,
                     channel: Channel, member: ChannelMember?, parv: array<string>,
                     clientHead: string, serverHead: string)
    requires G.DistinctIds(channel.members) && OwnLists(Channels(d))
    requires parv.Length > 0 && |parv[0]| < IRCD_BUFSIZE == g.changes.Length
    requires Linked(View(d)) && channel in d.channelList && G.Resolves(env, chase, d.people)
    modifies g`count, g`quota, g`simple, g`parn, g`errors, g`replies, g.changes, parv, g`toServers, g`toMembers
    modifies channel.mode, channel.banlist, channel.exceptlist, channel.invexlist, (set m | m in channel.members)`status
    modifies (set m | m in channel.membersLocal)`banChecked, (set m | m in channel.membersLocal)`banSilenced
    modifies (set m | m in channel.membersLocal)`muteChecked
    ensures old(AllCoherent(d, mt)) ==> AllCoherent(d, mt)
    ensures g.count < g.changes.Length
    ensures g.State(channel) == S.ModeSet(env, src, if member == null then None else Some(old(member.status)),
                                          old(G.Value(channel)), old(parv[..]))
  {
    hide Linked, CacheOk, Excluded, G.DistinctIds, G.Resolves, S.ModeSet, MemberOk;
    forall c | c in d.channelList && c != channel
      ensures forall m :: m in c.membersLocal ==> m !in channel.membersLocal
    {
      MembersApart(d, c, channel);
    }
    ghost var right := AllCoherent(d, mt);
    ChangeOwnModes(g, env, src, d, mt, chase, channel, member, parv, clientHead, serverHead);
    forall c | right && c in d.channelList ensures Coherent(mt, c) {
      if c != channel { ListsApart(Channels(d), c, channel); }
    }
  }

  /** The cache k is right for these lists and a client that looks like that. */
  ghost predicate WasRight(mt: Matcher, bans: seq<string>, excepts: seq<string>, u: Client, l: Looks, k: G.Cache) {
    CacheOk(Excluded(mt, General, bans, excepts, u, l), Excluded(mt, Mutes, bans, excepts, u, l), k)
  }

  // ---------------------------------------------------------------- user modes

  /** No mask that is looked at in a ban check tells two sets of user modes of this client apart. */
  ghost predicate BlindToModes(mt: Matcher, u: Client) {
    forall mask, nick, before, after ::
      Relevant(mt, General, mask) || Relevant(mt, Mutes, mask) ==>
        mt.hit(mask, u, Looks(nick, before)) == mt.hit(mask, u, Looks(nick, after))
  }

  lemma ModesDoNotMatter(mt: Matcher, hunt: Hunt, masks: seq<string>, u: Client, nick: string, before: set<char>,
                         after: set<char>)
    requires BlindToModes(mt, u) && AnyHit(mt, hunt, masks, u, Looks(nick, before))
    ensures AnyHit(mt, hunt, masks, u, Looks(nick, after))
  {
    var i :| 0 <= i < |masks| && Relevant(mt, hunt, masks[i]) && mt.hit(masks[i], u, Looks(nick, before));
    assert mt.hit(masks[i], u, Looks(nick, after));
  }

  lemma StaysRight(mt: Matcher, bans: seq<string>, excepts: seq<string>, u: Client, nick: string, before: set<char>,
                   after: set<char>, k: G.Cache)
    requires BlindToModes(mt, u) && WasRight(mt, bans, excepts, u, Looks(nick, before), k)
    ensures WasRight(mt, bans, excepts, u, Looks(nick, after), k)
  {
    hide BlindToModes, AnyHit;
    forall hunt, masks | true
      ensures AnyHit(mt, hunt, masks, u, Looks(nick, before)) <==> AnyHit(mt, hunt, masks, u, Looks(nick, after))
    {
      if AnyHit(mt, hunt, masks, u, Looks(nick, before)) { ModesDoNotMatter(mt, hunt, masks, u, nick, before, after); }
      if AnyHit(mt, hunt, masks, u, Looks(nick, after)) { ModesDoNotMatter(mt, hunt, masks, u, nick, after, before); }
    }
  }

  /** A banned client's cache goes stale when its modes change so that the ban does not match any more. */
  lemma GoesStale(mt: Matcher, mask: string, u: Client, nick: string, before: set<char>, after: set<char>)
    requires Relevant(mt, General, mask) || Relevant(mt, Mutes, mask)
    requires mt.hit(mask, u, Looks(nick, before)) && !mt.hit(mask, u, Looks(nick, after))
    ensures WasRight(mt, [mask], [], u, Looks(nick, before), G.Cache(true, true, false))
    ensures !WasRight(mt, [mask], [], u, Looks(nick, after), G.Cache(true, true, false))
  {
    var hunt := if Relevant(mt, General, mask) then General else Mutes;
    assert [mask][0] == mask;
    assert AnyHit(mt, hunt, [mask], u, Looks(nick, before));
  }

  /** No change of user modes clears a cache. So every cache that was right stays right, for all lists, nicks
      and changes of modes, if and only if no mask that counts tells user
      modes apart. */
  lemma KeptRightIff(mt: Matcher, u: Client)
    ensures BlindToModes(mt, u) <==>
      forall bans, excepts, nick, before, after, k ::
        WasRight(mt, bans, excepts, u, Looks(nick, before), k) ==> WasRight(mt, bans, excepts, u, Looks(nick, after), k)
  {
    hide WasRight;
    if BlindToModes(mt, u) {
      forall bans, excepts, nick, before, after, k | WasRight(mt, bans, excepts, u, Looks(nick, before), k)
        ensures WasRight(mt, bans, excepts, u, Looks(nick, after), k)
      {
        StaysRight(mt, bans, excepts, u, nick, before, after, k);
      }
    } else {
      var mask, nick, before, after :|
        (Relevant(mt, General, mask) || Relevant(mt, Mutes, mask)) &&
        mt.hit(mask, u, Looks(nick, before)) != mt.hit(mask, u, Looks(nick, after));
      if mt.hit(mask, u, Looks(nick, before)) {
        GoesStale(mt, mask, u, nick, before, after);
      } else {
        GoesStale(mt, mask, u, nick, after, before);
      }
    }
  }

  /** The usermode extban in a match: the modes that a client must have, and those it must not. */
  function UsermodeHit(wanted: set<char>, unwanted: set<char>): (string, Client, Looks) -> bool {
    (mask: string, u: Client, l: Looks) => wanted <= l.umodes && l.umodes !! unwanted
  }

  /** A ban on all who are no operators: whoever was silenced by it stays so after OPER. */
  lemma SilencedOperator(u: Client, nick: string)
    ensures var mt := Matcher(UsermodeHit({}, {'o'}), m => false, m => false);
      var silenced := G.Cache(true, true, false);
      && WasRight(mt, ["$u:-o"], [], u, Looks(nick, {}), silenced)
      && !WasRight(mt, ["$u:-o"], [], u, Looks(nick, {'o'}), silenced)
  {
    var mt := Matcher(UsermodeHit({}, {'o'}), m => false, m => false);
    GoesStale(mt, "$u:-o", u, nick, {}, {'o'});
  }

  ghost predicate MemberWas(mt: Matcher, bans: seq<string>, excepts: seq<string>, m: ChannelMember, k: G.Cache)
    reads m.client`name, m.client`umodes
  {
    WasRight(mt, bans, excepts, m.client, LooksOf(m.client), k)
  }

  lemma CachesRight(mt: Matcher, c: Channel)
    requires Coherent(mt, c)
    ensures var caches := G.Caches(c.membersLocal);
      forall m :: m in c.membersLocal ==> MemberWas(mt, c.banlist.masks, c.exceptlist.masks, m, caches[m])
  {
    hide CacheOk, Excluded;
    assert forall m :: m in c.membersLocal ==> MemberOk(mt, c, m);
  }

  /** A cache that was cleared, or kept with the lists it was right for, is right. */
  lemma StillCoherent(mt: Matcher, bans: seq<string>, excepts: seq<string>, c: Channel, m: ChannelMember, k: G.Cache)
    requires MemberWas(mt, bans, excepts, m, k)
    requires CacheOf(m) == G.Cache(false, false, false) ||
             (CacheOf(m) == k && c.banlist.masks == bans && c.exceptlist.masks == excepts)
    ensures MemberOk(mt, c, m)
  {
  }

  lemma LocalAfterJoin(d: Ircd, g: Graph, m: ChannelMember, c: Channel)
    requires m.channel in g.members && m.channel in g.local && m.client in g.on && View(d) == Membership.Join(g, m)
    requires c in d.channelList && c in g.local
    ensures forall k :: k in c.membersLocal ==> k in g.local[c] || (k == m && c == m.channel)
  {
    assert View(d).local[c] == c.membersLocal;
  }

  /** Joining. */
  method Enter(d: Ircd, mt: Matcher, channel: Channel, u: Client, status: set<char>) returns (member: ChannelMember)
    requires Linked(View(d)) && channel in d.channelList && u in d.people && !u.server
    requires !IsMember(View(d), u, channel) && AllCoherent(d, mt)
    modifies channel`members, channel`membersLocal, u`channel
    ensures AllCoherent(d, mt) && Linked(View(d))
    ensures member.client == u && member.channel == channel && View(d) == Membership.Join(old(View(d)), member)
  {
    hide Linked, IsMember, Membership.Join, Excluded;
    ghost var g := View(d);
    member := AddUserToChannel(d, channel, u, status);
    forall c, k | c in d.channelList && k in c.membersLocal ensures MemberOk(mt, c, k) {
      LocalAfterJoin(d, g, member, c);
    }
  }

  method ClearAndRename(u: Client, nick: string)
    modifies u`name, u`umodes
    modifies (set m | m in u.channel)`banChecked, (set m | m in u.channel)`banSilenced,
      (set m | m in u.channel)`muteChecked
    ensures u.name == nick && u.umodes == old(u.umodes) - {'r'}
    ensures forall m :: m in u.channel ==> CacheOf(m) == G.Cache(false, false, false)
  {
    G.ClearBanCacheList(u.channel);
    assert forall m :: m in u.channel ==> G.Caches(u.channel)[m] == CacheOf(m);
    if 'r' in u.umodes {
      u.umodes := u.umodes - {'r'};
    }
    u.name := nick;
  }

  /** SVSNICK: the caches of all the user's memberships are thrown away, and the nick changes. */
  method SvsNick(d: Ircd, mt: Matcher, u: Client, nick: string)
    requires Linked(View(d)) && u in d.people
    modifies u`name, u`umodes
    modifies (set m | m in u.channel)`banChecked, (set m | m in u.channel)`banSilenced,
      (set m | m in u.channel)`muteChecked
    ensures old(AllCoherent(d, mt)) ==> AllCoherent(d, mt)
    ensures u.name == nick && u.umodes == if nick == old(u.name) then old(u.umodes) else old(u.umodes) - {'r'}
  {
    if u.name == nick {
      return;
    }
    hide Linked, CacheOk, Excluded;
    forall c, m | c in d.channelList && m in c.membersLocal ensures m in u.channel <==> m.client == u {
      OwnMember(d, c, m, u);
    }
    ghost var right := AllCoherent(d, mt);
    ClearAndRename(u, nick);
    forall c, m | right && c in d.channelList && m in c.membersLocal ensures MemberOk(mt, c, m) {
      if m.client == u { EmptyCacheOk(mt, c, m); }
    }
  }

  /** An empty cache is right for any lists. */
  lemma EmptyCacheOk(mt: Matcher, c: Channel, m: ChannelMember)
    requires CacheOf(m) == G.Cache(false, false, false)
    ensures MemberOk(mt, c, m)
  {
  }


  lemma OwnMember(d: Ircd, c: Channel, m: ChannelMember, u: Client)
    requires Linked(View(d)) && c in d.channelList && m in c.membersLocal && u in d.people
    ensures m in u.channel <==> m.client == u
  {
    assert View(d).members[c] == c.members && View(d).local[c] == c.membersLocal && View(d).on[u] == u.channel;
    assert ChannelLinked(View(d), c) && ClientLinked(View(d), u);
  }

  /** The channels and local members are among the given ones, and the masks as given. */
  ghost predicate Narrowed(d: Ircd, local: map<Channel, seq<ChannelMember>>, masks: map<Channel, Masks>)
    reads d`channelList, Channels(d)`membersLocal, MaskListsOf(Channels(d))`masks
  {
    && (forall c :: c in d.channelList ==> c in local && c in masks && MasksOf(c) == masks[c])
    && (forall c, k :: c in d.channelList && k in c.membersLocal ==> k in local[c])
  }

  lemma StrippedLocal(d: Ircd, g: Graph, gone: set<ChannelMember>, c: Channel)
    requires WellTyped(g) && View(d) == Strip(g, gone) && c in d.channelList
    ensures c in g.local && forall k :: k in c.membersLocal ==> k in g.local[c]
  {
    assert View(d).local[c] == c.membersLocal;
    assert c in Kept(g.members, gone);
  }

  /** Memberships and channels went; the caches of those that stay are still right. */
  lemma StillCoherentAll(d: Ircd, mt: Matcher, g: Graph, gone: set<ChannelMember>, masks: map<Channel, Masks>)
    requires CachesWere(mt, g.local, masks) && WellTyped(g) && View(d) == Strip(g, gone)
    requires Narrower(MaskMap(Channels(d)), masks)
    ensures AllCoherent(d, mt)
  {
    hide CachesWere, AllCoherent, Strip, WellTyped;
    forall c | c in d.channelList
      ensures c in g.local && (forall k :: k in c.membersLocal ==> k in g.local[c])
      ensures c in masks && MasksOf(c) == masks[c]
    {
      StrippedLocal(d, g, gone, c);
      assert c in MaskMap(Channels(d));
    }
    CoherentAfter(d, mt, g, masks);
  }

  /** Leaving. */
  method Depart(d: Ircd, mt: Matcher, member: ChannelMember, ghost now: nat)
    requires GraphOk(d, now) && member.client in d.people && member in member.client.channel && AllCoherent(d, mt)
    modifies d`channelList, d.people`channel, d.people`invited
    modifies Channels(d)`members, Channels(d)`membersLocal, Channels(d)`invites
    modifies member.channel.banlist`masks, member.channel.exceptlist`masks, member.channel.invexlist`masks
    ensures GraphOk(d, now) && AllCoherent(d, mt) && View(d) == Strip(old(View(d)), {member})
  {
    hide Linked, NoneEmpty, Invites.Consistent, OwnLists, MemberWas, AllCoherent, Leave, Leavable, Strip,
      Narrower, MaskMap;
    ghost var g, masks := View(d), MaskMap(Channels(d));
    CoherentBefore(d, mt);
    LinkedIsTyped(g);
    OwnListDistinct(d, member.client);
    RemoveKeepingMasks(d, member, now);
    StillCoherentAll(d, mt, g, {member}, masks);
  }

  lemma LinkedIsTyped(g: Graph)
    requires Linked(g)
    ensures WellTyped(g)
  {
  }

  /** The caches are right for the given lists. */
  ghost predicate CachesWere(mt: Matcher, local: map<Channel, seq<ChannelMember>>, masks: map<Channel, Masks>)
    reads (set c, m | c in local && m in local[c] :: m)`banChecked,
      (set c, m | c in local && m in local[c] :: m)`banSilenced
    reads (set c, m | c in local && m in local[c] :: m)`muteChecked,
      (set c, m | c in local && m in local[c] :: m.client)`name
    reads (set c, m | c in local && m in local[c] :: m.client)`umodes
  {
    forall c, m :: c in local && m in local[c] ==>
      c in masks && MemberWas(mt, masks[c].0, masks[c].1, m, CacheOf(m))
  }

  lemma CoherentBefore(d: Ircd, mt: Matcher)
    requires AllCoherent(d, mt)
    ensures CachesWere(mt, View(d).local, MaskMap(Channels(d)))
  {
    hide MemberWas, MemberOk;
    var local := View(d).local;
    forall c, m | c in local && m in local[c]
      ensures MemberWas(mt, MasksOf(c).0, MasksOf(c).1, m, CacheOf(m))
    {
      assert c in d.channelList && m in c.membersLocal;
      WasIsOk(mt, c, m);
    }
  }

  lemma CoherentAfter(d: Ircd, mt: Matcher, g: Graph, masks: map<Channel, Masks>)
    requires CachesWere(mt, g.local, masks) && Narrowed(d, g.local, masks)
    ensures AllCoherent(d, mt)
  {
    hide MemberWas, MemberOk;
    forall c, m | c in d.channelList && m in c.membersLocal ensures MemberOk(mt, c, m) {
      assert m in g.local[c];
      WasIsOk(mt, c, m);
    }
  }

  lemma WasIsOk(mt: Matcher, c: Channel, m: ChannelMember)
    ensures MemberWas(mt, MasksOf(c).0, MasksOf(c).1, m, CacheOf(m)) <==> MemberOk(mt, c, m)
  {
  }
}
