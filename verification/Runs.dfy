// Whole runs: any of the actions, in any order.
module Runs {
  import opened Strings
  import opened Entities
  import opened Invites
  import opened Membership
  import opened ServerTree
  import opened DeadLinks
  import opened ClientExit
  import opened Departures
  import opened Steps
  import C = ChannelCommands
  import B = BanCache
  import G = ModeEngine
  import O = OperCount
  import S = ModeSpec
  import L = ModeLines

  /** What may happen: a user joins, parts, is invited or speaks, a channel's modes change, a user gets another nick,
      becomes an operator or has its modes changed by services, anyone exits, the dead connections are worked off,
      writes fail, time passes. */
  datatype Action =
    | Join(user: Client, name: string, key: Option<string>, allowed: bool, joinBan: bool)
    | Part(user: Client, name: string)
    | Invite(user: Client, name: string)
    | Speak(user: Client, name: string, msg: B.Message)
    | Mode(asker: Client?, name: string, asked: Asked)
    | SvsNick(user: Client, nick: string, failures: Failures)
    | Oper(user: Client, confModes: set<char>, operUmodes: set<char>, admin: bool)
    | Svsmode(user: Client, modes: string)
    | Exit(client: Client, failures: Failures)
    | WorkOff(failures: Failures)
    | Write(failing: seq<Client>)
    | Wait(seconds: nat)

  datatype Settings = Settings(maxChannels: nat, inviteTtl: nat, maxInvites: nat, operOnly: set<char>)

  /** What is known of an action beforehand: writes fail on connections only, and a mode string fits into a message. */
  ghost predicate Possible(a: Action, people: set<Client>, conn: set<Client>) {
    match a
    case Mode(_, _, asked) => asked.parv != [] && |asked.parv[0]| < L.IRCD_BUFSIZE
    case SvsNick(_, _, f) => AllIn(f, people, conn)
    case Exit(x, f) => AllIn(f, people, conn) && (x.local ==> x in conn)
    case WorkOff(f) => AllIn(f, people, conn)
    case Write(failing) => forall c :: c in failing ==> c in conn
    case _ => true
  }

  /** Does the action leave the ban caches alone? It does unless it changes user modes that the bans look at. */
  ghost predicate Harmless(a: Action, mt: B.Matcher) {
    a.Oper? || a.Svsmode? ==> B.BlindToModes(mt, a.user)
  }

  /** Can the action happen now? It needs its user to be there; exits may come again. */
  predicate Due(d: Ircd, a: Action)
    reads d`globalClients, d`globalServers, (set u | u in d.globalClients)`umodes
  {
    match a
    case Join(u, _, _, _, _) => u in d.globalClients && u.local
    case Part(u, _) => u in d.globalClients
    case Invite(u, _) => u in d.globalClients && u.local
    case Speak(u, _, _) => u in d.globalClients
    case Mode(asker, _, _) => asker != null ==> asker in d.globalClients
    case SvsNick(u, _, _) => u in d.globalClients && u.local
    case Oper(u, _, _, _) => u in d.globalClients && u.local && 'o' !in u.umodes
    case Svsmode(u, _) => u in d.globalClients
    case Exit(x, _) => x.local || x in d.globalClients || x in d.globalServers
    case WorkOff(_) => true
    case Write(_) => true
    case Wait(_) => true
  }

  lemma Present(d: Ircd, conn: set<Client>, now: nat)
    requires Sane(d, conn, now) && LocalOk(d, conn)
    ensures forall u :: u in d.globalClients ==> u in d.people && !u.server && (u.local ==> u in conn)
    ensures conn <= d.people
  {
    forall u | u in d.globalClients ensures u in d.people && !u.server && (u.local ==> u in conn) {
      UserPresent(d, conn, now, u);
    }
  }

  lemma UserPresent(d: Ircd, conn: set<Client>, now: nat, u: Client)
    requires Sane(d, conn, now) && LocalOk(d, conn) && u in d.globalClients
    ensures u in d.people && !u.server && (u.local ==> u in conn) && conn <= d.people
  {
    hide Sane, Directory, Rooted;
    SaneParts(d, conn, now);
    ListedUser(d, conn, now, u);
    OpenIsListed(Net(d), LocalsIn(d), WithMode(d.people, 'o'), Open(conn), u);
  }

  /** Whatever belongs to a channel is among the things of the graph. */
  lemma Holds(d: Ircd)
    requires Linked(View(d))
    ensures Channels(d) <= Things(View(d)) && MaskListsOf(Channels(d)) <= Things(View(d))
    ensures (set c | c in d.channelList :: c.mode) <= Things(View(d))
    ensures (set c, m | c in d.channelList && m in c.members :: m) <= Things(View(d))
    ensures (set c, m | c in d.channelList && m in c.membersLocal :: m) <= Things(View(d))
    ensures forall u :: u in d.people ==> (set m | m in u.channel) <= Things(View(d))
  {
    hide Linked;
    var g := View(d);
    forall c, m | c in d.channelList && m in c.members ensures m in MembersOf(g) {
      assert c in g.members && m in g.members[c];
    }
    forall c, m | c in d.channelList && m in c.membersLocal ensures m in c.members { LocalIsMember(g, c, m); }
    forall u, m | u in d.people && m in u.channel ensures m in MembersOf(g) { OnIsMember(g, u, m); }
  }

  lemma LocalIsMember(g: Graph, c: Channel, m: ChannelMember)
    requires Linked(g) && c in g.local && m in g.local[c]
    ensures c in g.members && m in g.members[c]
  {
    assert ChannelLinked(g, c);
  }

  lemma OnIsMember(g: Graph, u: Client, m: ChannelMember)
    requires Linked(g) && u in g.on && m in g.on[u]
    ensures m in MembersOf(g)
  {
    assert ClientLinked(g, u);
    assert m.channel in g.members && m in g.members[m.channel];
  }

  predicate OnChannels(a: Action) {
    a.Join? || a.Part? || a.Invite? || a.Speak? || a.Mode?
  }

  /** What an action on a channel comes to. */
  ghost predicate Granted(d: Ircd, a: Action, o: Settings, now: nat, was: Situation)
    reads d`channelList, d.people`channel, d.people`invited, Channels(d)`members, Channels(d)`membersLocal
    reads Channels(d)`invites, d`globalClients, d.people`name
    reads (set c, m | c in d.channelList && m in c.members :: m)`status
    reads (set c | c in d.channelList :: c.mode), (set c | c in d.channelList :: c.banlist)
    reads (set c | c in d.channelList :: c.exceptlist), (set c | c in d.channelList :: c.invexlist)
    reads if a.Invite? then {a.user} else {}
  {
    match a
    case Join(u, name, _, allowed, joinBan) =>
      && (C.OnNamed(View(d), u, name) <==>
           C.MayGetOn(was.graph, was.standings, allowed, joinBan, was.on < o.maxChannels, u, name))
      && C.OnlyOn(was.graph, View(d), u, name) && OthersKept(was.invites, InviteView(d), u, now, o.inviteTtl)
    case Part(u, name) => C.OnlyOff(was.graph, View(d), u, name) && InvitesStay(was.invites, InviteView(d))
    case Invite(u, name) =>
      && View(d) == was.graph && OthersKept(was.invites, InviteView(d), u, now, o.inviteTtl)
      && if exists c :: c in d.channelList && C.IsNamed(c, name)
         then NewlyInvited(u, name, now) && (|u.invited| <= o.maxInvites || |u.invited| == 1)
         else InviteView(d) == was.invites
    case Speak(_, _, _) => View(d) == was.graph
    case Mode(_, name, asked) =>
      && View(d) == was.graph
      && (asked.parv != [] ==> exists env: S.Env ::
           G.Resolves(env, Chase(asked.lookup, set k | k in d.globalClients), d.people) &&
           Changed(d, name, env, asked.src, asked.parv, was.before))
    case _ => true
  }

  /** What that depends on. */
  datatype Situation = Situation(graph: Graph, invites: InviteGraph, standings: map<Channel, C.Standing>, on: nat,
                                 before: map<Channel, Before>)

  ghost function SituationOf(d: Ircd, mt: B.Matcher, a: Action, o: Settings, now: nat): Situation
    reads d`channelList, d.people`channel, d.people`invited, Channels(d)`members, Channels(d)`membersLocal
    reads Channels(d)`invites
    reads (set c, m | c in d.channelList && m in c.members :: m)`status
    reads (set c | c in d.channelList :: c.mode), (set c | c in d.channelList :: c.banlist)
    reads (set c | c in d.channelList :: c.exceptlist), (set c | c in d.channelList :: c.invexlist)
    reads if a.Join? then {a.user} else {}
  {
    Situation(View(d), InviteView(d), if a.Join? then C.Standings(d, mt, a.user, a.key, now, o.inviteTtl) else map[],
              if a.Join? then |a.user.channel| else 0, AllBefore(d, if a.Mode? then a.asker else null))
  }

  /** An action on a channel. */
  method ActOnChannel(g: G.ModeGlobals, d: Ircd, mt: B.Matcher, a: Action, o: Settings, ghost conn: set<Client>,
                      now: nat)
    returns (said: Option<B.Verdict>, ghost extra: set<object>)
    requires Sane(d, conn, now) && LocalOk(d, conn) && ChannelsOk(d) && IdsOk(d.people)
    requires g.changes.Length == L.IRCD_BUFSIZE && Possible(a, d.people, conn) && Due(d, a) && OnChannels(a)
    modifies d`channelList, d.people`channel, d.people`invited, Things(View(d)), g, g.changes
    ensures Sane(d, conn, now) && LocalOk(d, conn) && ChannelsOk(d)
    ensures old(B.AllCoherent(d, mt)) ==> B.AllCoherent(d, mt)
    ensures fresh(extra) && Things(View(d)) <= old(Things(View(d))) + extra
    ensures if a.Speak? then old(B.AllCoherent(d, mt)) ==> said == old(MaySay(d, mt, a.user, a.name, a.msg))
      else said == None
    ensures a.Speak? && old(B.AllCoherent(d, mt)) ==> SaidRightly(d, mt, a.user, a.name, a.msg, said)
    ensures Granted(d, a, o, now, old(SituationOf(d, mt, a, o, now)))
  {
    hide Sane, LocalOk, ChannelsOk, B.AllCoherent, AllIn, IdsOk, Things, View, Linked, C.OnNamed, C.MayGetOn, C.OnlyOn,
      C.OnlyOff, C.Standings, OthersKept, InvitesStay, InviteView, NewlyInvited, AllBefore, Changed, SaidRightly,
      MaySay, G.Resolves, Chase;
    SaneParts(d, conn, now);
    Present(d, conn, now);
    Holds(d);
    extra, said := {}, None;
    match a {
      case Join(u, name, key, allowed, joinBan) =>
        var r;
        r, extra := JoinStep(d, mt, u, name, key, allowed, joinBan, o.maxChannels, conn, now, o.inviteTtl);
      case Part(u, name) => PartStep(d, mt, u, name, conn, now);
      case Invite(u, name) => InviteStep(d, mt, u, name, conn, now, o.inviteTtl, o.maxInvites);
      case Speak(u, name, msg) => said := SpeakStep(d, mt, u, name, msg, conn, now);
      case Mode(asker, name, asked) =>
        ghost var env := ModeStep(g, d, mt, asker, name, asked, conn, now);
      case _ => assert false;
    }
  }

  /** An action on a user or a server, or time passing. */
  method ActOnClient(d: Ircd, mt: B.Matcher, a: Action, o: Settings, ghost conn: set<Client>, now: nat)
    returns (later: nat)
    requires Sane(d, conn, now) && LocalOk(d, conn) && ChannelsOk(d)
    requires Possible(a, d.people, conn) && Due(d, a) && !OnChannels(a)
    modifies d, d.people, Things(View(d))
    ensures Sane(d, conn, later) && LocalOk(d, conn) && ChannelsOk(d) && later >= now
    ensures old(B.AllCoherent(d, mt)) && Harmless(a, mt) ==> B.AllCoherent(d, mt)
    ensures Things(View(d)) <= old(Things(View(d)))
    ensures d.lost == old(d.lost) +
      if a.Svsmode? then O.Uncounted(a.modes, old(a.user.umodes), a.user.local, o.operOnly) else 0
    ensures a.Oper? ==>
      var given := if a.confModes != {} then a.confModes else a.operUmodes;
      a.user.umodes == old(a.user.umodes) + {'o'} + given + if a.admin then {'a'} else {}
    ensures a.Svsmode? ==>
      a.user.umodes == O.SvsRun(a.modes, true, O.Tally(old(a.user.umodes), 0, 0), a.user.local, o.operOnly).umodes
    ensures a.SvsNick? ==> if old(Taken(d, a.user, a.nick)) then a.user.closing else a.user.name == a.nick
    ensures (a.Exit? && a.client.local ==> a.client.closing) && (a.WorkOff? ==> d.abortList == [])
    ensures a.Exit? && !old(a.client.local && a.client.closing) ==>
      OnlyBehind(old(Net(d)), old(View(d)), Net(d), View(d), a.client)
    ensures a.WorkOff? ==> forall c :: c in old(d.abortList) ==> c in Closing(conn)
    ensures a.Exit? || a.WorkOff? ==>
      OwnGone(old(InviteView(d)).ofChannel, InviteView(d).ofChannel, if a.Exit? then {a.client} else Closing(conn))
  {
    hide Sane, LocalOk, ChannelsOk, B.AllCoherent, B.BlindToModes, AllIn, Things, View, Linked, O.SvsRun, O.Uncounted,
      Taken, OnlyBehind, OwnGone, InviteView;
    SaneParts(d, conn, now);
    Present(d, conn, now);
    Holds(d);
    later := now;
    match a {
      case SvsNick(u, nick, f) =>
        var collided := SvsNickStep(d, mt, u, nick, f, conn, now);
      case Oper(u, confModes, operUmodes, admin) => OperStep(d, mt, u, confModes, operUmodes, admin, conn, now);
      case Svsmode(u, modes) => SvsmodeStep(d, mt, u, modes, o.operOnly, conn, now);
      case Exit(x, f) => ExitStep(d, mt, x, f, conn, now);
      case WorkOff(f) => WorkOffStep(d, mt, f, conn, now);
      case Write(failing) => WriteStep(d, mt, failing, conn, now);
      case Wait(seconds) =>
        later := now + seconds;
        StaysSane(d, conn, now, later);
      case _ => assert false;
    }
  }

  lemma DaemonIsNoThing(d: Ircd)
    ensures d !in Things(View(d))
  {
  }

  /** One action. */
  method Act(g: G.ModeGlobals, d: Ircd, mt: B.Matcher, a: Action, o: Settings, ghost conn: set<Client>, now: nat)
    returns (later: nat, said: Option<B.Verdict>, ghost extra: set<object>)
    requires Sane(d, conn, now) && LocalOk(d, conn) && ChannelsOk(d) && IdsOk(d.people)
    requires g.changes.Length == L.IRCD_BUFSIZE && Possible(a, d.people, conn) && Due(d, a)
    modifies d, d.people, Things(View(d)), g, g.changes
    ensures Sane(d, conn, later) && LocalOk(d, conn) && ChannelsOk(d) && later >= now
    ensures old(B.AllCoherent(d, mt)) && Harmless(a, mt) ==> B.AllCoherent(d, mt)
    ensures fresh(extra) && Things(View(d)) <= old(Things(View(d))) + extra
    ensures if a.Speak? then old(B.AllCoherent(d, mt)) ==> said == old(MaySay(d, mt, a.user, a.name, a.msg))
      else said == None
    ensures a.Speak? && old(B.AllCoherent(d, mt)) ==> SaidRightly(d, mt, a.user, a.name, a.msg, said)
    ensures Granted(d, a, o, now, old(SituationOf(d, mt, a, o, now)))
    ensures d.lost == old(d.lost) +
      if a.Svsmode? then O.Uncounted(a.modes, old(a.user.umodes), a.user.local, o.operOnly) else 0
    ensures a.Oper? ==>
      var given := if a.confModes != {} then a.confModes else a.operUmodes;
      a.user.umodes == old(a.user.umodes) + {'o'} + given + if a.admin then {'a'} else {}
    ensures a.Svsmode? ==>
      a.user.umodes == O.SvsRun(a.modes, true, O.Tally(old(a.user.umodes), 0, 0), a.user.local, o.operOnly).umodes
    ensures a.SvsNick? ==> if old(Taken(d, a.user, a.nick)) then a.user.closing else a.user.name == a.nick
    ensures (a.Exit? && a.client.local ==> a.client.closing) && (a.WorkOff? ==> d.abortList == [])
    ensures a.Exit? && !old(a.client.local && a.client.closing) ==>
      OnlyBehind(old(Net(d)), old(View(d)), Net(d), View(d), a.client)
    ensures a.WorkOff? ==> forall c :: c in old(d.abortList) ==> c in Closing(conn)
    ensures a.Exit? || a.WorkOff? ==>
      OwnGone(old(InviteView(d)).ofChannel, InviteView(d).ofChannel, if a.Exit? then {a.client} else Closing(conn))
  {
    hide Sane, LocalOk, ChannelsOk, B.AllCoherent, Harmless, IdsOk, Things, View, Possible, Due, Taken, O.SvsRun,
      O.Uncounted, SaidRightly, MaySay, SituationOf, OwnGone, InviteView;
    DaemonIsNoThing(d);
    extra, later, said := {}, now, None;
    if OnChannels(a) {
      said, extra := ActOnChannel(g, d, mt, a, o, conn, now);
    } else {
      later := ActOnClient(d, mt, a, o, conn, now);
    }
  }

  /** Over every run, of any actions in any order, the memberships stay linked both ways and no channel stays empty,
      the invites stay consistent, the tree rooted, the operators and local lists exact and the abort list in order. The
      invisible users are counted exactly but for what SVSMODE leaves uncounted, which is nothing unless invisible is
      among the modes that only operators may have. If no action changes user modes that the bans look at, the ban
      caches stay right too, and every message is judged as it would have been without them. */
  method Serve(g: G.ModeGlobals, d: Ircd, mt: B.Matcher, actions: seq<Action>, o: Settings, ghost conn: set<Client>,
               start: nat)
    returns (now: nat, said: seq<Option<B.Verdict>>, ghost uncached: seq<Option<B.Verdict>>)
    requires Sane(d, conn, start) && LocalOk(d, conn) && ChannelsOk(d) && IdsOk(d.people)
    requires g.changes.Length == L.IRCD_BUFSIZE && forall a :: a in actions ==> Possible(a, d.people, conn)
    modifies d, d.people, Things(View(d)), g, g.changes
    ensures Sane(d, conn, now) && LocalOk(d, conn) && ChannelsOk(d) && now >= start
    ensures 'i' !in o.operOnly ==> d.lost == old(d.lost)
    ensures old(B.AllCoherent(d, mt)) && (forall a :: a in actions ==> Harmless(a, mt)) ==>
      B.AllCoherent(d, mt) && said == uncached
  {
    hide Sane, LocalOk, ChannelsOk, B.AllCoherent, IdsOk, Things, View, Possible, Due, MaySay, Harmless, O.Uncounted;
    ghost var right := B.AllCoherent(d, mt) && forall a :: a in actions ==> Harmless(a, mt);
    ghost var things: set<object> := {};
    now, said, uncached := start, [], [];
    for i := 0 to |actions|
      invariant Sane(d, conn, now) && LocalOk(d, conn) && ChannelsOk(d) && now >= start
      invariant fresh(things) && Things(View(d)) <= old(Things(View(d))) + things
      invariant 'i' !in o.operOnly ==> d.lost == old(d.lost)
      invariant right ==> B.AllCoherent(d, mt) && said == uncached
    {
      var a := actions[i];
      if Due(d, a) {
        if a.Speak? {
          uncached := uncached + [MaySay(d, mt, a.user, a.name, a.msg)];
        }
        if a.Svsmode? && 'i' !in o.operOnly {
          O.NoneUncounted(a.modes, a.user.umodes, a.user.local, o.operOnly);
        }
        ghost var extra;
        var verdict;
        now, verdict, extra := Act(g, d, mt, a, o, conn, now);
        things := things + extra;
        if a.Speak? {
          said := said + [verdict];
        }
      }
    }
  }
}
