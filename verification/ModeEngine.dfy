// The channel mode engine as it runs: one set of global variables, a parameter vector that is edited in
// place, and handlers that change the channel they are given.
module ModeEngine {
  import opened Strings
  import opened ModeSpec
  import opened ModeLines
  import E = Entities
  import M = Membership
  import F = ModeEffects

  // ---------------------------------------------------------------- the channel in the daemon

  /** No two members have the same id. */
  ghost predicate DistinctIds(members: seq<E.ChannelMember>) {
    forall a, b :: a in members && b in members && a.client.id == b.client.id ==> a == b
  }

  ghost function StatusOf(members: seq<E.ChannelMember>): map<string, set<char>>
    requires DistinctIds(members)
    reads (set m | m in members)`status
  {
    map m | m in members :: m.client.id := m.status
  }

  ghost function Value(c: E.Channel): Channel
    requires DistinctIds(c.members)
    reads c`members, (set m | m in c.members)`status, c.mode, c.banlist, c.exceptlist, c.invexlist
  {
    Channel(c.mode.modes, c.mode.key, c.mode.limit, StatusOf(c.members),
            c.banlist.masks, c.exceptlist.masks, c.invexlist.masks)
  }

  function ListFor(channel: E.Channel, c: char): E.MaskList {
    if c == 'b' then channel.banlist else if c == 'e' then channel.exceptlist else channel.invexlist
  }

  /** The ban cache of one member. */
  datatype Cache = Cache(banChecked: bool, banSilenced: bool, muteChecked: bool)

  ghost function Caches(members: seq<E.ChannelMember>): map<E.ChannelMember, Cache>
    reads (set m | m in members)`banChecked, (set m | m in members)`banSilenced, (set m | m in members)`muteChecked
  {
    map m | m in members :: Cache(m.banChecked, m.banSilenced, m.muteChecked)
  }

  ghost function NoCaches(members: seq<E.ChannelMember>): map<E.ChannelMember, Cache> {
    map m | m in members :: Cache(false, false, false)
  }

  /** clear_ban_cache_list */
  method ClearBanCacheList(members: seq<E.ChannelMember>)
    modifies (set m | m in members)`banChecked, (set m | m in members)`banSilenced, (set m | m in members)`muteChecked
    ensures Caches(members) == NoCaches(members)
  {
    for i := 0 to |members|
      invariant forall j :: 0 <= j < i ==> !members[j].banChecked && !members[j].banSilenced && !members[j].muteChecked
    {
      members[i].banChecked, members[i].banSilenced, members[i].muteChecked := false, false, false;
    }
  }

  // ---------------------------------------------------------------- small loops

  /** fix_key */
  method CleanUpKey(arg: string) returns (key: string)
    ensures key == FixKey(arg)
  {
    key := "";
    var s := 0;
    while s < |arg| && s < KEYLEN
      invariant s <= |arg| && s <= KEYLEN && key == CleanKey(arg[..s])
    {
      assert arg[..s + 1][..s] == arg[..s];
      if KeyChar(SevenBit(arg[s])) {
        key := key + [SevenBit(arg[s])];
      }
      s := s + 1;
    }
    assert arg[..s] == Truncate(arg, KEYLEN);
  }

  /** The search loops of add_id and del_id. */
  method FindInList(list: seq<string>, mask: string) returns (i: nat)
    ensures i == FindMask(list, mask)
  {
    i := 0;
    while i < |list|
      invariant i <= |list| && forall j :: 0 <= j < i ==> !SameFolded(mask, list[j])
    {
      if SameFolded(mask, list[i]) {
        break;
      }
      i := i + 1;
    }
  }

  function GetChannelAccess(src: Source, member: E.ChannelMember?): int
    reads (if member == null then {} else {member})`status
  {
    Access(src, if member == null then None else Some(member.status))
  }

  // ---------------------------------------------------------------- the engine

  class ModeGlobals {
    const changes: array<Change>  // mode_changes
    var count: nat                // mode_count
    var quota: nat                // mode_limit
    var simple: set<char>         // simple_modes_mask
    var parn: nat
    var errors: set<Err>
    var replies: seq<Reply>       // the numerics sent to the source
    var toServers: seq<string>
    var toMembers: seq<Told>

    constructor ()
      ensures fresh(changes) && changes.Length == IRCD_BUFSIZE && count == 0
      ensures toServers == [] && toMembers == []
    {
      changes := new Change[IRCD_BUFSIZE](_ => Change(CANCELLED, None, None, Query, false));
      count, quota, simple, parn, errors, replies := 0, 0, {}, 1, {}, [];
      toServers, toMembers := [], [];
    }

    ghost function State(channel: E.Channel): Engine
      requires count <= changes.Length && DistinctIds(channel.members)
      reads `count, `quota, `simple, `parn, `errors, `replies, changes
      reads channel`members, (set m | m in channel.members)`status
      reads channel.mode, channel.banlist, channel.exceptlist, channel.invexlist
    {
      Engine(Value(channel), changes[..count], parn, quota, simple, errors, replies)
    }

    /** The parameters not yet used are as they came. */
    ghost predicate Unspent(x: Context, parv: array<string>)
      reads this`parn, parv
    {
      parv.Length == |x.parv| && forall i :: parn <= i < parv.Length ==> parv[i] == x.parv[i]
    }

    /** A handler can be run: there is room in the log for another change. */
    ghost predicate Ready(x: Context, channel: E.Channel, parv: array<string>)
      reads this`count, this`parn, channel`members, parv
    {
      count < changes.Length && DistinctIds(channel.members) && channel.SeparateLists() && Unspent(x, parv)
    }

    /** An error numeric is sent once per call. */
    method SendOnce(err: Err, shown: seq<string>, ghost channel: E.Channel)
      requires count <= changes.Length && DistinctIds(channel.members)
      modifies this`errors, this`replies
      ensures State(channel) == Tell(old(State(channel)), err, shown)
    {
      if err !in errors {
        replies := replies + [Reply(err, shown)];
      }
      errors := errors + {err};
    }

    /** mode_changes[mode_count++] */
    method Record(ch: Change, ghost channel: E.Channel)
      requires count < changes.Length && DistinctIds(channel.members)
      modifies this`count, changes
      ensures count == old(count) + 1 && State(channel) == Logged(old(State(channel)), ch)
    {
      changes[count] := ch;
      count := count + 1;
      assert changes[..count] == old(changes[..count]) + [ch];
    }

    lemma CancelledEach(log: seq<Change>, log': seq<Change>, c: char)
      requires |log'| == |log| && forall j :: 0 <= j < |log| ==> log'[j] == CancelOne(log[j], c)
      ensures log' == Cancel(log, c)
    {
    }

    /** "accept latter" */
    method CancelEarlier(c: char, ghost channel: E.Channel)
      requires count <= changes.Length && DistinctIds(channel.members)
      modifies changes
      ensures State(channel) == old(State(channel)).(log := Cancel(old(State(channel)).log, c))
    {
      hide DistinctIds;
      for i := 0 to count
        invariant forall j :: 0 <= j < i ==> changes[j] == CancelOne(old(changes[j]), c)
        invariant forall j :: i <= j < count ==> changes[j] == old(changes[j])
      {
        if changes[i].letter == c && changes[i].dir.Add? {
          changes[i] := changes[i].(letter := CANCELLED);
        }
      }
      CancelledEach(old(changes[..count]), changes[..count], c);
    }

    /** simple_modes_mask |= mode */
    method MarkSimple(c: char, ghost channel: E.Channel)
      requires count <= changes.Length && DistinctIds(channel.members)
      modifies this`simple
      ensures State(channel) == old(State(channel)).(done := old(State(channel)).done + {c})
    {
      simple := simple + {c};
    }

    /** AddCMode, DelCMode */
    method SetCMode(channel: E.Channel, c: char, on: bool)
      requires count <= changes.Length && DistinctIds(channel.members)
      modifies channel.mode`modes
      ensures State(channel) == old(State(channel)).(chan := old(Value(channel)).(modes :=
        if on then old(Value(channel)).modes + {c} else old(Value(channel)).modes - {c}))
    {
      hide DistinctIds;
      channel.mode.modes := if on then channel.mode.modes + {c} else channel.mode.modes - {c};
    }

    method ChmSimple(x: Context, channel: E.Channel, parv: array<string>, dir: Dir, c: char)
      requires Ready(x, channel, parv) && IsSimple(c)
      modifies this`count, this`simple, this`errors, this`replies, changes, channel.mode`modes
      ensures count <= old(count) + 1
      ensures State(channel) == StepSimple(x, dir, c, old(State(channel)))
    {
      hide ModeOf, DistinctIds;
      var info := ModeOf(c).value;
      if info.onlyOpers {
        if x.src.MyClient() && !x.src.oper {
          SendOnce(NotOper, [], channel);
          return;
        }
      }
      if info.onlyServers {
        if !x.src.server && !x.src.service {
          SendOnce(OnlyServer, [], channel);
          return;
        }
      }
      if x.access < info.level {
        SendOnce(NoOps, [], channel);
        return;
      }
      if c in simple {
        return;
      }
      MarkSimple(c, channel);
      if dir.Add? {
        if x.src.MyClient() && c in channel.mode.modes {
          return;
        }
        SetCMode(channel, c, true);
      } else if dir.Del? {
        if x.src.MyClient() && c !in channel.mode.modes {
          return;
        }
        SetCMode(channel, c, false);
      }
      Record(Change(c, None, None, dir, false), channel);
    }

    /** parv[(*parn)++] */
    method NextParameter(parv: array<string>, ghost channel: E.Channel) returns (arg: string)
      requires parn < parv.Length
      requires count <= changes.Length && DistinctIds(channel.members)
      modifies this`parn
      ensures arg == parv[old(parn)]
      ensures State(channel) == old(State(channel)).(parn := old(parn) + 1)
    {
      arg := parv[parn];
      parn := parn + 1;
    }

    /** The parameter just taken is edited where it is. */
    method EditParameter(x: Context, parv: array<string>, arg: string, ghost channel: E.Channel)
      requires 0 < parn <= parv.Length && Unspent(x, parv)
      requires count <= changes.Length && DistinctIds(channel.members)
      modifies parv
      ensures State(channel) == old(State(channel)) && Unspent(x, parv) && parv[parn - 1] == arg
    {
      hide DistinctIds;
      parv[parn - 1] := arg;
    }

    /** ++mode_limit, for local users */
    method CountChange(x: Context, ghost channel: E.Channel)
      requires count <= changes.Length && DistinctIds(channel.members)
      modifies this`quota
      ensures State(channel) == if x.src.MyClient() then old(State(channel)).(quota := old(quota) + 1)
        else old(State(channel))
      ensures quota == if x.src.MyClient() then old(quota) + 1 else old(quota)
    {
      if x.src.MyClient() {
        quota := quota + 1;
      }
    }

    method SetLimit(channel: E.Channel, n: nat)
      requires count <= changes.Length && DistinctIds(channel.members)
      modifies channel.mode`limit
      ensures State(channel) == old(State(channel)).(chan := old(Value(channel)).(limit := n))
    {
      hide DistinctIds;
      channel.mode.limit := n;
    }

    method SetKey(channel: E.Channel, key: string)
      requires count <= changes.Length && DistinctIds(channel.members)
      modifies channel.mode`key
      ensures State(channel) == old(State(channel)).(chan := old(Value(channel)).(key := key))
    {
      hide DistinctIds;
      channel.mode.key := key;
    }

    method SetMasks(channel: E.Channel, c: char, masks: seq<string>)
      requires channel.SeparateLists()
      requires count <= changes.Length && DistinctIds(channel.members)
      modifies ListFor(channel, c)`masks
      ensures State(channel) == old(State(channel)).(chan := old(Value(channel)).WithMasks(c, masks))
    {
      hide DistinctIds;
      ListFor(channel, c).masks := masks;
    }

    /** AddMemberFlag, DelMemberFlag */
    method SetStatus(channel: E.Channel, member: E.ChannelMember, now: set<char>)
      requires member in channel.members
      requires count <= changes.Length && DistinctIds(channel.members)
      modifies member`status
      ensures State(channel) == old(State(channel)).(chan := old(Value(channel)).(status :=
        old(Value(channel)).status[member.client.id := now]))
    {
      ghost var before := StatusOf(channel.members);
      member.status := now;
      assert StatusOf(channel.members) == before[member.client.id := now];
    }

    method ChmLimit(x: Context, channel: E.Channel, parv: array<string>, dir: Dir, c: char)
      requires Ready(x, channel, parv) && ModeOf(c).Some?
      modifies this`count, this`parn, this`errors, this`replies, changes, channel.mode`limit, parv
      ensures count <= old(count) + 1 && parn >= old(parn) && Unspent(x, parv)
      ensures State(channel) == StepLimit(x, dir, c, old(State(channel)))
    {
      hide ModeOf, DistinctIds, Atoi, Itoa, Cancel;
      if x.access < ModeOf(c).value.level {
        SendOnce(NoOps, [], channel);
        return;
      }
      if dir.Query? {
        return;
      }
      if dir.Add? && parv.Length > parn {
        var lstr := NextParameter(parv, channel);
        var limit := Atoi(lstr);
        if limit <= 0 {
          return;
        }
        EditParameter(x, parv, Itoa(limit), channel);
        CancelEarlier(c, channel);
        Record(Change(c, Some(parv[parn - 1]), None, dir, false), channel);
        SetLimit(channel, limit);
      } else if dir.Del? {
        if channel.mode.limit == 0 {
          return;
        }
        SetLimit(channel, 0);
        Record(Change(c, None, None, dir, false), channel);
      }
    }

    method ChmKey(x: Context, channel: E.Channel, parv: array<string>, dir: Dir, c: char)
      requires Ready(x, channel, parv) && ModeOf(c).Some?
      modifies this`count, this`parn, this`errors, this`replies, changes, channel.mode`key, parv
      ensures count <= old(count) + 1 && parn >= old(parn) && Unspent(x, parv)
      ensures State(channel) == StepKey(x, dir, c, old(State(channel)))
    {
      hide ModeOf, DistinctIds, Cancel, FixKey;
      if x.access < ModeOf(c).value.level {
        SendOnce(NoOps, [], channel);
        return;
      }
      if dir.Query? {
        return;
      }
      if dir.Add? && parv.Length > parn {
        var arg := NextParameter(parv, channel);
        var key := CleanUpKey(arg);
        EditParameter(x, parv, key, channel);
        if key == "" {
          return;
        }
        SetKey(channel, key);
        CancelEarlier(c, channel);
        Record(Change(c, Some(key), None, dir, false), channel);
      } else if dir.Del? {
        if parv.Length > parn {
          var _ := NextParameter(parv, channel);
        }
        if channel.mode.key == "" {
          return;
        }
        SetKey(channel, "");
        Record(Change(c, Some("*"), None, dir, false), channel);
      }
    }

    /** add_id: the stored string, if the mask was added; the ban caches of local members are cleared then. */
    method AddId(x: Context, channel: E.Channel, c: char, banid: string) returns (ret: Option<string>)
      requires channel.SeparateLists()
      requires count <= changes.Length && DistinctIds(channel.members)
      modifies ListFor(channel, c)`masks
      modifies (set m | m in channel.membersLocal)`banChecked, (set m | m in channel.membersLocal)`banSilenced
      modifies (set m | m in channel.membersLocal)`muteChecked
      ensures ret == MaskAdded(x, c, old(Value(channel)), banid)
      ensures State(channel) == old(State(channel)).(chan := WithAdded(x, c, old(Value(channel)), banid))
      ensures Caches(channel.membersLocal) ==
        if ret.Some? then NoCaches(channel.membersLocal) else old(Caches(channel.membersLocal))
    {
      hide DistinctIds, Truncate, FindMask, NoCaches;
      var mask := Truncate(banid, BANSTRLEN);
      if x.src.MyClient() {
        var numMask := |channel.banlist.masks| + |channel.exceptlist.masks| + |channel.invexlist.masks|;
        if numMask >= (if 'L' in channel.mode.modes then x.env.maxBansLarge else x.env.maxBans) {
          return None;
        }
        var formatted := x.env.normalise(c, mask);
        if formatted.None? {
          return None;
        }
        mask := formatted.value;
      } else if x.env.emptyMask(mask) {
        return None;
      }
      var list := ListFor(channel, c);
      var node := FindInList(list.masks, mask);
      if node < |list.masks| {
        return None;
      }
      ClearCaches(channel);
      SetMasks(channel, c, [mask] + list.masks);
      ret := Some(mask);
    }

    method ClearCaches(channel: E.Channel)
      requires count <= changes.Length && DistinctIds(channel.members)
      modifies (set m | m in channel.membersLocal)`banChecked, (set m | m in channel.membersLocal)`banSilenced
      modifies (set m | m in channel.membersLocal)`muteChecked
      ensures State(channel) == old(State(channel)) && Caches(channel.membersLocal) == NoCaches(channel.membersLocal)
    {
      hide DistinctIds;
      ClearBanCacheList(channel.membersLocal);
    }

    /** del_id: the string that was listed. */
    method DelId(channel: E.Channel, c: char, banid: string) returns (ret: Option<string>)
      requires channel.SeparateLists()
      requires count <= changes.Length && DistinctIds(channel.members)
      modifies ListFor(channel, c)`masks
      modifies (set m | m in channel.membersLocal)`banChecked, (set m | m in channel.membersLocal)`banSilenced
      modifies (set m | m in channel.membersLocal)`muteChecked
      ensures ret == MaskDeleted(c, old(Value(channel)), banid)
      ensures State(channel) == old(State(channel)).(chan := WithDeleted(c, old(Value(channel)), banid))
      ensures Caches(channel.membersLocal) ==
        if ret.Some? then NoCaches(channel.membersLocal) else old(Caches(channel.membersLocal))
    {
      hide DistinctIds;
      var list := ListFor(channel, c);
      var node := FindInList(list.masks, banid);
      if node == |list.masks| {
        return None;
      }
      ret := Some(list.masks[node]);
      ClearCaches(channel);
      SetMasks(channel, c, list.masks[..node] + list.masks[node + 1..]);
    }

    /** A change of a mask list that was made is recorded; the ban caches are cleared exactly then. */
    method ChangeMask(x: Context, channel: E.Channel, parv: array<string>, dir: Dir, c: char, mask: string)
      requires Ready(x, channel, parv) && !dir.Query?
      modifies this`count, changes, ListFor(channel, c)`masks
      modifies (set m | m in channel.membersLocal)`banChecked, (set m | m in channel.membersLocal)`banSilenced
      modifies (set m | m in channel.membersLocal)`muteChecked
      ensures count <= old(count) + 1 && Unspent(x, parv)
      ensures State(channel) == MaskStep(x, dir, c, old(State(channel)), mask)
      ensures Caches(channel.membersLocal) in {old(Caches(channel.membersLocal)), NoCaches(channel.membersLocal)}
      ensures State(channel).chan != old(State(channel)).chan ==>
        Caches(channel.membersLocal) == NoCaches(channel.membersLocal)
    {
      hide DistinctIds, ModeSpec.AddId, ModeSpec.DelId, BanString, FindMask, Caches, NoCaches;
      var ret;
      if dir.Add? {
        ret := AddId(x, channel, c, mask);
      } else {
        ret := DelId(channel, c, mask);
      }
      if ret.Some? {
        Record(Change(c, Some(Truncate(ret.value, BANSTRLEN)), None, dir, 'u' in channel.mode.modes), channel);
      }
    }

    /** The list numerics, sent once per list. */
    method ShowList(x: Context, channel: E.Channel, c: char)
      requires count <= changes.Length && DistinctIds(channel.members)
      modifies this`errors, this`replies
      ensures State(channel) == Tell(old(State(channel)), ListErr(c),
        if 'u' !in channel.mode.modes || x.access >= ModeOf(c).value.level then Value(channel).Masks(c) else [])
      requires ModeOf(c).Some?
    {
      if ListErr(c) in errors {
        return;
      }
      var shown, list := [], ListFor(channel, c).masks;
      for i := 0 to |list|
        invariant shown == if 'u' !in channel.mode.modes || x.access >= ModeOf(c).value.level then list[..i] else []
      {
        if 'u' !in channel.mode.modes || x.access >= ModeOf(c).value.level {
          shown := shown + [list[i]];
        }
      }
      assert list[..|list|] == list;
      SendOnce(ListErr(c), shown, channel);
    }

    method ChmMask(x: Context, channel: E.Channel, parv: array<string>, dir: Dir, c: char)
      requires Ready(x, channel, parv) && ModeOf(c).Some?
      modifies this`count, this`quota, this`parn, this`errors, this`replies, changes, ListFor(channel, c)`masks
      modifies (set m | m in channel.membersLocal)`banChecked, (set m | m in channel.membersLocal)`banSilenced
      modifies (set m | m in channel.membersLocal)`muteChecked
      ensures count <= old(count) + 1 && parn >= old(parn) && Unspent(x, parv)
      ensures State(channel) == StepMask(x, dir, c, old(State(channel)))
      ensures Caches(channel.membersLocal) in {old(Caches(channel.membersLocal)), NoCaches(channel.membersLocal)}
      ensures State(channel).chan != old(State(channel)).chan ==>
        Caches(channel.membersLocal) == NoCaches(channel.membersLocal)
    {
      hide DistinctIds, MaskStep, BadMask, ModeOf, NoCaches;
      if dir.Query? || parv.Length <= parn {
        ShowList(x, channel, c);
        return;
      }
      if x.access < ModeOf(c).value.level {
        SendOnce(NoOps, [], channel);
        return;
      }
      CountChange(x, channel);
      if x.src.MyClient() && quota > MAXMODEPARAMS {
        return;
      }
      TakeMask(x, channel, parv, dir, c);
    }

    method TakeMask(x: Context, channel: E.Channel, parv: array<string>, dir: Dir, c: char)
      requires Ready(x, channel, parv) && !dir.Query? && parn < parv.Length
      modifies this`count, this`parn, changes, ListFor(channel, c)`masks
      modifies (set m | m in channel.membersLocal)`banChecked, (set m | m in channel.membersLocal)`banSilenced
      modifies (set m | m in channel.membersLocal)`muteChecked
      ensures count <= old(count) + 1 && parn >= old(parn) && Unspent(x, parv)
      ensures State(channel) == MaskTaken(x, dir, c, old(State(channel)).(parn := old(parn) + 1), x.parv[old(parn)])
      ensures Caches(channel.membersLocal) in {old(Caches(channel.membersLocal)), NoCaches(channel.membersLocal)}
      ensures State(channel).chan != old(State(channel)).chan ==>
        Caches(channel.membersLocal) == NoCaches(channel.membersLocal)
    {
      hide DistinctIds, MaskStep, NoCaches;
      var mask := NextParameter(parv, channel);
      if (mask != "" && mask[0] == ':') || (!x.src.local && ' ' in mask) {
        return;
      }
      ChangeMask(x, channel, parv, dir, c, mask);
    }

    /** Of the members, the one whom the parameter names gains or loses the status if the source may change it. */
    method ChmFlag(x: Context, ghost d: E.Ircd, chase: string -> E.Client?, channel: E.Channel, parv: array<string>,
                   dir: Dir, c: char)
      requires Ready(x, channel, parv) && ModeOf(c).Some?
      requires M.Linked(M.View(d)) && channel in d.channelList && Resolves(x.env, chase, d.people)
      modifies this`count, this`quota, this`parn, this`errors, this`replies, changes
      modifies (set m | m in channel.members)`status
      ensures count <= old(count) + 1 && parn >= old(parn) && Unspent(x, parv)
      ensures State(channel) == StepFlag(x, dir, c, old(State(channel)))
      ensures c in "ohv" && old(parn) <= parv.Length ==> forall m :: m in channel.members ==>
        m.status ==
          if !dir.Query? && F.MayRaise(x, c) && old(F.Named(x, State(channel), m.client.id))
          then if dir.Add? then old(m.status) + {c} else old(m.status) - {c}
          else old(m.status)
    {
      hide DistinctIds, ModeOf, M.Linked, StepFlag, Step, Resolves, F.Named, F.MayRaise;
      ghost var e, before := State(channel), StatusOf(channel.members);
      StatusesAre(channel.members);
      ChangeFlag(x, d, chase, channel, parv, dir, c);
      StatusesAre(channel.members);
      if c in "ohv" && e.parn <= |x.parv| {
        forall m | m in channel.members
          ensures StatusOf(channel.members)[m.client.id] ==
            if !dir.Query? && F.MayRaise(x, c) && F.Named(x, e, m.client.id)
            then if dir.Add? then before[m.client.id] + {c} else before[m.client.id] - {c}
            else before[m.client.id]
        {
          FlagOf(x, dir, c, e, m.client.id);
        }
      }
    }

    /** The work of chm_flag. */
    method ChangeFlag(x: Context, ghost d: E.Ircd, chase: string -> E.Client?, channel: E.Channel,
                      parv: array<string>, dir: Dir, c: char)
      requires Ready(x, channel, parv) && ModeOf(c).Some?
      requires M.Linked(M.View(d)) && channel in d.channelList && Resolves(x.env, chase, d.people)
      modifies this`count, this`quota, this`parn, this`errors, this`replies, changes
      modifies (set m | m in channel.members)`status
      ensures count <= old(count) + 1 && parn >= old(parn) && Unspent(x, parv)
      ensures State(channel) == StepFlag(x, dir, c, old(State(channel)))
    {
      hide DistinctIds, ModeOf, M.Linked, TargetStep;
      if x.access < ModeOf(c).value.level {
        SendOnce(NoOps, [], channel);
        return;
      }
      if dir.Query? || parv.Length <= parn {
        return;
      }
      var name := NextParameter(parv, channel);
      var target := chase(name);
      if target == null {
        return;
      }
      FlagTarget(x, d, chase, channel, parv, target, dir, c);
    }

    /** For the client that the parameter names. */
    method FlagTarget(x: Context, ghost d: E.Ircd, ghost chase: string -> E.Client?, channel: E.Channel,
                      parv: array<string>, target: E.Client, dir: Dir, c: char)
      requires Ready(x, channel, parv) && !dir.Query? && target in d.people && x.env.nameOf(target.id) == target.name
      requires M.Linked(M.View(d)) && channel in d.channelList && Resolves(x.env, chase, d.people)
      modifies this`count, this`quota, this`errors, this`replies, changes
      modifies (set m | m in channel.members)`status
      ensures count <= old(count) + 1
      ensures State(channel) == TargetStep(x, dir, c, old(State(channel)), target.id)
    {
      hide DistinctIds, ModeOf, M.Linked, M.IsMember, FlagStep, Resolves, Logged;
      var member := M.FindChannelLink(d, target, channel);
      FoundIsListed(d, x.env, chase, channel, target, member);
      if member == null {
        SendOnce(NotOnChannel, [], channel);
        return;
      }
      FlagMember(x, channel, parv, member, dir, c);
    }

    /** And its membership. */
    method FlagMember(x: Context, channel: E.Channel, parv: array<string>, member: E.ChannelMember, dir: Dir, c: char)
      requires Ready(x, channel, parv) && !dir.Query? && member in channel.members
      requires x.env.nameOf(member.client.id) == member.client.name
      modifies this`count, this`quota, changes, member`status
      ensures count <= old(count) + 1
      ensures State(channel) == TargetStep(x, dir, c, old(State(channel)), member.client.id)
    {
      assert member.client.id in StatusOf(channel.members);
      hide DistinctIds, FlagStep;
      CountChange(x, channel);
      if x.src.MyClient() && quota > MAXMODEPARAMS {
        return;
      }
      SetFlag(x, channel, parv, member, dir, c);
    }

    method SetFlag(x: Context, channel: E.Channel, parv: array<string>, member: E.ChannelMember, dir: Dir, c: char)
      requires Ready(x, channel, parv) && !dir.Query? && member in channel.members
      modifies this`count, changes, member`status
      ensures count <= old(count) + 1
      ensures State(channel) == FlagStep(old(State(channel)), dir, c, member.client.id, member.client.name)
    {
      assert StatusOf(channel.members)[member.client.id] == member.status;
      hide DistinctIds;
      if dir.Add? {
        if c in member.status {
          return;
        }
        SetStatus(channel, member, member.status + {c});
      } else {
        if c !in member.status {
          return;
        }
        SetStatus(channel, member, member.status - {c});
      }
      Record(Change(c, Some(member.client.name), Some(member.client.id), dir, false), channel);
    }

    /** The handler of a letter of the table. */
    method Handle(x: Context, ghost d: E.Ircd, chase: string -> E.Client?, channel: E.Channel, parv: array<string>,
                  dir: Dir, c: char)
      requires Ready(x, channel, parv) && ModeOf(c).Some?
      requires M.Linked(M.View(d)) && channel in d.channelList && Resolves(x.env, chase, d.people)
      modifies this`count, this`quota, this`simple, this`parn, this`errors, this`replies, changes, parv
      modifies channel.mode, channel.banlist, channel.exceptlist, channel.invexlist,
        (set m | m in channel.members)`status
      modifies (set m | m in channel.membersLocal)`banChecked, (set m | m in channel.membersLocal)`banSilenced
      modifies (set m | m in channel.membersLocal)`muteChecked
      ensures count <= old(count) + 1 && parn >= old(parn) && Unspent(x, parv)
      ensures State(channel) == Step(x, dir, c, old(State(channel)))
      ensures Caches(channel.membersLocal) in {old(Caches(channel.membersLocal)), NoCaches(channel.membersLocal)}
      ensures !SameMasks(Value(channel), old(Value(channel))) ==>
        Caches(channel.membersLocal) == NoCaches(channel.membersLocal)
    {
      hide DistinctIds, ModeOf, M.Linked, M.View, Resolves, StepMask, StepFlag, StepKey, StepLimit, StepSimple,
        NoCaches, Unspent;
      match ModeOf(c).value.kind {
        case Simple => ChmSimple(x, channel, parv, dir, c);
        case Mask => ChmMask(x, channel, parv, dir, c);
        case Flag => ChmFlag(x, d, chase, channel, parv, dir, c);
        case Limit => ChmLimit(x, channel, parv, dir, c);
        case Key => ChmKey(x, channel, parv, dir, c);
      }
    }

    /** One letter of the mode string. */
    method Letter(x: Context, ghost d: E.Ircd, chase: string -> E.Client?, channel: E.Channel, parv: array<string>,
                  dir: Dir, c: char)
      requires Ready(x, channel, parv)
      requires M.Linked(M.View(d)) && channel in d.channelList && Resolves(x.env, chase, d.people)
      modifies this`count, this`quota, this`simple, this`parn, this`errors, this`replies, changes, parv
      modifies channel.mode, channel.banlist, channel.exceptlist, channel.invexlist,
        (set m | m in channel.members)`status
      modifies (set m | m in channel.membersLocal)`banChecked, (set m | m in channel.membersLocal)`banSilenced
      modifies (set m | m in channel.membersLocal)`muteChecked
      ensures count <= old(count) + 1 && parn >= old(parn) && Unspent(x, parv)
      ensures State(channel) == Step(x, dir, c, old(State(channel)))
      ensures Caches(channel.membersLocal) in {old(Caches(channel.membersLocal)), NoCaches(channel.membersLocal)}
      ensures !SameMasks(Value(channel), old(Value(channel))) ==>
        Caches(channel.membersLocal) == NoCaches(channel.membersLocal)
    {
      hide DistinctIds, ModeOf, M.Linked, Resolves, StepMask, StepFlag, StepKey, StepLimit, StepSimple, NoCaches,
        SameMasks;
      if ModeOf(c).Some? {
        Handle(x, d, chase, channel, parv, dir, c);
      } else {
        MasksSame(Value(channel));
        SendOnce(Unknown, [], channel);
      }
    }

    // -------------------------------------------------------------- printing

    /** send_mode_changes_server, and one pass of send_mode_changes_client: the loop is the same, what it
        skips and which name of a member it shows is not. */
    method PrintChanges(pass: Pass, head: string) returns (lines: seq<string>)
      requires count <= changes.Length
      ensures lines == Rendered(head, Lines(|head|, Picked(changes[..count], pass)))
    {
      hide Letters, Args, Join, PackItems, Rendered, Picked, LastDir, Skipped;
      var modebuf, parabuf, mbl, pbl := head, "", |head|, 0;
      var modecount, paracount, dir := 0, 0, Query;
      lines := [];
      ghost var p := Packing([], []);
      NothingPacked(head);
      PickedSnoc([], Change(CANCELLED, None, None, Query, false), pass);
      for i := 0 to count
        invariant p == PackItems(|head|, Picked(changes[..i], pass)) && lines == Rendered(head, p.lines)
        invariant modebuf == head + Letters(p.cur) && mbl == |modebuf| && parabuf == Join(Args(p.cur)) &&
          pbl == |parabuf|
        invariant dir == LastDir(p.cur) && modecount == |p.cur| && paracount == |Args(p.cur)|
      {
        assert changes[..i + 1] == changes[..i] + [changes[i]];
        PickedSnoc(changes[..i], changes[i], pass);
        if Skipped(changes[i], pass) {
          continue;
        }
        ghost var it := ItemOf(changes[i], pass);
        PackItemsSnoc(|head|, Picked(changes[..i], pass), it);
        var arg := if pass == ToServers && changes[i].id.Some? then changes[i].id else changes[i].arg;
        assert it == Item(changes[i].letter, changes[i].dir, arg);
        var arglen := if arg.Some? then |arg.value| else 0;
        if paracount == MAXMODEPARAMS || arglen + mbl + pbl + 2 > IRCD_BUFSIZE {
          if modecount != 0 {
            lines := lines + [modebuf + " " + parabuf];
          }
          RenderedSnoc(head, p.lines, p.cur);
          modecount, paracount := 0, 0;
          modebuf, mbl, parabuf, pbl, dir := head, |head|, "", 0, Query;
          NothingPacked(head);
          p := Flush(p);
        }
        ghost var cur := p.cur;
        CurSnoc(head, cur, it);
        if dir != changes[i].dir {
          modebuf := modebuf + if changes[i].dir.Add? then "+" else "-";
          mbl := mbl + 1;
          dir := changes[i].dir;
        }
        modebuf := modebuf + [changes[i].letter];
        mbl := mbl + 1;
        modecount := modecount + 1;
        if arg.Some? {
          JoinLast(Args(cur), arg.value);
          parabuf := if pbl == 0 then arg.value else parabuf + " " + arg.value;
          pbl := |parabuf|;
          paracount := paracount + 1;
        }
        p := Packing(p.lines, cur + [it]);
      }
      if modecount != 0 {
        lines := lines + [modebuf + " " + parabuf];
      }
      RenderedSnoc(head, p.lines, p.cur);
      assert changes[..count] == changes[..count];
    }

    // -------------------------------------------------------------- channel_mode_set

    method Begin(ghost channel: E.Channel)
      requires DistinctIds(channel.members)
      modifies this`count, this`quota, this`simple, this`parn, this`errors, this`replies
      ensures count == 0 && parn == 1 && State(channel) == Fresh(Value(channel))
    {
      count, quota, simple := 0, 0, {};
      parn, errors, replies := 1, {}, [];
      assert changes[..0] == [];
    }

    /** The loop over the mode string. */
    method ReadLetters(x: Context, ghost d: E.Ircd, chase: string -> E.Client?, channel: E.Channel, parv: array<string>)
      requires DistinctIds(channel.members) && channel.SeparateLists()
      requires parv.Length > 0 && parv[..] == x.parv && |parv[0]| < IRCD_BUFSIZE == changes.Length
      requires count == 0 && parn == 1 && State(channel) == Fresh(Value(channel))
      requires M.Linked(M.View(d)) && channel in d.channelList && Resolves(x.env, chase, d.people)
      modifies this`count, this`quota, this`simple, this`parn, this`errors, this`replies, changes, parv
      modifies channel.mode, channel.banlist, channel.exceptlist, channel.invexlist,
        (set m | m in channel.members)`status
      modifies (set m | m in channel.membersLocal)`banChecked, (set m | m in channel.membersLocal)`banSilenced
      modifies (set m | m in channel.membersLocal)`muteChecked
      ensures count < changes.Length
      ensures State(channel) == Run(x, x.parv[0], Add, Fresh(old(Value(channel))))
      ensures Caches(channel.membersLocal) in {old(Caches(channel.membersLocal)), NoCaches(channel.membersLocal)}
      ensures !SameMasks(Value(channel), old(Value(channel))) ==>
        Caches(channel.membersLocal) == NoCaches(channel.membersLocal)
    {
      hide DistinctIds, M.Linked, NoCaches, Run, Step, Resolves, SameMasks;
      var ml, dir := parv[0], Add;
      ghost var view, chan, e := M.View(d), Value(channel), Fresh(Value(channel));
      ghost var caches := Caches(channel.membersLocal);
      MasksSame(chan);
      assert ml[0..] == ml;
      for i := 0 to |ml|
        invariant count <= i && parn >= 1 && Unspent(x, parv)
        invariant Run(x, ml[i..], dir, State(channel)) == Run(x, ml, Add, e)
        invariant Caches(channel.membersLocal) in {caches, NoCaches(channel.membersLocal)}
        invariant !SameMasks(Value(channel), chan) ==> Caches(channel.membersLocal) == NoCaches(channel.membersLocal)
        invariant M.View(d) == view && Resolves(x.env, chase, d.people)
      {
        RunNext(x, ml[i..], dir, State(channel));
        assert ml[i..][0] == ml[i] && ml[i..][1..] == ml[i + 1..];
        if ml[i] == '+' {
          dir := Add;
        } else if ml[i] == '-' {
          dir := Del;
        } else if ml[i] == '=' {
          dir := Query;
        } else {
          MasksTrans(chan, Value(channel));
          Letter(x, d, chase, channel, parv, dir, ml[i]);
        }
      }
      RunOver(x, ml[|ml|..], dir, State(channel));
    }

    /** channel_mode_set up to the printing. */
    method SetModes(env: Env, src: Source, ghost d: E.Ircd, chase: string -> E.Client?, channel: E.Channel,
                    member: E.ChannelMember?, parv: array<string>)
      requires DistinctIds(channel.members) && channel.SeparateLists()
      requires parv.Length > 0 && |parv[0]| < IRCD_BUFSIZE == changes.Length
      requires M.Linked(M.View(d)) && channel in d.channelList && Resolves(env, chase, d.people)
      modifies this`count, this`quota, this`simple, this`parn, this`errors, this`replies, changes, parv
      modifies channel.mode, channel.banlist, channel.exceptlist, channel.invexlist,
        (set m | m in channel.members)`status
      modifies (set m | m in channel.membersLocal)`banChecked, (set m | m in channel.membersLocal)`banSilenced
      modifies (set m | m in channel.membersLocal)`muteChecked
      ensures count < changes.Length
      ensures State(channel) == ModeSet(env, src, if member == null then None else Some(old(member.status)),
                                        old(Value(channel)), old(parv[..]))
      ensures Caches(channel.membersLocal) in {old(Caches(channel.membersLocal)), NoCaches(channel.membersLocal)}
      ensures !SameMasks(Value(channel), old(Value(channel))) ==>
        Caches(channel.membersLocal) == NoCaches(channel.membersLocal)
    {
      hide DistinctIds, M.Linked, NoCaches, Run, Resolves, SameMasks, Access;
      var alevel := GetChannelAccess(src, member);
      var x := Context(env, src, alevel, parv[..]);
      Begin(channel);
      ReadLetters(x, d, chase, channel, parv);
    }

    /** channel_mode_set: the channel ends as the engine's specification says, the local members are shown the
        changes in two passes and the other servers are sent them. */
    method ChannelModeSet(env: Env, src: Source, ghost d: E.Ircd, chase: string -> E.Client?, channel: E.Channel,
                          member: E.ChannelMember?, parv: array<string>, clientHead: string, serverHead: string)
      requires DistinctIds(channel.members) && channel.SeparateLists()
      requires parv.Length > 0 && |parv[0]| < IRCD_BUFSIZE == changes.Length
      requires M.Linked(M.View(d)) && channel in d.channelList && Resolves(env, chase, d.people)
      modifies this`count, this`quota, this`simple, this`parn, this`errors, this`replies, changes, parv
      modifies channel.mode, channel.banlist, channel.exceptlist, channel.invexlist,
        (set m | m in channel.members)`status
      modifies (set m | m in channel.membersLocal)`banChecked, (set m | m in channel.membersLocal)`banSilenced
      modifies (set m | m in channel.membersLocal)`muteChecked
      modifies this`toServers, this`toMembers
      ensures count < changes.Length
      ensures State(channel) == ModeSet(env, src, if member == null then None else Some(old(member.status)),
                                        old(Value(channel)), old(parv[..]))
      ensures forall m :: m in channel.members ==>
        m.client.id in State(channel).chan.status && State(channel).chan.status[m.client.id] == m.status
      ensures toServers == old(toServers) + Rendered(serverHead, Lines(|serverHead|, Live(State(channel).log)))
      ensures toMembers == old(toMembers) +
        Announced(Rendered(clientHead, Lines(|clientHead|, Visible(State(channel).log, false))), false) +
        Announced(Rendered(clientHead, Lines(|clientHead|, Visible(State(channel).log, true))), true)
      ensures Caches(channel.membersLocal) in {old(Caches(channel.membersLocal)), NoCaches(channel.membersLocal)}
      ensures !SameMasks(Value(channel), old(Value(channel))) ==>
        Caches(channel.membersLocal) == NoCaches(channel.membersLocal)
    {
      hide DistinctIds, M.Linked, NoCaches, ModeSet, Resolves, SameMasks, Rendered, Lines, Live, Visible;
      SetModes(env, src, d, chase, channel, member, parv);
      StatusesAre(channel.members);
      if count == 0 {
        NothingPrinted(clientHead, ToMembers(false));
        NothingPrinted(clientHead, ToMembers(true));
        NothingPrinted(serverHead, ToServers);
        return;
      }
      SendModeChanges(clientHead, serverHead);
    }

    /** send_mode_changes_client and send_mode_changes_server */
    method SendModeChanges(clientHead: string, serverHead: string)
      requires count <= changes.Length
      modifies this`toServers, this`toMembers
      ensures var log := changes[..count];
        && toServers == old(toServers) + Rendered(serverHead, Lines(|serverHead|, Live(log)))
        && toMembers == old(toMembers)
             + Announced(Rendered(clientHead, Lines(|clientHead|, Visible(log, false))), false)
             + Announced(Rendered(clientHead, Lines(|clientHead|, Visible(log, true))), true)
    {
      hide Rendered, Lines, Live, Visible, Announced;
      var lines := PrintChanges(ToMembers(false), clientHead);
      toMembers := toMembers + Announced(lines, false);
      lines := PrintChanges(ToMembers(true), clientHead);
      toMembers := toMembers + Announced(lines, true);
      lines := PrintChanges(ToServers, serverHead);
      toServers := toServers + lines;
    }
  }

  lemma StatusesAre(members: seq<E.ChannelMember>)
    requires DistinctIds(members)
    ensures forall m :: m in members ==>
      m.client.id in StatusOf(members) && StatusOf(members)[m.client.id] == m.status
  {
  }

  lemma FlagOf(x: Context, dir: Dir, c: char, e: Engine, id: string)
    requires c in "ohv" && e.parn <= |x.parv| && id in e.chan.status
    ensures var now := StepFlag(x, dir, c, e).chan.status;
      id in now && now[id] ==
        if !dir.Query? && F.MayRaise(x, c) && F.Named(x, e, id)
        then if dir.Add? then e.chan.status[id] + {c} else e.chan.status[id] - {c}
        else e.chan.status[id]
  {
    hide StepFlag, F.MayRaise;
    FlagIsStep(x, dir, c, e);
    hide Step;
    if dir.Query? || !F.MayRaise(x, c) || forall k :: !F.Named(x, e, k) {
      F.StatusLetterElse(x, dir, c, e);
    } else {
      var k :| F.Named(x, e, k);
      F.StatusLetter(x, dir, c, e, k);
    }
  }

  lemma FlagIsStep(x: Context, dir: Dir, c: char, e: Engine)
    requires c in "ohv"
    ensures StepFlag(x, dir, c, e) == Step(x, dir, c, e)
  {
    hide StepFlag, StepMask, StepSimple, StepLimit, StepKey;
  }

  /** The nick and id tables: what a parameter resolves to is a client, and ids are unique. */
  ghost predicate Resolves(env: Env, chase: string -> E.Client?, people: set<E.Client>)
    reads people`name
  {
    && (forall s :: env.resolve(s) == if chase(s) == null then None else Some(chase(s).id))
    && (forall s :: chase(s) != null ==> chase(s) in people)
    && (forall s :: chase(s) != null ==> env.nameOf(chase(s).id) == chase(s).name)
    && (forall u, v :: u in people && v in people && u.id == v.id ==> u == v)
  }

  lemma MembersArePeople(d: E.Ircd, channel: E.Channel, u: E.Client)
    requires M.Linked(M.View(d)) && channel in d.channelList
    ensures forall m :: m in channel.members ==> m.client in d.people
    ensures M.IsMember(M.View(d), u, channel) <==> exists m :: m in channel.members && m.client == u
  {
    assert M.View(d).members[channel] == channel.members;
    assert M.ChannelLinked(M.View(d), channel);
    if M.IsMember(M.View(d), u, channel) {
      var m :| m in M.View(d).members[channel] && m.client == u;
      assert m in channel.members;
    }
  }

  lemma FoundIsListed(d: E.Ircd, env: Env, chase: string -> E.Client?, channel: E.Channel, target: E.Client,
      member: E.ChannelMember?)
    requires M.Linked(M.View(d)) && channel in d.channelList && Resolves(env, chase, d.people) && target in d.people
    requires DistinctIds(channel.members)
    requires member == null <==> !M.IsMember(M.View(d), target, channel)
    requires member != null ==> member in channel.members && member.client == target
    ensures member != null <==> target.id in StatusOf(channel.members)
  {
    hide M.Linked, M.IsMember;
    MembersArePeople(d, channel, target);
  }

  // ---------------------------------------------------------------- what the printers show

  datatype Pass = ToServers | ToMembers(opsOnly: bool)

  function Picked(log: seq<Change>, pass: Pass): seq<Item> {
    match pass
    case ToServers => Live(log)
    case ToMembers(opsOnly) => Visible(log, opsOnly)
  }

  predicate Skipped(ch: Change, pass: Pass) {
    ch.letter == CANCELLED || (pass.ToMembers? && ch.opsOnly != pass.opsOnly)
  }

  function ItemOf(ch: Change, pass: Pass): Item {
    if pass.ToServers? then ServerItem(ch) else Item(ch.letter, ch.dir, ch.arg)
  }

  /** A line to the local members: to all of them, or to the operators and half-operators only. */
  datatype Told = Told(line: string, opsOnly: bool)

  function Announced(lines: seq<string>, opsOnly: bool): seq<Told> {
    seq(|lines|, i requires 0 <= i < |lines| => Told(lines[i], opsOnly))
  }

  function Rendered(head: string, lines: seq<seq<Item>>): seq<string> {
    seq(|lines|, i requires 0 <= i < |lines| => head + Body(lines[i]))
  }

  lemma PickedSnoc(log: seq<Change>, ch: Change, pass: Pass)
    ensures Picked([], pass) == []
    ensures Picked(log + [ch], pass) == if Skipped(ch, pass) then Picked(log, pass)
      else Picked(log, pass) + [ItemOf(ch, pass)]
  {
    assert (log + [ch])[..|log|] == log;
  }

  lemma RenderedSnoc(head: string, lines: seq<seq<Item>>, cur: seq<Item>)
    ensures Rendered(head, Flush(Packing(lines, cur)).lines) ==
      if cur == [] then Rendered(head, lines) else Rendered(head, lines) + [head + Letters(cur) + " " + Join(Args(cur))]
  {
    hide Letters, Args, Join;
    var r := Rendered(head, lines + [cur]);
    assert head + Body(cur) == head + Letters(cur) + " " + Join(Args(cur));
    assert r == Rendered(head, lines) + [head + Body(cur)];
  }

  lemma NothingPacked(head: string)
    ensures PackItems(|head|, []) == Packing([], []) && Rendered(head, []) == []
    ensures head + Letters([]) == head && Join(Args([])) == "" && Args([]) == [] && LastDir([]) == Query
  {
  }

  lemma CurSnoc(head: string, cur: seq<Item>, it: Item)
    ensures head + Letters(cur + [it]) == head + Letters(cur) + Sign(LastDir(cur), it.dir) + [it.letter]
    ensures Args(cur + [it]) == if it.arg.Some? then Args(cur) + [it.arg.value] else Args(cur)
    ensures LastDir(cur + [it]) == it.dir
  {
    assert (cur + [it])[..|cur|] == cur;
  }

  lemma JoinLast(words: seq<string>, w: string)
    ensures Join(words + [w]) == if Join(words) == "" then w else Join(words) + " " + w
  {
    assert (words + [w])[..|words|] == words;
  }

  predicate SameMasks(a: Channel, b: Channel) {
    a.bans == b.bans && a.excepts == b.excepts && a.invexes == b.invexes
  }

  lemma MasksSame(a: Channel)
    ensures SameMasks(a, a)
  {
  }

  lemma MasksTrans(a: Channel, b: Channel)
    ensures forall c :: SameMasks(a, b) && SameMasks(b, c) ==> SameMasks(c, a)
    ensures forall c :: SameMasks(c, b) && SameMasks(b, a) ==> SameMasks(c, a)
  {
  }

  lemma RunNext(x: Context, ml: string, dir: Dir, e: Engine)
    requires ml != ""
    ensures Run(x, ml, dir, e) ==
      if IsTurn(ml[0]) then Run(x, ml[1..], Turn(ml[0], dir), e) else Run(x, ml[1..], dir, Step(x, dir, ml[0], e))
  {
  }

  lemma RunOver(x: Context, ml: string, dir: Dir, e: Engine)
    requires ml == ""
    ensures Run(x, ml, dir, e) == e
  {
  }

  lemma NothingPrinted(head: string, pass: Pass)
    ensures Rendered(head, Lines(|head|, Picked([], pass))) == []
  {
  }

  function MaskTaken(x: Context, dir: Dir, c: char, e: Engine, mask: string): Engine {
    if BadMask(x.src, mask) then e else MaskStep(x, dir, c, e, mask)
  }

  function MaskAdded(x: Context, c: char, chan: Channel, mask: string): Option<string> {
    var r := ModeSpec.AddId(x, c, chan, mask);
    if r.None? then None else Some(r.value.1)
  }

  function WithAdded(x: Context, c: char, chan: Channel, mask: string): Channel {
    var r := ModeSpec.AddId(x, c, chan, mask);
    if r.None? then chan else chan.WithMasks(c, r.value.0)
  }

  function MaskDeleted(c: char, chan: Channel, mask: string): Option<string> {
    var r := ModeSpec.DelId(c, chan, mask);
    if r.None? then None else Some(r.value.1)
  }

  function WithDeleted(c: char, chan: Channel, mask: string): Channel {
    var r := ModeSpec.DelId(c, chan, mask);
    if r.None? then chan else chan.WithMasks(c, r.value.0)
  }
}
