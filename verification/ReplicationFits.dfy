// A condition on the arguments of a mode change alone under which replication is certain.
module ReplicationFits {
  import opened Strings
  import opened ModeSpec
  import opened ModeLines
  import opened ModeReplay
  import opened ModeWire
  import opened SpacedMasks
  import opened Replication

  const IDLEN := 12
  const LONGEST_LIMIT := 10  // digits of 2147483647

  /** The most that a letter can take up in the printed lines, with a sign and a separator. */
  function Cost(c: char): nat {
    if ModeOf(c).None? then 0
    else 3 + match ModeOf(c).value.kind
      case Simple => 0
      case Mask => BANSTRLEN
      case Flag => IDLEN
      case Limit => LONGEST_LIMIT
      case Key => KEYLEN
  }

  function Need(ml: string): nat {
    if ml == "" then 0 else (if IsTurn(ml[0]) then 0 else Cost(ml[0])) + Need(ml[1..])
  }

  predicate ShortIds(chan: Channel) {
    forall id :: id in chan.status ==> |id| <= IDLEN
  }

  function Ten(n: nat): (r: nat)
    ensures r > 0
  {
    if n == 0 then 1 else 10 * Ten(n - 1)
  }

  lemma {:induction false} ItoaLength(n: nat, digits: nat)
    requires n < Ten(digits) && digits > 0
    ensures |Itoa(n)| <= digits
  {
    if n >= 10 {
      assert n / 10 < Ten(digits - 1);
      assert digits > 1;
      ItoaLength(n / 10, digits - 1);
    }
  }

  lemma TenDigits()
    ensures Ten(LONGEST_LIMIT) == 10000000000
  {
    assert Ten(3) == 1000 && Ten(6) == 1000 * Ten(3) && Ten(9) == 1000 * Ten(6);
  }

  lemma {:induction false} CancelSize(log: seq<Change>, c: char)
    ensures Size(Live(Cancel(log, c))) <= Size(Live(log))
  {
    if log != [] {
      var n := |log| - 1;
      CancelSize(log[..n], c);
      SizeSnoc(log[..n], log[n]);
      SizeSnoc(Cancel(log[..n], c), CancelOne(log[n], c));
      assert log == log[..n] + [log[n]];
    }
  }

  lemma SizeSnoc(log: seq<Change>, ch: Change)
    ensures Size(Live(log + [ch])) ==
      Size(Live(log)) + if ch.letter == CANCELLED then 0 else 3 + ArgLength(ServerItem(ch))
  {
    LiveSnoc(log, ch);
    if ch.letter == CANCELLED {
      assert Live(log) + [] == Live(log);
    } else {
      assert (Live(log) + [ServerItem(ch)])[..|Live(log)|] == Live(log);
    }
  }

  /** The parameter of a new entry is no longer than its letter can have. */
  lemma NewEntryFits(x: Context, dir: Dir, c: char, e: Engine)
    requires ShortIds(e.chan)
    ensures var log := Step(x, dir, c, e).log;
      |log| > |e.log| ==> 3 + ArgLength(ServerItem(log[|log| - 1])) <= Cost(c)
  {
    if ModeOf(c).Some? {
      match ModeOf(c).value.kind
      case Simple =>
      case Mask => MaskFits(x, dir, c, e);
      case Flag => FlagFits(x, dir, c, e);
      case Limit => LimitFits(x, dir, c, e);
      case Key => KeyFits(x, dir, c, e);
    }
  }

  lemma MaskFits(x: Context, dir: Dir, c: char, e: Engine)
    requires ModeOf(c).Some?
    ensures var log := StepMask(x, dir, c, e).log;
      |log| > |e.log| ==> ArgLength(ServerItem(log[|log| - 1])) <= BANSTRLEN
  {
  }

  lemma FlagFits(x: Context, dir: Dir, c: char, e: Engine)
    requires ModeOf(c).Some? && ShortIds(e.chan)
    ensures var log := StepFlag(x, dir, c, e).log;
      |log| > |e.log| ==> ArgLength(ServerItem(log[|log| - 1])) <= IDLEN
  {
  }

  lemma LimitFits(x: Context, dir: Dir, c: char, e: Engine)
    requires c == 'l'
    ensures var log := StepLimit(x, dir, c, e).log;
      |log| > |e.log| ==> ArgLength(ServerItem(log[|log| - 1])) <= LONGEST_LIMIT
  {
    if dir.Add? && e.parn < |x.parv| {
      var n := Atoi(x.parv[e.parn]);
      if n > 0 {
        TenDigits();
        ItoaLength(n, LONGEST_LIMIT);
      }
    }
  }

  lemma KeyFits(x: Context, dir: Dir, c: char, e: Engine)
    requires c == 'k'
    ensures var log := StepKey(x, dir, c, e).log;
      |log| > |e.log| ==> ArgLength(ServerItem(log[|log| - 1])) <= KEYLEN
  {
    if dir.Add? && e.parn < |x.parv| { FixKeyIdempotent(x.parv[e.parn]); }
  }

  lemma StepKeepsIds(x: Context, dir: Dir, c: char, e: Engine)
    requires ShortIds(e.chan)
    ensures ShortIds(Step(x, dir, c, e).chan)
  {
    assert Step(x, dir, c, e).chan.status.Keys == e.chan.status.Keys;
  }

  lemma StepFits(x: Context, dir: Dir, c: char, e: Engine)
    requires ShortIds(e.chan)
    ensures Size(Live(Step(x, dir, c, e).log)) <= Size(Live(e.log)) + Cost(c)
  {
    hide Step, Cost, Cancel, Live, Size, ArgLength, ServerItem;
    StepShape(x, dir, c, e);
    NewEntryFits(x, dir, c, e);
    var log := Step(x, dir, c, e).log;
    if log != e.log {
      CancelSize(e.log, c);
      SizeSnoc(log[..|e.log|], log[|e.log|]);
      assert log == log[..|e.log|] + [log[|e.log|]];
    }
  }

  lemma {:induction false} RunFits(x: Context, ml: string, dir: Dir, e: Engine)
    requires ShortIds(e.chan)
    ensures Size(Live(Run(x, ml, dir, e).log)) <= Size(Live(e.log)) + Need(ml)
  {
    hide Step, Cost, Live, Size, ShortIds;
    if ml != "" {
      if IsTurn(ml[0]) {
        RunFits(x, ml[1..], Turn(ml[0], dir), e);
      } else {
        StepFits(x, dir, ml[0], e);
        StepKeepsIds(x, dir, ml[0], e);
        RunFits(x, ml[1..], dir, Step(x, dir, ml[0], e));
      }
    }
  }

  /** Replication, from what the caller passes alone: the mode string holds no "=", and the letters it asks for fit
      into one line with the header whatever parameters they come with. */
  lemma ReplicationOfShortChanges(env: Env, peer: Env, src: Source, member: Option<set<char>>, chan: Channel,
                                  parv: seq<string>, h: Header)
    requires Preconditions(env, peer, src, chan, parv, h) && ShortIds(chan)
    requires '=' !in parv[0] && |h.Text()| + Need(parv[0]) < LINE_MAX
    ensures Replica(env, peer, src, member, chan, parv, h) == ModeSet(env, src, member, chan, parv).chan <==>
      !BringsSpaces(env, src, parv)
  {
    hide Run, Need, Size, Live, Lines, Text;
    NothingLogged();
    RunFits(Context(env, src, Access(src, member), parv), parv[0], Add, Fresh(chan));
    ShortNotCut(h, Live(ModeSet(env, src, member, chan, parv).log));
    ReplicationHolds(env, peer, src, member, chan, parv, h);
  }

  lemma NothingLogged()
    ensures Size(Live([])) == 0
  {
  }

  // ---------------------------------------------------------------- when the source is no user of this server

  /** What a letter can take up besides the parameter it comes with. */
  function Fixed(c: char): nat {
    if ModeOf(c).None? then 0
    else 3 + match ModeOf(c).value.kind
      case Simple => 0
      case Mask => 0
      case Flag => IDLEN
      case Limit => LONGEST_LIMIT
      case Key => 1
  }

  function FixedNeed(ml: string): nat {
    if ml == "" then 0 else (if IsTurn(ml[0]) then 0 else Fixed(ml[0])) + FixedNeed(ml[1..])
  }

  /** What the parameters from the n-th on can take up. */
  function Rest(parv: seq<string>, n: nat): nat
    decreases |parv| - n
  {
    if n >= |parv| then 0 else |Truncate(parv[n], BANSTRLEN)| + Rest(parv, n + 1)
  }

  /** What is logged is paid for by the letter and by the parameter it uses up. */
  ghost predicate Paid(x: Context, c: char, e: Engine, e': Engine) {
    && e.parn <= e'.parn <= e.parn + 1
    && (|e'.log| > |e.log| ==>
        3 + ArgLength(ServerItem(e'.log[|e'.log| - 1])) + Rest(x.parv, e'.parn) <= Fixed(c) + Rest(x.parv, e.parn))
  }

  lemma StepPaid(x: Context, dir: Dir, c: char, e: Engine)
    requires ShortIds(e.chan) && !x.src.MyClient()
    ensures Paid(x, c, e, Step(x, dir, c, e))
  {
    hide StepSimple, StepMask, StepFlag, StepKey;
    if ModeOf(c).Some? {
      match ModeOf(c).value.kind
      case Simple => SimplePaid(x, dir, c, e);
      case Mask => MaskPaid(x, dir, c, e);
      case Flag => FlagPaid(x, dir, c, e);
      case Limit => LimitFits(x, dir, c, e);
      case Key => KeyPaid(x, dir, c, e);
    }
  }

  lemma SimplePaid(x: Context, dir: Dir, c: char, e: Engine)
    requires IsSimple(c)
    ensures Paid(x, c, e, StepSimple(x, dir, c, e))
  {
  }

  lemma MaskPaid(x: Context, dir: Dir, c: char, e: Engine)
    requires ModeOf(c).Some? && ModeOf(c).value.kind.Mask? && !x.src.MyClient()
    ensures Paid(x, c, e, StepMask(x, dir, c, e))
  {
  }

  lemma FlagPaid(x: Context, dir: Dir, c: char, e: Engine)
    requires ModeOf(c).Some? && ModeOf(c).value.kind.Flag? && ShortIds(e.chan)
    ensures Paid(x, c, e, StepFlag(x, dir, c, e))
  {
  }

  lemma KeyPaid(x: Context, dir: Dir, c: char, e: Engine)
    requires c == 'k'
    ensures Paid(x, c, e, StepKey(x, dir, c, e))
  {
    if dir.Add? && e.parn < |x.parv| {
      FixKeyIdempotent(x.parv[e.parn]);
      FixKeyLength(x.parv[e.parn]);
    }
  }

  lemma FixKeyLength(s: string)
    ensures |FixKey(s)| <= |Truncate(s, KEYLEN)|
  {
    CleanKeyLength(Truncate(s, KEYLEN));
  }

  lemma {:induction false} CleanKeyLength(s: string)
    ensures |CleanKey(s)| <= |s|
  {
    if s != "" { CleanKeyLength(s[..|s| - 1]); }
  }

  lemma RestShrinks(parv: seq<string>, n: nat)
    ensures Rest(parv, n + 1) <= Rest(parv, n)
  {
  }

  lemma StepPays(x: Context, dir: Dir, c: char, e: Engine)
    requires ShortIds(e.chan) && !x.src.MyClient()
    ensures var e' := Step(x, dir, c, e);
      Size(Live(e'.log)) + Rest(x.parv, e'.parn) <= Size(Live(e.log)) + Rest(x.parv, e.parn) + Fixed(c)
  {
    hide Step, Fixed, Cancel, Live, Size, ArgLength, ServerItem, Rest;
    StepShape(x, dir, c, e);
    StepPaid(x, dir, c, e);
    RestShrinks(x.parv, e.parn);
    var log := Step(x, dir, c, e).log;
    if log != e.log {
      CancelSize(e.log, c);
      SizeSnoc(log[..|e.log|], log[|e.log|]);
      assert log == log[..|e.log|] + [log[|e.log|]];
    }
  }

  lemma {:induction false} RunPays(x: Context, ml: string, dir: Dir, e: Engine)
    requires ShortIds(e.chan) && !x.src.MyClient()
    ensures Size(Live(Run(x, ml, dir, e).log)) <= Size(Live(e.log)) + Rest(x.parv, e.parn) + FixedNeed(ml)
  {
    hide Step, Fixed, Live, Size, ShortIds, Rest;
    if ml != "" {
      if IsTurn(ml[0]) {
        RunPays(x, ml[1..], Turn(ml[0], dir), e);
      } else {
        StepPays(x, dir, ml[0], e);
        StepKeepsIds(x, dir, ml[0], e);
        RunPays(x, ml[1..], dir, Step(x, dir, ml[0], e));
      }
    }
  }

  /** For a server or a user of another one the parameters themselves say what they can take up: replication is certain
      if they fit into one line with the header and the fixed part of each letter. */
  lemma ReplicationOfShortArguments(env: Env, peer: Env, src: Source, member: Option<set<char>>, chan: Channel,
                                    parv: seq<string>, h: Header)
    requires Preconditions(env, peer, src, chan, parv, h) && ShortIds(chan) && !src.MyClient()
    requires '=' !in parv[0] && |h.Text()| + FixedNeed(parv[0]) + Rest(parv, 1) < LINE_MAX
    ensures Replica(env, peer, src, member, chan, parv, h) == ModeSet(env, src, member, chan, parv).chan <==>
      !BringsSpaces(env, src, parv)
  {
    hide Run, FixedNeed, Size, Live, Lines, Text, Rest;
    NothingLogged();
    RunPays(Context(env, src, Access(src, member), parv), parv[0], Add, Fresh(chan));
    ShortNotCut(h, Live(ModeSet(env, src, member, chan, parv).log));
    ReplicationHolds(env, peer, src, member, chan, parv, h);
  }
}
