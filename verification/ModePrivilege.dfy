// What a local user may and may not do with one mode string.
module ModePrivilege {
  import opened Strings
  import opened ModeSpec
  import opened ModeLines

  predicate Powerless(x: Context) {
    x.src.MyClient() && x.access <= PEON
  }

  // ---------------------------------------------------------------- without channel status

  predicate NothingShown(e: Engine) {
    forall i :: 0 <= i < |e.replies| ==> e.replies[i].shown == []
  }

  /** Nothing changes, and hidden mask lists stay hidden. */
  ghost predicate Untouched(e: Engine, e': Engine) {
    e'.chan == e.chan && e'.log == e.log && ('u' in e.chan.modes && NothingShown(e) ==> NothingShown(e'))
  }

  lemma StepPowerless(x: Context, dir: Dir, c: char, e: Engine)
    requires Powerless(x)
    ensures Untouched(e, Step(x, dir, c, e))
  {
  }

  lemma {:induction false} RunPowerless(x: Context, ml: string, dir: Dir, e: Engine)
    requires Powerless(x)
    ensures Untouched(e, Run(x, ml, dir, e))
  {
    hide Step;
    if ml != "" {
      if IsTurn(ml[0]) {
        RunPowerless(x, ml[1..], Turn(ml[0], dir), e);
      } else {
        StepPowerless(x, dir, ml[0], e);
        RunPowerless(x, ml[1..], dir, Step(x, dir, ml[0], e));
      }
    }
  }

  /** A local user who is not on the channel, or on it without status, changes nothing, has nothing
      announced, and is not shown the mask lists of a channel that hides them. */
  lemma PeonChangesNothing(env: Env, src: Source, member: Option<set<char>>, chan: Channel, parv: seq<string>)
    requires src.MyClient() && parv != []
    requires member.None? || ('o' !in member.value && 'h' !in member.value)
    ensures var e := ModeSet(env, src, member, chan, parv);
      e.chan == chan && e.log == [] && ('u' in chan.modes ==> NothingShown(e))
  {
    RunPowerless(Context(env, src, Access(src, member), parv), parv[0], Add, Fresh(chan));
  }

  // ---------------------------------------------------------------- half-operators, registered channels

  /** The same members, with the same operator and half-operator bits. */
  ghost predicate SameOps(a: Channel, b: Channel) {
    a.status.Keys == b.status.Keys &&
    forall id :: id in a.status ==>
      ('o' in a.status[id] <==> 'o' in b.status[id]) && ('h' in a.status[id] <==> 'h' in b.status[id])
  }

  /** The registered mode is left alone; so are the operators, unless the source is one. */
  ghost predicate Restrained(x: Context, a: Channel, b: Channel) {
    ('r' in a.modes <==> 'r' in b.modes) && (x.access <= HALFOP ==> SameOps(a, b))
  }

  lemma StepRestrained(x: Context, dir: Dir, c: char, e: Engine)
    requires x.src.MyClient() && x.access <= CHANOP
    ensures Restrained(x, e.chan, Step(x, dir, c, e).chan)
  {
    if ModeOf(c).Some? {
      match ModeOf(c).value.kind
      case Simple =>
      case Mask =>
      case Flag => assert c == 'o' || c == 'h' || c == 'v';
      case Limit =>
      case Key =>
    }
  }

  lemma {:induction false} RunRestrained(x: Context, ml: string, dir: Dir, e: Engine)
    requires x.src.MyClient() && x.access <= CHANOP
    ensures Restrained(x, e.chan, Run(x, ml, dir, e).chan)
  {
    hide Step;
    if ml != "" {
      if IsTurn(ml[0]) {
        RunRestrained(x, ml[1..], Turn(ml[0], dir), e);
      } else {
        StepRestrained(x, dir, ml[0], e);
        RunRestrained(x, ml[1..], dir, Step(x, dir, ml[0], e));
      }
    }
  }

  /** No local user, whatever the mode string, changes the registered mode; a half-operator
      changes nobody's operator or half-operator bit. */
  lemma LocalUserRestrained(env: Env, src: Source, member: Option<set<char>>, chan: Channel, parv: seq<string>)
    requires src.MyClient() && parv != []
    ensures var c := ModeSet(env, src, member, chan, parv).chan;
      ('r' in c.modes <==> 'r' in chan.modes) &&
      (member.Some? && 'o' !in member.value ==> SameOps(chan, c))
  {
    RunRestrained(Context(env, src, Access(src, member), parv), parv[0], Add, Fresh(chan));
  }

  // ---------------------------------------------------------------- limits on what is logged

  predicate Listed(ch: Change) {
    ModeOf(ch.letter).Some? && (ModeOf(ch.letter).value.kind.Mask? || ModeOf(ch.letter).value.kind.Flag?)
  }

  function CountListed(log: seq<Change>): nat {
    if log == [] then 0 else CountListed(log[..|log| - 1]) + if Listed(log[|log| - 1]) then 1 else 0
  }

  /** No simple mode is logged twice, and those logged have been dealt with. */
  ghost predicate SimpleLoggedOnce(e: Engine) {
    (forall i :: 0 <= i < |e.log| && IsSimple(e.log[i].letter) ==> e.log[i].letter in e.done) &&
    forall i, j :: 0 <= i < j < |e.log| && IsSimple(e.log[i].letter) ==> e.log[i].letter != e.log[j].letter
  }

  ghost predicate ToldOnce(e: Engine) {
    (forall i :: 0 <= i < |e.replies| ==> e.replies[i].err in e.errors) &&
    forall i, j :: 0 <= i < j < |e.replies| ==> e.replies[i].err != e.replies[j].err
  }

  ghost predicate WithinLimits(x: Context, e: Engine, letters: nat) {
    && (x.src.MyClient() ==> WithinQuota(e))
    && SimpleLoggedOnce(e) && ToldOnce(e)
    && |e.log| <= letters && 1 <= e.parn <= |x.parv|
  }

  lemma CountSnoc(log: seq<Change>, ch: Change)
    ensures CountListed(log + [ch]) == CountListed(log) + if Listed(ch) then 1 else 0
  {
    assert (log + [ch])[..|log|] == log;
  }

  lemma {:induction false} CountCancel(log: seq<Change>, c: char)
    requires c == 'l' || c == 'k'
    ensures CountListed(Cancel(log, c)) == CountListed(log)
  {
    if log == [] {
      assert Cancel(log, c) == [];
    } else {
      var init, last := log[..|log| - 1], log[|log| - 1];
      assert Cancel(log, c) == Cancel(init, c) + [CancelOne(last, c)];
      assert log == init + [last];
      hide Cancel, CountListed, Listed;
      CountCancel(init, c);
      CountSnoc(Cancel(init, c), CancelOne(last, c));
      CountSnoc(init, last);
      NotListed(last, c);
    }
  }

  lemma NotListed(ch: Change, c: char)
    requires c == 'l' || c == 'k'
    ensures Listed(CancelOne(ch, c)) == Listed(ch)
  {
  }

  predicate WithinQuota(e: Engine) {
    CountListed(e.log) <= e.quota && CountListed(e.log) <= MAXMODEPARAMS
  }

  lemma StepCount(x: Context, dir: Dir, c: char, e: Engine)
    requires x.src.MyClient() && WithinQuota(e)
    ensures WithinQuota(Step(x, dir, c, e))
  {
    hide WithinQuota;
    if ModeOf(c).Some? {
      match ModeOf(c).value.kind
      case Simple => SimpleCount(x, dir, c, e);
      case Mask => MaskCount(x, dir, c, e);
      case Flag => FlagCount(x, dir, c, e);
      case Limit => ReplaceCount(x, dir, c, e);
      case Key => ReplaceCount(x, dir, c, e);
    } else {
      assert WithinQuota(Tell(e, Unknown, [])) by { TellCount(e); }
    }
  }

  lemma TellCount(e: Engine)
    requires WithinQuota(e)
    ensures WithinQuota(Tell(e, Unknown, []))
  {
  }

  lemma SimpleCount(x: Context, dir: Dir, c: char, e: Engine)
    requires IsSimple(c) && WithinQuota(e)
    ensures WithinQuota(StepSimple(x, dir, c, e))
  {
    CountSnoc(e.log, Change(c, None, None, dir, false));
  }

  lemma MaskCount(x: Context, dir: Dir, c: char, e: Engine)
    requires ModeOf(c).Some? && ModeOf(c).value.kind.Mask? && x.src.MyClient() && WithinQuota(e)
    ensures WithinQuota(StepMask(x, dir, c, e))
  {
    hide AddId, DelId, BadMask, Truncate, CountListed;
    var e' := StepMask(x, dir, c, e);
    if e'.log != e.log { CountSnoc(e.log, e'.log[|e.log|]); }
  }

  lemma FlagCount(x: Context, dir: Dir, c: char, e: Engine)
    requires ModeOf(c).Some? && ModeOf(c).value.kind.Flag? && x.src.MyClient() && WithinQuota(e)
    ensures WithinQuota(StepFlag(x, dir, c, e))
  {
    var e' := StepFlag(x, dir, c, e);
    if e'.log != e.log { CountSnoc(e.log, e'.log[|e.log|]); }
  }

  lemma ReplaceCount(x: Context, dir: Dir, c: char, e: Engine)
    requires (c == 'l' || c == 'k') && WithinQuota(e)
    ensures WithinQuota(Step(x, dir, c, e))
  {
    ReplaceKeepsCount(x, dir, c, e);
  }

  lemma ReplaceKeepsCount(x: Context, dir: Dir, c: char, e: Engine)
    requires c == 'l' || c == 'k'
    ensures CountListed(Step(x, dir, c, e).log) == CountListed(e.log)
  {
    hide Cancel, Step;
    StepShape(x, dir, c, e);
    CountCancel(e.log, c);
    var log := Step(x, dir, c, e).log;
    if log != e.log {
      CountSnoc(log[..|e.log|], log[|e.log|]);
      assert log == log[..|e.log|] + [log[|e.log|]];
    }
  }

  /** What a step does besides the channel and the log. */
  ghost predicate Kept(x: Context, c: char, e: Engine, e': Engine) {
    (ToldOnce(e) ==> ToldOnce(e')) && e.parn <= e'.parn <= |x.parv| && e.done <= e'.done &&
    (IsSimple(c) && e'.log != e.log ==> c !in e.done && c in e'.done)
  }

  lemma StepBookkeeping(x: Context, dir: Dir, c: char, e: Engine)
    requires e.parn <= |x.parv|
    ensures Kept(x, c, e, Step(x, dir, c, e))
  {
    if ModeOf(c).None? {
      UnknownBookkeeping(x, c, e);
    } else {
      hide ToldOnce;
      match ModeOf(c).value.kind
      case Simple => SimpleBookkeeping(x, dir, c, e);
      case Mask => MaskBookkeeping(x, dir, c, e);
      case Flag => FlagBookkeeping(x, dir, c, e);
      case Limit => LimitKeyBookkeeping(x, dir, c, e);
      case Key => LimitKeyBookkeeping(x, dir, c, e);
    }
  }

  lemma UnknownBookkeeping(x: Context, c: char, e: Engine)
    requires e.parn <= |x.parv| && ModeOf(c).None?
    ensures Kept(x, c, e, Tell(e, Unknown, []))
  {
  }

  lemma SimpleBookkeeping(x: Context, dir: Dir, c: char, e: Engine)
    requires e.parn <= |x.parv| && IsSimple(c)
    ensures Kept(x, c, e, StepSimple(x, dir, c, e))
  {
  }

  lemma MaskBookkeeping(x: Context, dir: Dir, c: char, e: Engine)
    requires e.parn <= |x.parv| && ModeOf(c).Some? && ModeOf(c).value.kind.Mask?
    ensures Kept(x, c, e, StepMask(x, dir, c, e))
  {
  }

  lemma FlagBookkeeping(x: Context, dir: Dir, c: char, e: Engine)
    requires e.parn <= |x.parv| && ModeOf(c).Some? && ModeOf(c).value.kind.Flag?
    ensures Kept(x, c, e, StepFlag(x, dir, c, e))
  {
  }

  lemma LimitKeyBookkeeping(x: Context, dir: Dir, c: char, e: Engine)
    requires e.parn <= |x.parv| && ModeOf(c).Some? && (ModeOf(c).value.kind.Limit? || ModeOf(c).value.kind.Key?)
    ensures Kept(x, c, e, StepLimit(x, dir, c, e)) && Kept(x, c, e, StepKey(x, dir, c, e))
  {
  }

  lemma StepWithinLimits(x: Context, dir: Dir, c: char, e: Engine, letters: nat)
    requires WithinLimits(x, e, letters)
    ensures WithinLimits(x, Step(x, dir, c, e), letters + 1)
  {
    hide Step, CountListed, ToldOnce;
    StepBookkeeping(x, dir, c, e);
    StepShape(x, dir, c, e);
    if x.src.MyClient() { StepCount(x, dir, c, e); }
    var e' := Step(x, dir, c, e);
    if e'.log != e.log {
      forall i | 0 <= i < |e.log|
        ensures e'.log[i].letter == e.log[i].letter || (e'.log[i].letter == CANCELLED)
      {
        assert e'.log[i] == e'.log[..|e.log|][i];
      }
    }
  }

  lemma {:induction false} RunWithinLimits(x: Context, ml: string, dir: Dir, e: Engine, letters: nat)
    requires WithinLimits(x, e, letters)
    ensures WithinLimits(x, Run(x, ml, dir, e), letters + |ml|)
  {
    hide Step;
    if ml != "" {
      if IsTurn(ml[0]) {
        RunWithinLimits(x, ml[1..], Turn(ml[0], dir), e, letters + 1);
      } else {
        StepWithinLimits(x, dir, ml[0], e, letters);
        RunWithinLimits(x, ml[1..], dir, Step(x, dir, ml[0], e), letters + 1);
      }
    }
  }

  /** For every mode string: a local user has at most six mask and status changes logged; each simple
      mode is logged at most once and each error told at most once; the log never outgrows the mode
      string and the parameter cursor never passes the last parameter. */
  lemma RunLimits(env: Env, src: Source, member: Option<set<char>>, chan: Channel, parv: seq<string>)
    requires parv != []
    ensures WithinLimits(Context(env, src, Access(src, member), parv),
                         ModeSet(env, src, member, chan, parv), |parv[0]|)
  {
    RunWithinLimits(Context(env, src, Access(src, member), parv), parv[0], Add, Fresh(chan), 0);
  }

  // ---------------------------------------------------------------- what members are shown

  const MASKS := "beI"

  /** Only mask changes are kept from members without status. */
  ghost predicate OnlyMasksKept(log: seq<Change>) {
    forall i :: 0 <= i < |log| && log[i].opsOnly ==> log[i].letter in MASKS || log[i].letter == CANCELLED
  }

  ghost predicate AllMasksKept(log: seq<Change>) {
    forall i :: 0 <= i < |log| && log[i].letter in MASKS ==> log[i].opsOnly
  }

  /** A new entry is for operators only if it is a mask's on a channel with +u. */
  lemma StepMarks(x: Context, dir: Dir, c: char, e: Engine)
    ensures var l := Step(x, dir, c, e).log;
      |l| > |e.log| ==> l[|l| - 1].opsOnly == (c in MASKS && 'u' in e.chan.modes)
    ensures 'u' in e.chan.modes && c != 'u' ==> 'u' in Step(x, dir, c, e).chan.modes
  {
    hide AddId, DelId, FixKey, Atoi, Itoa, Cancel;
    if ModeOf(c).Some? {
      match ModeOf(c).value.kind
      case Simple => SimpleMarks(x, dir, c, e);
      case Mask => MaskMarks(x, dir, c, e);
      case Flag => assert c !in MASKS && c != 'u'; hide StepSimple, StepMask;
      case Limit => hide StepSimple, StepMask, StepFlag;
      case Key => hide StepSimple, StepMask, StepFlag;
    }
  }

  lemma SimpleMarks(x: Context, dir: Dir, c: char, e: Engine)
    requires IsSimple(c)
    ensures var e' := StepSimple(x, dir, c, e);
      && (|e'.log| > |e.log| ==> !e'.log[|e'.log| - 1].opsOnly)
      && ('u' in e.chan.modes && c != 'u' ==> 'u' in e'.chan.modes)
  {
  }

  lemma MaskMarks(x: Context, dir: Dir, c: char, e: Engine)
    requires ModeOf(c).Some?
    ensures var e' := StepMask(x, dir, c, e);
      && (|e'.log| > |e.log| ==> e'.log[|e'.log| - 1].opsOnly == ('u' in e.chan.modes))
      && e'.chan.modes == e.chan.modes
  {
    hide AddId, DelId;
  }

  lemma StepKeepsMasks(x: Context, dir: Dir, c: char, e: Engine)
    requires OnlyMasksKept(e.log)
    ensures OnlyMasksKept(Step(x, dir, c, e).log)
    ensures 'u' in e.chan.modes && AllMasksKept(e.log) && c != 'u' ==>
      'u' in Step(x, dir, c, e).chan.modes && AllMasksKept(Step(x, dir, c, e).log)
  {
    StepMarks(x, dir, c, e);
    StepShape(x, dir, c, e);
    hide Step;
    var l, n := Step(x, dir, c, e).log, |e.log|;
    assert forall i :: 0 <= i < n ==> l[i] == l[..n][i];
  }

  lemma {:induction false} RunKeepsMasks(x: Context, ml: string, dir: Dir, e: Engine)
    requires OnlyMasksKept(e.log)
    ensures OnlyMasksKept(Run(x, ml, dir, e).log)
    ensures 'u' in e.chan.modes && AllMasksKept(e.log) && 'u' !in ml ==> AllMasksKept(Run(x, ml, dir, e).log)
  {
    hide Step, OnlyMasksKept, AllMasksKept;
    if ml != "" {
      assert ml[0] in ml && forall c :: c in ml[1..] ==> c in ml;
      if IsTurn(ml[0]) {
        RunKeepsMasks(x, ml[1..], Turn(ml[0], dir), e);
      } else {
        StepKeepsMasks(x, dir, ml[0], e);
        RunKeepsMasks(x, ml[1..], dir, Step(x, dir, ml[0], e));
      }
    }
  }

  /** For every mode string: what is shown to operators only are changes of masks; and on a channel with +u, unless the
      string itself touches that mode, no change of a mask is shown to all members. */
  lemma MasksHidden(env: Env, src: Source, member: Option<set<char>>, chan: Channel, parv: seq<string>, it: Item)
    requires parv != []
    ensures var log := ModeSet(env, src, member, chan, parv).log;
      && (it in Visible(log, true) ==> it.letter in "beI")
      && (it in Visible(log, false) && 'u' in chan.modes && 'u' !in parv[0] ==> it.letter !in "beI")
  {
    hide Run, Visible;
    var x := Context(env, src, Access(src, member), parv);
    RunKeepsMasks(x, parv[0], Add, Fresh(chan));
    var log := ModeSet(env, src, member, chan, parv).log;
    VisibleMeans(log, true, it);
    VisibleMeans(log, false, it);
  }
}
