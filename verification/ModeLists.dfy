// What a run of the engine keeps in the mask lists, and which entries of its log survive.
module ModeLists {
  import opened Strings
  import opened ModeSpec

  // ---------------------------------------------------------------- mask lists

  /** No two masks of a list are the same but for case. */
  ghost predicate NoTwins(list: seq<string>) {
    forall i, j :: 0 <= i < j < |list| ==> !SameFolded(list[i], list[j])
  }

  ghost predicate CleanLists(chan: Channel) {
    NoTwins(chan.bans) && NoTwins(chan.excepts) && NoTwins(chan.invexes)
  }

  function Total(chan: Channel): nat {
    |chan.bans| + |chan.excepts| + |chan.invexes|
  }

  /** The most masks a local user can bring a channel to. */
  function Most(env: Env): int {
    if env.maxBans > env.maxBansLarge then env.maxBans else env.maxBansLarge
  }

  lemma AddedNoTwins(list: seq<string>, m: string)
    requires NoTwins(list) && FindMask(list, m) == |list|
    ensures NoTwins([m] + list)
  {
  }

  lemma DeletedNoTwins(list: seq<string>, i: nat)
    requires NoTwins(list) && i < |list|
    ensures NoTwins(list[..i] + list[i + 1..])
  {
  }

  ghost predicate ListsOk(x: Context, chan: Channel, chan': Channel) {
    && (CleanLists(chan) ==> CleanLists(chan'))
    && (x.src.MyClient() ==> Total(chan') <= Total(chan) || Total(chan') <= Most(x.env))
  }

  lemma MaskListsOk(x: Context, dir: Dir, c: char, e: Engine, mask: string)
    ensures ListsOk(x, e.chan, MaskStep(x, dir, c, e, mask).chan)
  {
    hide NoTwins, FindMask;
    if dir.Add? {
      var b := BanString(x, c, e.chan, mask);
      if b.Some? && FindMask(e.chan.Masks(c), b.value) == |e.chan.Masks(c)| && CleanLists(e.chan) {
        AddedNoTwins(e.chan.Masks(c), b.value);
      }
    } else {
      var i := FindMask(e.chan.Masks(c), mask);
      if i < |e.chan.Masks(c)| && CleanLists(e.chan) { DeletedNoTwins(e.chan.Masks(c), i); }
    }
  }

  lemma StepListsOk(x: Context, dir: Dir, c: char, e: Engine)
    ensures ListsOk(x, e.chan, Step(x, dir, c, e).chan)
  {
    hide NoTwins, MaskStep;
    if ModeOf(c).Some? && ModeOf(c).value.kind.Mask? && e.parn < |x.parv| {
      var e1 := if x.src.MyClient() then e.(quota := e.quota + 1) else e;
      MaskListsOk(x, dir, c, e1.(parn := e.parn + 1), x.parv[e.parn]);
    }
  }

  /** No run brings two masks into a list that differ only in case, and no local user brings a channel beyond the
      configured number of masks. */
  lemma {:induction false} RunListsOk(x: Context, ml: string, dir: Dir, e: Engine)
    ensures ListsOk(x, e.chan, Run(x, ml, dir, e).chan)
  {
    hide NoTwins, Step;
    if ml != "" {
      if IsTurn(ml[0]) {
        RunListsOk(x, ml[1..], Turn(ml[0], dir), e);
      } else {
        StepListsOk(x, dir, ml[0], e);
        RunListsOk(x, ml[1..], dir, Step(x, dir, ml[0], e));
      }
    }
  }

  // ---------------------------------------------------------------- "accept latter"

  predicate Superseded(c: char) { c == 'l' || c == 'k' }

  /** Of several limits or several keys set in one run, only the last is still in the log, with the value the channel
      has unless it was removed again. */
  ghost predicate LatterOnly(e: Engine) {
    && (forall i, j :: 0 <= i < j < |e.log| && e.log[i].dir.Add? && e.log[j].dir.Add? && Superseded(e.log[i].letter) ==>
         e.log[i].letter != e.log[j].letter)
    && (forall i :: 0 <= i < |e.log| && e.log[i].dir.Add? && e.log[i].letter == 'l' && e.chan.limit > 0 ==>
         e.log[i].arg == Some(Itoa(e.chan.limit)))
    && (forall i :: 0 <= i < |e.log| && e.log[i].dir.Add? && e.log[i].letter == 'k' && e.chan.key != "" ==>
         e.log[i].arg == Some(e.chan.key))
  }

  lemma LimitLatterOnly(x: Context, dir: Dir, e: Engine)
    requires LatterOnly(e)
    ensures LatterOnly(StepLimit(x, dir, 'l', e))
  {
    hide Atoi, Itoa;
  }

  lemma KeyLatterOnly(x: Context, dir: Dir, e: Engine)
    requires LatterOnly(e)
    ensures LatterOnly(StepKey(x, dir, 'k', e))
  {
    hide FixKey;
  }

  /** A step of another letter adds entries of that letter only, and leaves limit and key alone. */
  lemma OtherLatterOnly(x: Context, dir: Dir, c: char, e: Engine)
    requires LatterOnly(e) && !Superseded(c)
    ensures LatterOnly(Step(x, dir, c, e))
  {
    hide Step;
    OtherKeeps(x, dir, c, e);
  }

  lemma OtherKeeps(x: Context, dir: Dir, c: char, e: Engine)
    requires !Superseded(c)
    ensures var e' := Step(x, dir, c, e);
      && e'.chan.limit == e.chan.limit && e'.chan.key == e.chan.key
      && (e'.log == e.log || (e'.log != [] && e'.log[..|e'.log| - 1] == e.log && e'.log[|e'.log| - 1].letter == c))
  {
    hide StepSimple, StepMask, StepFlag, Cancel;
    StepShape(x, dir, c, e);
    if ModeOf(c).Some? {
      match ModeOf(c).value.kind
      case Simple => SimpleKeeps(x, dir, c, e);
      case Mask => MaskKeeps(x, dir, c, e);
      case Flag => FlagKeeps(x, dir, c, e);
      case Limit =>
      case Key =>
    }
  }

  lemma SimpleKeeps(x: Context, dir: Dir, c: char, e: Engine)
    requires IsSimple(c)
    ensures var e' := StepSimple(x, dir, c, e);
      e'.chan.limit == e.chan.limit && e'.chan.key == e.chan.key &&
        (e'.log == e.log || (|e'.log| == |e.log| + 1 && e'.log[..|e.log|] == e.log))
  {
  }

  lemma FlagKeeps(x: Context, dir: Dir, c: char, e: Engine)
    requires ModeOf(c).Some?
    ensures var e' := StepFlag(x, dir, c, e);
      e'.chan.limit == e.chan.limit && e'.chan.key == e.chan.key &&
        (e'.log == e.log || (|e'.log| == |e.log| + 1 && e'.log[..|e.log|] == e.log))
  {
  }

  lemma MaskKeeps(x: Context, dir: Dir, c: char, e: Engine)
    requires ModeOf(c).Some?
    ensures var e' := StepMask(x, dir, c, e);
      e'.chan.limit == e.chan.limit && e'.chan.key == e.chan.key &&
        (e'.log == e.log || (|e'.log| == |e.log| + 1 && e'.log[..|e.log|] == e.log))
  {
  }

  lemma {:induction false} RunLatterOnly(x: Context, ml: string, dir: Dir, e: Engine)
    requires LatterOnly(e)
    ensures LatterOnly(Run(x, ml, dir, e))
  {
    hide LatterOnly, Step;
    if ml != "" {
      if IsTurn(ml[0]) {
        RunLatterOnly(x, ml[1..], Turn(ml[0], dir), e);
      } else {
        StepLatterOnly(x, dir, ml[0], e);
        RunLatterOnly(x, ml[1..], dir, Step(x, dir, ml[0], e));
      }
    }
  }

  lemma StepLatterOnly(x: Context, dir: Dir, c: char, e: Engine)
    requires LatterOnly(e)
    ensures LatterOnly(Step(x, dir, c, e))
  {
    hide LatterOnly;
    if c == 'l' {
      LimitLatterOnly(x, dir, e);
    } else if c == 'k' {
      KeyLatterOnly(x, dir, e);
    } else {
      OtherLatterOnly(x, dir, c, e);
    }
  }

  /** Every call: the log it ends with and the masks it leaves. */
  lemma ModeSetLists(env: Env, src: Source, member: Option<set<char>>, chan: Channel, parv: seq<string>)
    requires parv != []
    ensures var e := ModeSet(env, src, member, chan, parv);
      && LatterOnly(e) && (CleanLists(chan) ==> CleanLists(e.chan))
      && (src.MyClient() ==> Total(e.chan) <= Total(chan) || Total(e.chan) <= Most(env))
  {
    var x := Context(env, src, Access(src, member), parv);
    RunLatterOnly(x, parv[0], Add, Fresh(chan));
    RunListsOk(x, parv[0], Add, Fresh(chan));
  }
}
