// Masks with a space, which can be stored but not sent: when a mode change adds one.
module SpacedMasks {
  import opened Strings
  import opened ModeSpec
  import opened ModeLines
  import opened ModeReplay

  /** A change that a directly connected server gets through, and whose mask keeps a space. */
  predicate SpacedMask(env: Env, it: Item) {
    && it.letter in "beI" && it.dir.Add? && it.arg.Some?
    && var m := Truncate(it.arg.value, BANSTRLEN);
      ' ' in m && m[0] != ':' && !env.emptyMask(m)
  }

  /** Does the mode change bring a mask with a space? That can be told from who asks and for what. */
  predicate BringsSpaces(env: Env, src: Source, parv: seq<string>)
    requires parv != []
  {
    && src.local && src.server
    && exists it :: it in Decode(parv[0], Add, parv[1..]) && SpacedMask(env, it)
  }

  /** The change that the handler of a letter is given. */
  function Given(x: Context, dir: Dir, c: char, e: Engine): Item {
    if WantsArg(c, dir) && e.parn < |x.parv| then Item(c, dir, Some(x.parv[e.parn])) else Item(c, dir, None)
  }

  /** A server's handlers use up what they are given. */
  lemma ParameterUsed(x: Context, dir: Dir, c: char, e: Engine)
    requires x.access == REMOTE && !x.src.MyClient() && e.parn <= |x.parv|
    ensures Step(x, dir, c, e).parn == e.parn + |ArgOf(Given(x, dir, c, e))|
  {
  }

  lemma MaskKeepsSpace(x: Context, dir: Dir, c: char, e: Engine)
    requires x.access == REMOTE && x.src.local && x.src.server && e.parn <= |x.parv| && SpaceFree(e.chan)
    requires ModeOf(c).Some? && ModeOf(c).value.kind.Mask?
    ensures SpaceFree(StepMask(x, dir, c, e).chan) <==> !SpacedMask(x.env, Given(x, dir, c, e))
  {
    hide FindMask, Truncate;
    if dir.Add? && e.parn < |x.parv| {
      var m := x.parv[e.parn];
      TruncateClean(m, BANSTRLEN);
      if SpacedMask(x.env, Given(x, dir, c, e)) {
        SpacedIsNew(e.chan.Masks(c), Truncate(m, BANSTRLEN));
      }
    }
  }

  lemma SpacedIsNew(list: seq<string>, m: string)
    requires NoSpaces(list) && ' ' in m
    ensures FindMask(list, m) == |list| && !NoSpaces([m] + list)
  {
    forall k: string | ' ' !in k ensures !SameFolded(m, k) {
      var j :| 0 <= j < |m| && m[j] == ' ';
      assert |k| == |m| ==> k[j] in k;
    }
    assert ([m] + list)[0] == m;
  }

  lemma StepSpaced(x: Context, dir: Dir, c: char, e: Engine)
    requires x.access == REMOTE && x.src.local && x.src.server && e.parn <= |x.parv| && SpaceFree(e.chan)
    ensures SpaceFree(Step(x, dir, c, e).chan) <==> !SpacedMask(x.env, Given(x, dir, c, e))
  {
    if ModeOf(c).Some? && ModeOf(c).value.kind.Mask? { MaskKeepsSpace(x, dir, c, e); }
  }

  lemma GivenFirst(x: Context, ml: string, dir: Dir, e: Engine)
    requires ml != "" && !IsTurn(ml[0]) && e.parn <= |x.parv|
    ensures var it := Given(x, dir, ml[0], e);
      e.parn + |ArgOf(it)| <= |x.parv| &&
      Decode(ml, dir, x.parv[e.parn..]) == [it] + Decode(ml[1..], dir, x.parv[e.parn + |ArgOf(it)|..])
  {
  }

  /** A directly connected server leaves a mask with a space if and only if one of the changes it asks for adds one. */
  lemma {:induction false} RunSpaced(peer: Env, x: Context, ml: string, dir: Dir, e: Engine)
    requires x.access == REMOTE && x.src.local && x.src.server && e.parn <= |x.parv| && SpaceFree(e.chan)
    requires EnvOk(x.env, peer) && OnlyLastSpaced(x.parv)
    ensures !SpaceFree(Run(x, ml, dir, e).chan) <==>
      exists it :: it in Decode(ml, dir, x.parv[e.parn..]) && SpacedMask(x.env, it)
    decreases |ml|
  {
    hide Step, SpaceFree, EnvOk, SpacedMask, Given, OnlyLastSpaced, Decode;
    if ml == "" {
      DecodeNothing(dir, x.parv[e.parn..]);
    } else if IsTurn(ml[0]) {
      DecodeTurn(ml, dir, x.parv[e.parn..]);
      RunSpaced(peer, x, ml[1..], Turn(ml[0], dir), e);
    } else {
      var it, e' := Given(x, dir, ml[0], e), Step(x, dir, ml[0], e);
      GivenFirst(x, ml, dir, e);
      ParameterUsed(x, dir, ml[0], e);
      StepSpaced(x, dir, ml[0], e);
      SpacedIsLast(peer, x, dir, ml[0], e);
      var rest := Decode(ml[1..], dir, x.parv[e'.parn..]);
      assert forall k :: k in [it] + rest <==> k == it || k in rest;
      if SpaceFree(e'.chan) {
        RunSpaced(peer, x, ml[1..], dir, e');
      } else {
        StaysSpaced(x, ml[1..], dir, e');
      }
    }
  }

  lemma DecodeNothing(dir: Dir, args: seq<string>)
    ensures Decode("", dir, args) == []
  {
  }

  lemma DecodeTurn(ml: string, dir: Dir, args: seq<string>)
    requires ml != "" && IsTurn(ml[0])
    ensures Decode(ml, dir, args) == Decode(ml[1..], Turn(ml[0], dir), args)
  {
  }

  lemma StaysSpaced(x: Context, ml: string, dir: Dir, e: Engine)
    requires e.parn == |x.parv| && !SpaceFree(e.chan)
    ensures !SpaceFree(Run(x, ml, dir, e).chan)
  {
    NoParametersLeft(x, ml, dir, e);
  }

  /** Nobody else leaves one. */
  lemma {:induction false} OthersSpaceFree(peer: Env, x: Context, ml: string, dir: Dir, e: Engine)
    requires !(x.src.local && x.src.server) && e.parn <= |x.parv| && SpaceFree(e.chan)
    requires EnvOk(x.env, peer) && OnlyLastSpaced(x.parv)
    ensures SpaceFree(Run(x, ml, dir, e).chan)
  {
    hide Step, SpaceFree, EnvOk, OnlyLastSpaced;
    if ml != "" {
      if IsTurn(ml[0]) {
        OthersSpaceFree(peer, x, ml[1..], Turn(ml[0], dir), e);
      } else {
        SpacedIsLast(peer, x, dir, ml[0], e);
        OthersSpaceFree(peer, x, ml[1..], dir, Step(x, dir, ml[0], e));
      }
    }
  }

  /** A mode change leaves a mask with a space if and only if it brings one. */
  lemma SpaceFreeIff(env: Env, peer: Env, src: Source, member: Option<set<char>>, chan: Channel, parv: seq<string>)
    requires parv != [] && EnvOk(env, peer) && OnlyLastSpaced(parv) && SpaceFree(chan)
    ensures SpaceFree(ModeSet(env, src, member, chan, parv).chan) <==> !BringsSpaces(env, src, parv)
  {
    hide Run, SpaceFree, EnvOk, OnlyLastSpaced, Decode, SpacedMask;
    var x := Context(env, src, Access(src, member), parv);
    if src.local && src.server {
      RunSpaced(peer, x, parv[0], Add, Fresh(chan));
    } else {
      OthersSpaceFree(peer, x, parv[0], Add, Fresh(chan));
    }
  }
}
