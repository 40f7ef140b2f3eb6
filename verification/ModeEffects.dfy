// What each letter of a mode string does to the channel, said without the handlers.
module ModeEffects {
  import opened Strings
  import opened ModeSpec

  // ---------------------------------------------------------------- who may

  /** Half-operators may change what is no operator's business, operators and all who are no local users anything. */
  predicate AsHalfop(src: Source, member: Option<set<char>>) {
    !src.local || src.server || (member.Some? && ('o' in member.value || 'h' in member.value))
  }

  predicate AsOperator(src: Source, member: Option<set<char>>) {
    !src.local || src.server || (member.Some? && 'o' in member.value)
  }

  lemma AccessMeans(src: Source, member: Option<set<char>>)
    ensures Access(src, member) >= HALFOP <==> AsHalfop(src, member)
    ensures Access(src, member) >= CHANOP <==> AsOperator(src, member)
    ensures Access(src, member) >= REMOTE <==> !src.local || src.server
  {
  }

  /** Nothing but one more error, told if it was not told before. */
  ghost predicate OnlyTold(e: Engine, e': Engine, err: Err, shown: seq<string>) {
    && e'.chan == e.chan && e'.log == e.log && e'.parn == e.parn && e'.quota == e.quota && e'.done == e.done
    && e'.errors == e.errors + {err}
    && e'.replies == if err in e.errors then e.replies else e.replies + [Reply(err, shown)]
  }

  // ---------------------------------------------------------------- o, h and v

  /** Whom the next parameter names, if it names a member and another change may be made. */
  predicate Named(x: Context, e: Engine, id: string) {
    && e.parn < |x.parv| && x.env.resolve(x.parv[e.parn]) == Some(id) && id in e.chan.status
    && (x.src.local && !x.src.server ==> e.quota < 6)
  }

  predicate MayRaise(x: Context, c: char) {
    x.access >= (if c == 'v' then HALFOP else CHANOP)
  }

  /** Plus gives the member that is named the status, minus takes it, and nothing else changes. */
  lemma StatusLetter(x: Context, dir: Dir, c: char, e: Engine, id: string)
    requires c in "ohv" && !dir.Query? && MayRaise(x, c) && Named(x, e, id)
    ensures var e', had := Step(x, dir, c, e), e.chan.status[id];
      && e'.chan == e.chan.(status := e.chan.status[id := if dir.Add? then had + {c} else had - {c}])
      && e'.log == (if (c in had) == dir.Add? then e.log
                    else e.log + [Change(c, Some(x.env.nameOf(id)), Some(id), dir, false)])
      && e'.parn == e.parn + 1 && e'.errors == e.errors && e'.replies == e.replies
  {
    var had := e.chan.status[id];
    assert (if dir.Add? then had + {c} else had - {c}) == had ==> e.chan.status[id := had] == e.chan.status;
    assert c in had && dir.Add? ==> had + {c} == had;
    assert c !in had && !dir.Add? ==> had - {c} == had;
  }

  /** In every other case the status letters change nothing: without the access, which is told, without a parameter, or
      when that names nobody on the channel. */
  lemma StatusLetterElse(x: Context, dir: Dir, c: char, e: Engine)
    requires c in "ohv" && e.parn <= |x.parv|
    requires dir.Query? || !MayRaise(x, c) || forall id :: !Named(x, e, id)
    ensures var e' := Step(x, dir, c, e);
      && e'.chan == e.chan && e'.log == e.log
      && (!MayRaise(x, c) ==> OnlyTold(e, e', NoOps, []))
      && (MayRaise(x, c) ==> e'.errors <= e.errors + {NotOnChannel})
  {
    if MayRaise(x, c) && !dir.Query? && e.parn < |x.parv| && x.env.resolve(x.parv[e.parn]).Some? {
      var id := x.env.resolve(x.parv[e.parn]).value;
      assert !Named(x, e, id);
    }
  }

  /** No other letter changes any status. */
  lemma OthersKeepStatus(x: Context, dir: Dir, c: char, e: Engine)
    requires c !in "ohv"
    ensures Step(x, dir, c, e).chan.status == e.chan.status
  {
  }

  // ---------------------------------------------------------------- simple modes

  const PLAIN := "cimnpstuCMNRST"

  predicate MaySwitch(x: Context, c: char) {
    if c == 'r' then (x.src.server || x.src.service) && x.access >= REMOTE
    else x.access >= HALFOP && (c in "LO" && x.src.local && !x.src.server ==> x.src.oper)
  }

  /** Plus sets a simple mode, minus clears it, once in a run; what local users change already is so is not logged. */
  lemma SimpleLetter(x: Context, dir: Dir, c: char, e: Engine)
    requires (c in PLAIN || c in "LOr") && MaySwitch(x, c) && c !in e.done
    ensures var e', m := Step(x, dir, c, e), e.chan.modes;
      && e'.chan == e.chan.(modes := if dir.Add? then m + {c} else if dir.Del? then m - {c} else m)
      && e'.done == e.done + {c} && e'.parn == e.parn && e'.errors == e.errors && e'.replies == e.replies
      && e'.log == if x.src.local && !x.src.server && !dir.Query? && (c in m) == dir.Add? then e.log
                   else e.log + [Change(c, None, None, dir, false)]
  {
    SimpleTable(c);
    var m := e.chan.modes;
    assert c in m ==> m + {c} == m;
    assert c !in m ==> m - {c} == m;
  }

  lemma SimpleTable(c: char)
    requires c in PLAIN || c in "LOr"
    ensures ModeOf(c) == Some(ModeInfo(Simple, if c == 'r' then REMOTE else HALFOP, c in "LO", c == 'r'))
    ensures IsSimple(c)
  {
  }

  lemma SimpleLetterElse(x: Context, dir: Dir, c: char, e: Engine)
    requires (c in PLAIN || c in "LOr") && (!MaySwitch(x, c) || c in e.done)
    ensures var e' := Step(x, dir, c, e);
      && e'.chan == e.chan && e'.log == e.log
      && (!MaySwitch(x, c) ==>
           OnlyTold(e, e', if c in "LO" && x.src.local && !x.src.server && !x.src.oper then NotOper
                           else if c == 'r' && !x.src.server && !x.src.service then OnlyServer else NoOps, []))
  {
    SimpleTable(c);
  }

  /** A letter that is no mode is told as unknown. */
  lemma UnknownLetter(x: Context, dir: Dir, c: char, e: Engine)
    requires c !in PLAIN && c !in "LOrbeIohvkl"
    ensures OnlyTold(e, Step(x, dir, c, e), Unknown, [])
  {
  }

  // ---------------------------------------------------------------- b, e and I

  function TheList(chan: Channel, c: char): seq<string> {
    if c == 'b' then chan.bans else if c == 'e' then chan.excepts else chan.invexes
  }

  function WithList(chan: Channel, c: char, list: seq<string>): Channel {
    if c == 'b' then chan.(bans := list) else if c == 'e' then chan.(excepts := list) else chan.(invexes := list)
  }

  /** May the next parameter be used as a mask? Not if it starts with a colon, nor, unless it comes over a connection of
      this server's own, if it holds a space; and local users have six changes. */
  predicate MaskGiven(x: Context, dir: Dir, e: Engine) {
    && !dir.Query? && e.parn < |x.parv| && x.access >= HALFOP
    && (x.parv[e.parn] == "" || x.parv[e.parn][0] != ':') && (' ' in x.parv[e.parn] ==> x.src.local)
    && (x.src.local && !x.src.server ==> e.quota < 6)
  }

  /** What is stored of a mask: for a local user what it is reformatted to, if there is room and it is valid, and for
      others its first 199 octets, if those are not empty. */
  function Stored(x: Context, c: char, chan: Channel, mask: string): Option<string> {
    var m := if |mask| <= 199 then mask else mask[..199];
    if !x.src.local || x.src.server then if x.env.emptyMask(m) then None else Some(m)
    else if |chan.bans| + |chan.excepts| + |chan.invexes| <
              (if 'L' in chan.modes then x.env.maxBansLarge else x.env.maxBans) then x.env.normalise(c, m)
    else None
  }

  ghost predicate Lists(list: seq<string>, m: string) {
    exists i :: 0 <= i < |list| && SameFolded(m, list[i])
  }

  /** The one entry that is logged for a mask; on a channel with +u only operators are shown it. */
  function MaskChange(c: char, m: string, dir: Dir, chan: Channel): Change {
    Change(c, Some(if |m| <= 199 then m else m[..199]), None, dir, 'u' in chan.modes)
  }

  /** Adding: what is stored heads the list, unless the list has it already, up to folding. */
  lemma MaskAdded(x: Context, c: char, e: Engine)
    requires c in "beI" && MaskGiven(x, Add, e)
    ensures var e', list, m := Step(x, Add, c, e), TheList(e.chan, c), Stored(x, c, e.chan, x.parv[e.parn]);
      && e'.parn == e.parn + 1 && e'.errors == e.errors && e'.replies == e.replies
      && if m.Some? && !Lists(list, m.value)
         then e'.chan == WithList(e.chan, c, [m.value] + list) &&
              e'.log == e.log + [MaskChange(c, m.value, Add, e.chan)]
         else e'.chan == e.chan && e'.log == e.log
  {
    hide Step;
    MaskTaken(x, Add, c, e);
    var m := Stored(x, c, e.chan, x.parv[e.parn]);
    assert m == BanString(x, c, e.chan, x.parv[e.parn]);
    if m.Some? { FoundIffListed(TheList(e.chan, c), m.value); }
  }

  lemma FoundIffListed(list: seq<string>, m: string)
    ensures FindMask(list, m) < |list| <==> Lists(list, m)
  {
    if Lists(list, m) {
      var i :| 0 <= i < |list| && SameFolded(m, list[i]);
      assert i >= FindMask(list, m);
    }
  }

  lemma MaskTable(c: char)
    requires c in "beI"
    ensures ModeOf(c) == Some(ModeInfo(Mask, HALFOP, false, false)) && !IsSimple(c)
  {
  }

  /** Removing: the first entry that folds to the mask goes, and the others stay in their order. */
  lemma MaskRemoved(x: Context, c: char, e: Engine, i: nat)
    requires c in "beI" && MaskGiven(x, Del, e) && i < |TheList(e.chan, c)|
    requires SameFolded(x.parv[e.parn], TheList(e.chan, c)[i])
    requires forall j :: 0 <= j < i ==> !SameFolded(x.parv[e.parn], TheList(e.chan, c)[j])
    ensures var e', list := Step(x, Del, c, e), TheList(e.chan, c);
      && e'.chan == WithList(e.chan, c, list[..i] + list[i + 1..])
      && e'.log == e.log + [MaskChange(c, list[i], Del, e.chan)]
      && e'.parn == e.parn + 1 && e'.errors == e.errors && e'.replies == e.replies
  {
    hide FindMask, SameFolded, Step;
    FoundAt(TheList(e.chan, c), x.parv[e.parn], i);
    MaskTaken(x, Del, c, e);
  }

  /** A mask that may be used is a step on its list, once it is counted and read. */
  lemma MaskTaken(x: Context, dir: Dir, c: char, e: Engine)
    requires c in "beI" && MaskGiven(x, dir, e)
    ensures var quota := if x.src.local && !x.src.server then e.quota + 1 else e.quota;
      Step(x, dir, c, e) == MaskStep(x, dir, c, e.(parn := e.parn + 1, quota := quota), x.parv[e.parn])
  {
    hide MaskStep;
    MaskTable(c);
  }

  lemma FoundAt(list: seq<string>, m: string, i: nat)
    requires i < |list| && SameFolded(m, list[i]) && forall j :: 0 <= j < i ==> !SameFolded(m, list[j])
    ensures FindMask(list, m) == i
  {
    hide SameFolded;
    assert FindMask(list, m) >= i;
  }

  lemma MaskNotRemoved(x: Context, c: char, e: Engine)
    requires c in "beI" && MaskGiven(x, Del, e) && !Lists(TheList(e.chan, c), x.parv[e.parn])
    ensures var e' := Step(x, Del, c, e); e'.chan == e.chan && e'.log == e.log && e'.parn == e.parn + 1
  {
    hide Step;
    MaskTaken(x, Del, c, e);
    FoundIffListed(TheList(e.chan, c), x.parv[e.parn]);
  }

  /** Otherwise nothing changes. Without a parameter the list is shown, on a channel with +u to half-operators only. */
  lemma MaskLetterElse(x: Context, dir: Dir, c: char, e: Engine)
    requires c in "beI" && !MaskGiven(x, dir, e)
    ensures var e' := Step(x, dir, c, e);
      && e'.chan == e.chan && e'.log == e.log
      && (dir.Query? || |x.parv| <= e.parn ==>
           OnlyTold(e, e', if c == 'b' then ListB else if c == 'e' then ListE else ListI,
                    if 'u' in e.chan.modes && x.access < HALFOP then [] else TheList(e.chan, c)))
      && (!dir.Query? && e.parn < |x.parv| && x.access < HALFOP ==> OnlyTold(e, e', NoOps, []))
  {
    MaskTable(c);
  }

  // ---------------------------------------------------------------- l and k

  /** The log without the earlier additions of a letter: they are struck, not removed. */
  ghost predicate Struck(log: seq<Change>, log': seq<Change>, c: char) {
    && |log'| == |log|
    && forall i :: 0 <= i < |log| ==>
      log'[i] == if log[i].letter == c && log[i].dir.Add? then log[i].(letter := '\0') else log[i]
  }

  /** A positive limit is set; `-l` clears one that is set. */
  lemma LimitLetter(x: Context, dir: Dir, e: Engine)
    requires x.access >= HALFOP
    ensures var e' := Step(x, dir, 'l', e);
      && (dir.Add? && e.parn < |x.parv| && Atoi(x.parv[e.parn]) > 0 ==>
           && e'.chan == e.chan.(limit := Atoi(x.parv[e.parn])) && |e'.log| == |e.log| + 1
           && Struck(e.log, e'.log[..|e.log|], 'l')
           && e'.log[|e.log|] == Change('l', Some(Itoa(Atoi(x.parv[e.parn]))), None, Add, false))
      && (dir.Add? && (|x.parv| <= e.parn || Atoi(x.parv[e.parn]) <= 0) ==> e'.chan == e.chan && e'.log == e.log)
      && (dir.Del? ==> e'.chan == e.chan.(limit := 0))
      && (dir.Del? ==> e'.log == if e.chan.limit == 0 then e.log else e.log + [Change('l', None, None, Del, false)])
      && (dir.Query? ==> e' == e)
      && e'.parn == (if dir.Add? && e.parn < |x.parv| then e.parn + 1 else e.parn)
      && e'.errors == e.errors && e'.replies == e.replies
  {
    hide Atoi, Itoa;
  }

  /** A key that is not empty once cleaned is set; `-k` clears it, whatever the parameter. */
  lemma KeyLetter(x: Context, dir: Dir, e: Engine)
    requires x.access >= HALFOP
    ensures var e' := Step(x, dir, 'k', e);
      && (dir.Add? && e.parn < |x.parv| && FixKey(x.parv[e.parn]) != "" ==>
           && e'.chan == e.chan.(key := FixKey(x.parv[e.parn])) && |e'.log| == |e.log| + 1
           && Struck(e.log, e'.log[..|e.log|], 'k')
           && e'.log[|e.log|] == Change('k', Some(FixKey(x.parv[e.parn])), None, Add, false))
      && (dir.Add? && (|x.parv| <= e.parn || FixKey(x.parv[e.parn]) == "") ==> e'.chan == e.chan && e'.log == e.log)
      && (dir.Del? ==> e'.chan == e.chan.(key := ""))
      && (dir.Del? ==> e'.log == if e.chan.key == "" then e.log else e.log + [Change('k', Some("*"), None, Del, false)])
      && (dir.Query? ==> e' == e)
      && e'.parn == (if !dir.Query? && e.parn < |x.parv| then e.parn + 1 else e.parn)
      && e'.errors == e.errors && e'.replies == e.replies
  {
    hide FixKey;
  }

  lemma LimitOrKeyRefused(x: Context, dir: Dir, c: char, e: Engine)
    requires c in "lk" && x.access < HALFOP
    ensures OnlyTold(e, Step(x, dir, c, e), NoOps, [])
  {
  }

  // ---------------------------------------------------------------- one-letter mode strings

  /** A mode string of a sign and one letter. */
  lemma OneLetter(env: Env, src: Source, member: Option<set<char>>, chan: Channel, sign: char, c: char,
                  args: seq<string>)
    requires sign in "+-=" && c !in "+-="
    ensures var x := Context(env, src, Access(src, member), [[sign, c]] + args);
      var dir := if sign == '+' then Add else if sign == '-' then Del else Query;
      ModeSet(env, src, member, chan, [[sign, c]] + args) == Step(x, dir, c, Fresh(chan))
  {
    hide Step;
    var x := Context(env, src, Access(src, member), [[sign, c]] + args);
    var ml := [sign, c];
    assert ml[1..] == [c] && [c][1..] == "";
    var dir := Turn(sign, Add);
    assert Run(x, ml, Add, Fresh(chan)) == Run(x, [c], dir, Fresh(chan));
    assert Run(x, [c], dir, Fresh(chan)) == Run(x, "", dir, Step(x, dir, c, Fresh(chan)));
  }

  /** MODE +o, +h, +v and their opposites: whoever may gives the member that the parameter names the status, or takes
      it, and nothing else changes; without the access, or if the parameter names no member, nothing changes. */
  lemma StatusMode(env: Env, src: Source, member: Option<set<char>>, chan: Channel, sign: char, c: char, p: string)
    requires sign in "+-" && c in "ohv"
    ensures var now, id := ModeSet(env, src, member, chan, [[sign, c], p]).chan, env.resolve(p);
      if (if c == 'v' then AsHalfop(src, member) else AsOperator(src, member)) && id.Some? && id.value in chan.status
      then now == chan.(status := chan.status[id.value := if sign == '+' then chan.status[id.value] + {c}
                                                          else chan.status[id.value] - {c}])
      else now == chan
  {
    hide Step, ModeSet;
    AccessMeans(src, member);
    OneLetter(env, src, member, chan, sign, c, [p]);
    assert [[sign, c]] + [p] == [[sign, c], p];
    var x := Context(env, src, Access(src, member), [[sign, c], p]);
    var dir := if sign == '+' then Add else Del;
    var id := env.resolve(p);
    if MayRaise(x, c) && id.Some? && id.value in chan.status {
      StatusLetter(x, dir, c, Fresh(chan), id.value);
    } else {
      StatusLetterElse(x, dir, c, Fresh(chan));
    }
  }
}
