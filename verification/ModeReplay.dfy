// The uncancelled log of a run, replayed one change at a time, reproduces what the run did.
module ModeReplay {
  import opened Strings
  import opened ModeSpec
  import opened ModeLines

  // ---------------------------------------------------------------- one change at a time

  /** What a single printed change does on a peer, on its own. */
  function Apply(env: Env, src: Source, chan: Channel, it: Item): Channel {
    Step(Context(env, src.Remotely(), REMOTE, [""] + ArgOf(it)), it.dir, it.letter, Fresh(chan)).chan
  }

  function ApplyAll(env: Env, src: Source, chan: Channel, items: seq<Item>): Channel {
    if items == [] then chan
    else Apply(env, src, ApplyAll(env, src, chan, items[..|items| - 1]), items[|items| - 1])
  }

  lemma {:induction false} ApplyAppend(env: Env, src: Source, chan: Channel, a: seq<Item>, b: seq<Item>)
    ensures ApplyAll(env, src, chan, a + b) == ApplyAll(env, src, ApplyAll(env, src, chan, a), b)
  {
    hide Apply;
    if b == [] {
      assert a + b == a;
    } else {
      var n := |b| - 1;
      ApplyAppend(env, src, chan, a, b[..n]);
      assert (a + b)[..|a + b| - 1] == a + b[..n];
    }
  }

  /** No simple mode is mentioned twice. */
  ghost predicate SimpleOnce(items: seq<Item>) {
    forall i, j :: 0 <= i < j < |items| && IsSimple(items[i].letter) ==> items[i].letter != items[j].letter
  }

  /** The handler finds the same parameter, and nothing else it looks at differs. */
  ghost predicate Alone(x: Context, s: Source, dir: Dir, c: char, e: Engine, it: Item) {
    && x.src == s.Remotely() && x.access == REMOTE && e.parn <= |x.parv|
    && c !in e.done
    && it == if WantsArg(c, dir) && e.parn < |x.parv| then Item(c, dir, Some(x.parv[e.parn])) else Item(c, dir, None)
  }

  ghost predicate DoneAlone(x: Context, s: Source, c: char, e: Engine, e': Engine, it: Item) {
    && e'.chan == Apply(x.env, s, e.chan, it)
    && e'.parn == e.parn + |ArgOf(it)|
    && e'.done <= e.done + {c} && (!IsSimple(c) ==> e'.done == e.done)
  }

  lemma StepAlone(x: Context, s: Source, dir: Dir, c: char, e: Engine, it: Item)
    requires Alone(x, s, dir, c, e, it)
    ensures DoneAlone(x, s, c, e, Step(x, dir, c, e), it)
  {
    if ModeOf(c).Some? {
      hide Apply;
      match ModeOf(c).value.kind
      case Simple => SimpleAlone(x, s, dir, c, e, it);
      case Mask => MaskAlone(x, s, dir, c, e, it);
      case Flag => FlagAlone(x, s, dir, c, e, it);
      case Limit => LimitAlone(x, s, dir, c, e, it);
      case Key => KeyAlone(x, s, dir, c, e, it);
    }
  }

  lemma SimpleAlone(x: Context, s: Source, dir: Dir, c: char, e: Engine, it: Item)
    requires Alone(x, s, dir, c, e, it) && IsSimple(c)
    ensures DoneAlone(x, s, c, e, StepSimple(x, dir, c, e), it)
  {
  }

  lemma MaskAlone(x: Context, s: Source, dir: Dir, c: char, e: Engine, it: Item)
    requires Alone(x, s, dir, c, e, it) && ModeOf(c).Some? && ModeOf(c).value.kind.Mask?
    ensures DoneAlone(x, s, c, e, StepMask(x, dir, c, e), it)
  {
    hide FindMask, Truncate, WantsArg;
    var y := Context(x.env, x.src, REMOTE, [""] + ArgOf(it));
    assert WantsArg(c, dir) == !dir.Query? by { MaskWants(c, dir); }
    assert it.arg.Some? ==> y.parv[1] == x.parv[e.parn];
  }

  lemma MaskWants(c: char, dir: Dir)
    requires ModeOf(c).Some? && ModeOf(c).value.kind.Mask?
    ensures WantsArg(c, dir) == !dir.Query?
  {
  }

  lemma FlagAlone(x: Context, s: Source, dir: Dir, c: char, e: Engine, it: Item)
    requires Alone(x, s, dir, c, e, it) && ModeOf(c).Some? && ModeOf(c).value.kind.Flag?
    ensures DoneAlone(x, s, c, e, StepFlag(x, dir, c, e), it)
  {
  }

  lemma LimitAlone(x: Context, s: Source, dir: Dir, c: char, e: Engine, it: Item)
    requires Alone(x, s, dir, c, e, it) && ModeOf(c).Some? && ModeOf(c).value.kind.Limit?
    ensures DoneAlone(x, s, c, e, StepLimit(x, dir, c, e), it)
  {
  }

  lemma KeyAlone(x: Context, s: Source, dir: Dir, c: char, e: Engine, it: Item)
    requires Alone(x, s, dir, c, e, it) && ModeOf(c).Some? && ModeOf(c).value.kind.Key?
    ensures DoneAlone(x, s, c, e, StepKey(x, dir, c, e), it)
  {
  }

  lemma SimpleOnceTail(it: Item, rest: seq<Item>)
    requires SimpleOnce([it] + rest)
    ensures SimpleOnce(rest)
    ensures forall i :: 0 <= i < |rest| && IsSimple(it.letter) ==> rest[i].letter != it.letter
  {
    var items := [it] + rest;
    assert forall i :: 0 <= i < |rest| ==> rest[i] == items[i + 1];
    assert items[0] == it;
  }

  /** A run of the engine for a remote source does what its decoded changes do one by one. */
  lemma {:induction false} RunIsApplyAll(x: Context, s: Source, ml: string, dir: Dir, e: Engine)
    requires x.src == s.Remotely() && x.access == REMOTE && e.parn <= |x.parv|
    requires var items := Decode(ml, dir, x.parv[e.parn..]);
      SimpleOnce(items) && forall i :: 0 <= i < |items| ==> items[i].letter !in e.done
    ensures Run(x, ml, dir, e).chan == ApplyAll(x.env, s, e.chan, Decode(ml, dir, x.parv[e.parn..]))
    decreases |ml|
  {
    hide Step, Apply, SimpleOnce, WantsArg;
    if ml == "" {
    } else if IsTurn(ml[0]) {
      RunIsApplyAll(x, s, ml[1..], Turn(ml[0], dir), e);
    } else {
      var args := x.parv[e.parn..];
      var items := Decode(ml, dir, args);
      var it := items[0];
      StepAlone(x, s, dir, ml[0], e, it);
      var e' := Step(x, dir, ml[0], e);
      var rest := Decode(ml[1..], dir, args[|ArgOf(it)|..]);
      assert args[|ArgOf(it)|..] == x.parv[e'.parn..];
      assert items == [it] + rest;
      SimpleOnceTail(it, rest);
      forall i | 0 <= i < |rest| ensures rest[i].letter !in e'.done {
        assert rest[i] == items[i + 1];
      }
      RunIsApplyAll(x, s, ml[1..], dir, e');
      ApplyAppend(x.env, s, e.chan, [it], rest);
      ApplySnoc(x.env, s, e.chan, [], it);
      assert [] + [it] == [it];
    }
  }

  // ---------------------------------------------------------------- the assumptions

  predicate WireMask(m: string) {
    Word(m) && |m| <= BANSTRLEN
  }

  ghost predicate WireMasks(list: seq<string>) {
    forall i :: 0 <= i < |list| ==> WireMask(list[i])
  }

  /** Masks and ids of the channel can be printed, and the peer knows the ids. */
  ghost predicate Printable(peer: Env, chan: Channel) {
    && WireMasks(chan.bans) && WireMasks(chan.excepts) && WireMasks(chan.invexes)
    && forall id :: id in chan.status ==> Word(id) && peer.resolve(id) == Some(id)
  }

  /** A reformatted mask is a single short parameter that is not empty after its prefix,
      and both servers agree which masks are. */
  ghost predicate EnvOk(env: Env, peer: Env) {
    && (forall c, m :: env.normalise(c, m).Some? ==>
          WireMask(env.normalise(c, m).value) && !env.emptyMask(env.normalise(c, m).value))
    && env.emptyMask("")
    && forall m :: env.emptyMask(m) == peer.emptyMask(m)
  }

  /** The message parser leaves spaces in the last parameter only. */
  predicate OnlyLastSpaced(parv: seq<string>) {
    forall i :: 0 <= i < |parv| - 1 ==> ' ' !in parv[i]
  }

  predicate NoSpaces(list: seq<string>) {
    forall i :: 0 <= i < |list| ==> ' ' !in list[i]
  }

  /** No mask of the channel holds a space. */
  predicate SpaceFree(chan: Channel) {
    NoSpaces(chan.bans) && NoSpaces(chan.excepts) && NoSpaces(chan.invexes)
  }

  // ---------------------------------------------------------------- the log explains the channel

  /** What the log holds can be printed and is allowed to the source on any server. */
  predicate Sendable(src: Source, it: Item) {
    WellFormedItem(it) &&
    (ModeOf(it.letter).value.onlyServers ==> src.server || src.service)
  }

  ghost predicate AllSendable(src: Source, items: seq<Item>) {
    forall i :: 0 <= i < |items| ==> Sendable(src, items[i])
  }

  ghost predicate InSync(peer: Env, x: Context, chan: Channel, e: Engine) {
    && ApplyAll(peer, x.src, chan, Live(e.log)) == e.chan
    && AllSendable(x.src, Live(e.log))
    && SimpleOnce(Live(e.log))
    && (forall i :: 0 <= i < |Live(e.log)| && IsSimple(Live(e.log)[i].letter) ==> Live(e.log)[i].letter in e.done)
    && Printable(peer, e.chan)
    && e.parn <= |x.parv|
  }

  lemma LiveSnoc(log: seq<Change>, ch: Change)
    ensures Live(log + [ch]) == Live(log) + if ch.letter == CANCELLED then [] else [ServerItem(ch)]
  {
    assert (log + [ch])[..|log|] == log;
  }

  /** Nothing was logged and nothing changed. */
  ghost predicate Quiet(e: Engine, e': Engine) {
    e'.log == e.log && e'.chan == e.chan && e.done <= e'.done
  }

  /** One change was logged, after possibly cancelling others, and a peer reproduces its effect. */
  ghost predicate LogsChange(peer: Env, src: Source, e: Engine, e': Engine, ch: Change) {
    && ch.letter != CANCELLED && Sendable(src, ServerItem(ch))
    && Apply(peer, src, e.chan, ServerItem(ch)) == e'.chan
    && Printable(peer, e'.chan)
    && e.done <= e'.done
    && (IsSimple(ch.letter) ==> ch.letter !in e.done && ch.letter in e'.done)
  }

  /** Appending one entry whose effect a peer reproduces keeps the log and the channel in step. */
  lemma InSyncSnoc(peer: Env, x: Context, chan: Channel, e: Engine, e': Engine, ch: Change)
    requires InSync(peer, x, chan, e)
    requires LogsChange(peer, x.src, e, e', ch) && e'.log == e.log + [ch] && e'.parn <= |x.parv|
    ensures InSync(peer, x, chan, e')
  {
    hide Apply, Printable;
    LiveSnoc(e.log, ch);
    ApplySnoc(peer, x.src, chan, Live(e.log), ServerItem(ch));
  }

  lemma StepSimpleLogs(peer: Env, x: Context, dir: Dir, c: char, e: Engine)
    requires Printable(peer, e.chan) && IsSimple(c)
    ensures var e' := StepSimple(x, dir, c, e); var ch := Change(c, None, None, dir, false);
      e'.parn == e.parn &&
      (Quiet(e, e') || (LogsChange(peer, x.src, e, e', ch) && e'.log == e.log + [ch]))
  {
    var e' := StepSimple(x, dir, c, e);
    var it := Item(c, dir, None);
    assert ServerItem(Change(c, None, None, dir, false)) == it;
    if !Quiet(e, e') {
      assert Sendable(x.src, it);
      ApplySimple(peer, x.src, e.chan, it);
    }
  }

  lemma ApplySimple(peer: Env, src: Source, chan: Channel, it: Item)
    requires IsSimple(it.letter) && Sendable(src, it)
    ensures Apply(peer, src, chan, it) == match it.dir {
      case Add => chan.(modes := chan.modes + {it.letter})
      case Del => chan.(modes := chan.modes - {it.letter})
      case Query => chan
    }
  {
    assert ModeOf(it.letter).value.level <= REMOTE;
    assert !src.Remotely().MyClient();
  }

  lemma FindMaskSame(list: seq<string>, m: string)
    requires FindMask(list, m) < |list|
    ensures FindMask(list, list[FindMask(list, m)]) == FindMask(list, m)
  {
    var i := FindMask(list, m);
    assert SameFolded(list[i], list[i]);
    assert forall j :: 0 <= j < i && SameFolded(list[i], list[j]) ==> SameFolded(m, list[j]);
  }

  lemma TruncateClean(m: string, n: nat)
    requires n > 0
    ensures m != "" ==> Truncate(m, n) != "" && Truncate(m, n)[0] == m[0]
    ensures ' ' !in m ==> ' ' !in Truncate(m, n)
  {
  }

  lemma BanStringSendable(peer: Env, x: Context, c: char, chan: Channel, mask: string)
    requires EnvOk(x.env, peer) && !BadMask(x.src, mask)
    requires BanString(x, c, chan, mask).Some? && ' ' !in BanString(x, c, chan, mask).value
    ensures WireMask(BanString(x, c, chan, mask).value)
    ensures !peer.emptyMask(BanString(x, c, chan, mask).value)
  {
    TruncateClean(mask, BANSTRLEN);
  }

  /** What add_id or del_id leaves, as a peer will be told. */
  lemma MaskResult(peer: Env, x: Context, dir: Dir, c: char, chan: Channel, mask: string, r: (seq<string>, string))
    requires Printable(peer, chan) && EnvOk(x.env, peer) && !BadMask(x.src, mask) && !dir.Query? && NoSpaces(r.0)
    requires (if dir.Add? then AddId(x, c, chan, mask) else DelId(c, chan, mask)) == Some(r)
    requires ModeOf(c).Some? && ModeOf(c).value.kind.Mask?
    ensures WireMask(r.1) && WireMasks(r.0)
    ensures Apply(peer, x.src, chan, Item(c, dir, Some(r.1))) == chan.WithMasks(c, r.0)
  {
    hide Apply;
    var list := chan.Masks(c);
    assert WireMasks(list);
    if dir.Add? {
      assert r.0[0] == r.1;
      BanStringSendable(peer, x, c, chan, mask);
    } else {
      FindMaskSame(list, mask);
      assert WireMask(list[FindMask(list, mask)]);
    }
    ApplyMask(peer, x.src, chan, Item(c, dir, Some(r.1)), r.0);
  }

  lemma StepMaskLogs(peer: Env, x: Context, dir: Dir, c: char, e: Engine) returns (ch: Change)
    requires Printable(peer, e.chan) && e.parn <= |x.parv|
    requires ModeOf(c).Some? && ModeOf(c).value.kind.Mask?
    requires EnvOk(x.env, peer) && SpaceFree(StepMask(x, dir, c, e).chan)
    ensures var e' := StepMask(x, dir, c, e);
      e'.parn <= |x.parv| &&
      (Quiet(e, e') || (LogsChange(peer, x.src, e, e', ch) && e'.log == e.log + [ch]))
  {
    hide Apply, AddId, DelId, EnvOk, BadMask;
    var e' := StepMask(x, dir, c, e);
    ch := Change(c, None, None, dir, 'u' in e.chan.modes);
    if !Quiet(e, e') {
      var mask := x.parv[e.parn];
      var r := (if dir.Add? then AddId(x, c, e.chan, mask) else DelId(c, e.chan, mask)).value;
      MaskResult(peer, x, dir, c, e.chan, mask, r);
      ch := ch.(arg := Some(r.1));
      assert ServerItem(ch) == Item(c, dir, Some(r.1)) && Sendable(x.src, ServerItem(ch));
      assert Truncate(r.1, BANSTRLEN) == r.1;
    }
  }

  lemma ApplyMask(peer: Env, src: Source, chan: Channel, it: Item, list: seq<string>)
    requires ModeOf(it.letter).Some? && ModeOf(it.letter).value.kind.Mask? && !it.dir.Query?
    requires it.arg.Some? && WireMask(it.arg.value)
    requires it.dir.Add? ==>
      (!peer.emptyMask(it.arg.value) &&
      FindMask(chan.Masks(it.letter), it.arg.value) == |chan.Masks(it.letter)| &&
      list == [it.arg.value] + chan.Masks(it.letter))
    requires it.dir.Del? ==>
      (var i := FindMask(chan.Masks(it.letter), it.arg.value);
      i < |chan.Masks(it.letter)| && list == chan.Masks(it.letter)[..i] + chan.Masks(it.letter)[i + 1..])
    ensures Apply(peer, src, chan, it) == chan.WithMasks(it.letter, list)
  {
  }

  lemma StepFlagLogs(peer: Env, x: Context, dir: Dir, c: char, e: Engine) returns (ch: Change)
    requires Printable(peer, e.chan) && e.parn <= |x.parv|
    requires ModeOf(c).Some? && ModeOf(c).value.kind.Flag?
    ensures var e' := StepFlag(x, dir, c, e);
      e'.parn <= |x.parv| &&
      (Quiet(e, e') || (LogsChange(peer, x.src, e, e', ch) && e'.log == e.log + [ch]))
  {
    var e' := StepFlag(x, dir, c, e);
    ch := Change(c, None, None, dir, false);
    if !Quiet(e, e') {
      var id := x.env.resolve(x.parv[e.parn]).value;
      ch := ch.(arg := Some(x.env.nameOf(id)), id := Some(id));
      assert ServerItem(ch) == Item(c, dir, Some(id));
    }
  }

  // ---------------------------------------------------------------- cancelled entries

  /** Equal but for the limit (c is l) or the key (c is k). */
  ghost predicate Alike(c: char, a: Channel, b: Channel) {
    a.modes == b.modes && a.status == b.status && a.bans == b.bans && a.excepts == b.excepts &&
    a.invexes == b.invexes && (a.limit == b.limit || c == 'l') && (a.key == b.key || c == 'k')
  }

  lemma ApplyAlike(env: Env, src: Source, c: char, a: Channel, b: Channel, it: Item)
    requires c == 'l' || c == 'k'
    requires Alike(c, a, b)
    ensures Alike(c, Apply(env, src, a, it), Apply(env, src, b, it))
    ensures it.letter == c ==> Alike(c, a, Apply(env, src, b, it))
  {
    hide ModeOf, Apply;
    var info := ModeOf(it.letter);
    if info.Some? { LimitOrKey(it.letter); }
    if info.None? {
      UnknownAlike(env, src, c, a, b, it);
    } else if info.value.kind.Mask? {
      MaskAlike(env, src, c, a, b, it);
    } else if info.value.kind.Flag? {
      FlagAlike(env, src, c, a, b, it);
    } else if info.value.kind.Simple? {
      SimpleAlike(env, src, c, a, b, it);
    } else {
      LimitKeyAlike(env, src, c, a, b, it);
    }
  }

  lemma UnknownAlike(env: Env, src: Source, c: char, a: Channel, b: Channel, it: Item)
    requires Alike(c, a, b) && ModeOf(it.letter).None? && (c == 'l' || c == 'k')
    ensures Alike(c, Apply(env, src, a, it), Apply(env, src, b, it)) && it.letter != c
  {
  }

  lemma MaskAlike(env: Env, src: Source, c: char, a: Channel, b: Channel, it: Item)
    requires Alike(c, a, b) && ModeOf(it.letter).Some? && ModeOf(it.letter).value.kind.Mask?
    ensures Alike(c, Apply(env, src, a, it), Apply(env, src, b, it))
  {
    assert a.Masks(it.letter) == b.Masks(it.letter);
  }

  lemma FlagAlike(env: Env, src: Source, c: char, a: Channel, b: Channel, it: Item)
    requires Alike(c, a, b) && ModeOf(it.letter).Some? && ModeOf(it.letter).value.kind.Flag?
    ensures Alike(c, Apply(env, src, a, it), Apply(env, src, b, it))
  {
  }

  lemma SimpleAlike(env: Env, src: Source, c: char, a: Channel, b: Channel, it: Item)
    requires Alike(c, a, b) && IsSimple(it.letter)
    ensures Alike(c, Apply(env, src, a, it), Apply(env, src, b, it))
  {
  }

  lemma LimitKeyAlike(env: Env, src: Source, c: char, a: Channel, b: Channel, it: Item)
    requires Alike(c, a, b) && ModeOf(it.letter).Some?
    requires ModeOf(it.letter).value.kind.Limit? || ModeOf(it.letter).value.kind.Key?
    ensures Alike(c, Apply(env, src, a, it), Apply(env, src, b, it))
    ensures it.letter == c ==> Alike(c, a, Apply(env, src, b, it))
  {
    hide Apply, Atoi, FixKey;
    LimitOrKey(it.letter);
    if it.letter == 'l' {
      ApplyLimit(env, src, a, it);
      ApplyLimit(env, src, b, it);
    } else {
      ApplyKey(env, src, a, it);
      ApplyKey(env, src, b, it);
    }
  }

  lemma LimitOrKey(c: char)
    requires ModeOf(c).Some?
    ensures ModeOf(c).value.kind.Limit? <==> c == 'l'
    ensures ModeOf(c).value.kind.Key? <==> c == 'k'
  {
  }

  /** A limit, or no valid one, is applied to the limit alone. */
  lemma ApplyLimit(env: Env, src: Source, chan: Channel, it: Item)
    requires it.letter == 'l'
    ensures Apply(env, src, chan, it) == chan.(limit :=
      if it.dir.Add? && it.arg.Some? && Atoi(it.arg.value) > 0 then Atoi(it.arg.value)
      else if it.dir.Del? then 0 else chan.limit)
  {
    hide Atoi;
  }

  lemma ApplyKey(env: Env, src: Source, chan: Channel, it: Item)
    requires it.letter == 'k'
    ensures Apply(env, src, chan, it) == chan.(key :=
      if it.dir.Add? && it.arg.Some? && FixKey(it.arg.value) != "" then FixKey(it.arg.value)
      else if it.dir.Del? then "" else chan.key)
  {
    hide FixKey;
  }

  lemma {:induction false} CancelAlike(env: Env, src: Source, chan: Channel, log: seq<Change>, c: char)
    requires c == 'l' || c == 'k'
    ensures Alike(c, ApplyAll(env, src, chan, Live(Cancel(log, c))), ApplyAll(env, src, chan, Live(log)))
  {
    hide Apply, ApplyAll, Alike, Cancel, Live;
    if log == [] {
      CancelNothing(c);
      AlikeSelf(c, ApplyAll(env, src, chan, Live([])));
    } else {
      var n := |log| - 1;
      CancelAlike(env, src, chan, log[..n], c);
      CancelSnoc(log[..n], log[n], c);
      assert log == log[..n] + [log[n]];
      var items, kept := Live(log[..n]), Live(Cancel(log[..n], c));
      var it := ServerItem(log[n]);
      ApplyAlike(env, src, c, ApplyAll(env, src, chan, kept), ApplyAll(env, src, chan, items), it);
      LiveSnoc(log[..n], log[n]);
      LiveSnoc(Cancel(log[..n], c), CancelOne(log[n], c));
      ApplySnoc(env, src, chan, items, it);
      ApplySnoc(env, src, chan, kept, it);
      assert items + [] == items && kept + [] == kept;
    }
  }

  lemma CancelNothing(c: char)
    ensures Cancel([], c) == []
  {
  }

  lemma CancelSnoc(log: seq<Change>, ch: Change, c: char)
    ensures Cancel(log + [ch], c) == Cancel(log, c) + [CancelOne(ch, c)]
  {
  }

  lemma AlikeSelf(c: char, a: Channel)
    ensures Alike(c, a, a)
  {
  }

  lemma ApplySnoc(env: Env, src: Source, chan: Channel, items: seq<Item>, it: Item)
    ensures ApplyAll(env, src, chan, items + [it]) == Apply(env, src, ApplyAll(env, src, chan, items), it)
  {
    assert (items + [it])[..|items|] == items;
  }

  /** Cancelling drops entries and keeps the order of the others. */
  lemma {:induction false} CancelKeeps(src: Source, log: seq<Change>, done: set<char>, c: char)
    requires AllSendable(src, Live(log)) && SimpleOnce(Live(log))
    ensures AllSendable(src, Live(Cancel(log, c))) && SimpleOnce(Live(Cancel(log, c)))
    ensures forall it :: it in Live(Cancel(log, c)) ==> it in Live(log)
  {
    if log != [] {
      var n := |log| - 1;
      var items, kept := Live(log[..n]), Live(Cancel(log[..n], c));
      assert forall i :: 0 <= i < |items| ==> items[i] == Live(log)[i];
      CancelKeeps(src, log[..n], done, c);
      LiveSnoc(Cancel(log[..n], c), CancelOne(log[n], c));
      if log[n].letter != CANCELLED && CancelOne(log[n], c).letter != CANCELLED {
        var it := ServerItem(log[n]);
        assert Live(log) == items + [it];
        KeptOnce(items, kept, it);
        assert Sendable(src, Live(log)[|items|]);
      }
    }
  }

  lemma KeptOnce(items: seq<Item>, kept: seq<Item>, it: Item)
    requires SimpleOnce(items + [it]) && SimpleOnce(kept) && forall k :: k in kept ==> k in items
    ensures SimpleOnce(kept + [it])
  {
    forall i | 0 <= i < |kept| && IsSimple(kept[i].letter)
      ensures kept[i].letter != it.letter
    {
      assert kept[i] in items;
      var j :| 0 <= j < |items| && items[j] == kept[i];
      assert (items + [it])[j] == kept[i] && (items + [it])[|items|] == it;
    }
  }

  // ---------------------------------------------------------------- every step, every run

  /** A limit or a key replaces those logged before it. */
  lemma InSyncReplace(peer: Env, x: Context, chan: Channel, e: Engine, e': Engine, ch: Change)
    requires InSync(peer, x, chan, e)
    requires Replaces(ch)
    requires LogsChange(peer, x.src, e, e', ch) && e'.log == Cancel(e.log, ch.letter) + [ch] && e'.parn <= |x.parv|
    ensures InSync(peer, x, chan, e')
  {
    hide Apply, ApplyAll, Alike, Cancel, Live, SimpleOnce, AllSendable, Sendable;
    var c := ch.letter;
    var log := Cancel(e.log, c);
    CancelAlike(peer, x.src, chan, e.log, c);
    CancelKeeps(x.src, e.log, e.done, c);
    var items, it := Live(log), ServerItem(ch);
    ReplaceForgets(peer, x.src, ApplyAll(peer, x.src, chan, items), e.chan, it);
    LiveSnoc(log, ch);
    ApplySnoc(peer, x.src, chan, items, it);
    assert !IsSimple(c);
    SoundSnoc(x.src, items, it, Live(e.log), e.done, e'.done);
  }

  lemma SoundSnoc(src: Source, items: seq<Item>, it: Item, all: seq<Item>, done: set<char>, done': set<char>)
    requires AllSendable(src, items) && Sendable(src, it) && SimpleOnce(items) && !IsSimple(it.letter)
    requires (forall k :: k in items ==> k in all) && done <= done'
    requires forall i :: 0 <= i < |all| && IsSimple(all[i].letter) ==> all[i].letter in done
    ensures var now := items + [it];
      AllSendable(src, now) && SimpleOnce(now) &&
      forall i :: 0 <= i < |now| && IsSimple(now[i].letter) ==> now[i].letter in done'
  {
    hide Sendable, IsSimple;
    forall i | 0 <= i < |items| && IsSimple(items[i].letter) ensures items[i].letter in done' {
      assert items[i] in all;
    }
  }

  /** Setting a limit or key does not depend on the one before. */
  lemma ReplaceForgets(env: Env, src: Source, a: Channel, b: Channel, it: Item)
    requires it.letter == 'l' || it.letter == 'k'
    requires Alike(it.letter, a, b) && it.dir.Add? && Sendable(src, it)
    requires it.letter == 'l' ==> Atoi(it.arg.value) > 0
    requires it.letter == 'k' ==> FixKey(it.arg.value) != ""
    ensures Apply(env, src, a, it) == Apply(env, src, b, it)
  {
  }

  /** What a step may do to the log: nothing, append, or replace earlier limits or keys. */
  ghost predicate Advances(peer: Env, x: Context, e: Engine, e': Engine, ch: Change) {
    e'.parn <= |x.parv| &&
    (Quiet(e, e') ||
     (LogsChange(peer, x.src, e, e', ch) && e'.log == e.log + [ch]) ||
     (LogsChange(peer, x.src, e, e', ch) && e'.log == Cancel(e.log, ch.letter) + [ch] && Replaces(ch)))
  }

  predicate Replaces(ch: Change) {
    ch.dir.Add? && ch.id.None? && ch.arg.Some? &&
    ((ch.letter == 'l' && Atoi(ch.arg.value) > 0) || (ch.letter == 'k' && FixKey(ch.arg.value) != ""))
  }

  lemma StepLimitLogs(peer: Env, x: Context, dir: Dir, e: Engine) returns (ch: Change)
    requires Printable(peer, e.chan) && e.parn <= |x.parv|
    ensures Advances(peer, x, e, StepLimit(x, dir, 'l', e), ch)
  {
    var e' := StepLimit(x, dir, 'l', e);
    ch := Change('l', None, None, dir, false);
    if !Quiet(e, e') && dir.Add? {
      var n := Atoi(x.parv[e.parn]);
      AtoiItoa(n);
      ItoaWord(n);
      ch := ch.(arg := Some(Itoa(n)));
    }
    if !Quiet(e, e') {
      LimitApplies(peer, x.src, e.chan, ServerItem(ch));
    }
  }

  lemma LimitApplies(peer: Env, src: Source, chan: Channel, it: Item)
    requires it.letter == 'l' && ((it.dir.Add? && it.arg.Some? && Atoi(it.arg.value) > 0) || it.dir.Del?)
    ensures Apply(peer, src, chan, it) == chan.(limit := if it.dir.Add? then Atoi(it.arg.value) else 0)
  {
  }

  lemma ItoaWord(n: nat)
    ensures Word(Itoa(n))
  {
    ItoaDigits(n);
    assert IsDigit(Itoa(n)[0]);
  }

  lemma StepKeyLogs(peer: Env, x: Context, dir: Dir, e: Engine) returns (ch: Change)
    requires Printable(peer, e.chan) && e.parn <= |x.parv|
    ensures Advances(peer, x, e, StepKey(x, dir, 'k', e), ch)
  {
    hide Apply, FixKey, Printable;
    var e' := StepKey(x, dir, 'k', e);
    SamePrintable(peer, e.chan, e'.chan);
    ch := Change('k', Some("*"), None, dir, false);
    if !Quiet(e, e') && dir.Add? {
      var key := FixKey(x.parv[e.parn]);
      FixKeyIdempotent(x.parv[e.parn]);
      ch := ch.(arg := Some(key));
    }
    if !Quiet(e, e') {
      KeyApplies(peer, x.src, e.chan, ServerItem(ch));
    }
  }

  lemma SamePrintable(peer: Env, a: Channel, b: Channel)
    requires Printable(peer, a)
    requires a.bans == b.bans && a.excepts == b.excepts && a.invexes == b.invexes && a.status == b.status
    ensures Printable(peer, b)
  {
  }

  lemma KeyApplies(peer: Env, src: Source, chan: Channel, it: Item)
    requires it.letter == 'k' && it.arg.Some? && ((it.dir.Add? && FixKey(it.arg.value) != "") || it.dir.Del?)
    ensures Apply(peer, src, chan, it) == chan.(key := if it.dir.Add? then FixKey(it.arg.value) else "")
  {
    hide Apply, FixKey;
    ApplyKey(peer, src, chan, it);
  }

  lemma StepLogs(peer: Env, x: Context, dir: Dir, c: char, e: Engine) returns (ch: Change)
    requires Printable(peer, e.chan) && e.parn <= |x.parv| && EnvOk(x.env, peer)
    requires SpaceFree(Step(x, dir, c, e).chan)
    ensures Advances(peer, x, e, Step(x, dir, c, e), ch)
  {
    hide Apply, StepSimple, StepMask, StepFlag, StepLimit, StepKey, Printable, EnvOk, LogsChange;
    ch := Change(c, None, None, dir, false);
    if ModeOf(c).Some? {
      match ModeOf(c).value.kind
      case Limit => ch := StepLimitLogs(peer, x, dir, e);
      case Key => ch := StepKeyLogs(peer, x, dir, e);
      case Simple => StepSimpleLogs(peer, x, dir, c, e);
      case Mask => ch := StepMaskLogs(peer, x, dir, c, e);
      case Flag => ch := StepFlagLogs(peer, x, dir, c, e);
    }
  }

  lemma StepInSync(peer: Env, x: Context, chan: Channel, dir: Dir, c: char, e: Engine)
    requires InSync(peer, x, chan, e) && EnvOk(x.env, peer) && SpaceFree(Step(x, dir, c, e).chan)
    ensures InSync(peer, x, chan, Step(x, dir, c, e))
  {
    hide Apply, Step;
    var e' := Step(x, dir, c, e);
    var ch := StepLogs(peer, x, dir, c, e);
    if Quiet(e, e') {
    } else if e'.log == e.log + [ch] {
      InSyncSnoc(peer, x, chan, e, e', ch);
    } else {
      InSyncReplace(peer, x, chan, e, e', ch);
    }
  }

  /** A mask with a space, which only a directly connected server can add, comes with the last parameter. */
  lemma SpacedIsLast(peer: Env, x: Context, dir: Dir, c: char, e: Engine)
    requires SpaceFree(e.chan) && EnvOk(x.env, peer) && OnlyLastSpaced(x.parv) && e.parn <= |x.parv|
    ensures SpaceFree(Step(x, dir, c, e).chan) || Step(x, dir, c, e).parn == |x.parv|
    ensures SpaceFree(Step(x, dir, c, e).chan) || (x.src.local && x.src.server)
    ensures Step(x, dir, c, e).parn <= |x.parv|
  {
    if ModeOf(c).Some? && ModeOf(c).value.kind.Mask? {
      SpacedMaskIsLast(peer, x, dir, c, e);
    }
  }

  lemma SpacedMaskIsLast(peer: Env, x: Context, dir: Dir, c: char, e: Engine)
    requires SpaceFree(e.chan) && EnvOk(x.env, peer) && OnlyLastSpaced(x.parv) && e.parn <= |x.parv|
    requires ModeOf(c).Some? && ModeOf(c).value.kind.Mask?
    ensures SpaceFree(StepMask(x, dir, c, e).chan) || StepMask(x, dir, c, e).parn == |x.parv|
    ensures SpaceFree(StepMask(x, dir, c, e).chan) || (x.src.local && x.src.server)
    ensures StepMask(x, dir, c, e).parn <= |x.parv|
  {
    hide AddId, DelId, BadMask, EnvOk;
    var e' := StepMask(x, dir, c, e);
    if e'.chan != e.chan {
      var mask := x.parv[e.parn];
      var r := (if dir.Add? then AddId(x, c, e.chan, mask) else DelId(c, e.chan, mask)).value;
      MaskOfOne(peer, x, dir, c, e.chan, mask, r);
    }
  }

  lemma MaskOfOne(peer: Env, x: Context, dir: Dir, c: char, chan: Channel, mask: string, r: (seq<string>, string))
    requires SpaceFree(chan) && EnvOk(x.env, peer) && !BadMask(x.src, mask)
    requires (if dir.Add? then AddId(x, c, chan, mask) else DelId(c, chan, mask)) == Some(r)
    ensures NoSpaces(r.0) || (' ' in mask && x.src.local && x.src.server)
  {
    TruncateClean(mask, BANSTRLEN);
  }

  /** Once the parameters are used up, the mask lists stay as they are. */
  lemma {:induction false} NoParametersLeft(x: Context, ml: string, dir: Dir, e: Engine)
    requires e.parn == |x.parv|
    ensures var e' := Run(x, ml, dir, e);
      e'.chan.bans == e.chan.bans && e'.chan.excepts == e.chan.excepts && e'.chan.invexes == e.chan.invexes
  {
    hide Step;
    if ml != "" {
      if IsTurn(ml[0]) {
        NoParametersLeft(x, ml[1..], Turn(ml[0], dir), e);
      } else {
        StepWithoutParameter(x, dir, ml[0], e);
        NoParametersLeft(x, ml[1..], dir, Step(x, dir, ml[0], e));
      }
    }
  }

  lemma StepWithoutParameter(x: Context, dir: Dir, c: char, e: Engine)
    requires e.parn == |x.parv|
    ensures var e' := Step(x, dir, c, e);
      e'.parn == e.parn &&
      e'.chan.bans == e.chan.bans && e'.chan.excepts == e.chan.excepts && e'.chan.invexes == e.chan.invexes
  {
  }

  /** Replaying the uncancelled log on the old channel gives the new one, unless that has got a mask with a space. */
  lemma {:induction false} RunInSync(peer: Env, x: Context, chan: Channel, ml: string, dir: Dir, e: Engine)
    requires InSync(peer, x, chan, e) && EnvOk(x.env, peer) && OnlyLastSpaced(x.parv)
    requires SpaceFree(Run(x, ml, dir, e).chan)
    ensures InSync(peer, x, chan, Run(x, ml, dir, e))
  {
    hide Step, InSync, EnvOk;
    if ml == "" {
    } else if IsTurn(ml[0]) {
      RunInSync(peer, x, chan, ml[1..], Turn(ml[0], dir), e);
    } else {
      var e' := Step(x, dir, ml[0], e);
      SyncedIsSpaceFree(peer, x, chan, e);
      SpacedIsLast(peer, x, dir, ml[0], e);
      if !SpaceFree(e'.chan) { NoParametersLeft(x, ml[1..], dir, e'); }
      StepInSync(peer, x, chan, dir, ml[0], e);
      RunInSync(peer, x, chan, ml[1..], dir, e');
    }
  }

  lemma SyncedIsSpaceFree(peer: Env, x: Context, chan: Channel, e: Engine)
    requires InSync(peer, x, chan, e)
    ensures SpaceFree(e.chan) && e.parn <= |x.parv|
  {
    hide ApplyAll, Live, AllSendable, SimpleOnce;
    forall list, i | list in {e.chan.bans, e.chan.excepts, e.chan.invexes} && 0 <= i < |list| ensures ' ' !in list[i] {
      assert WireMask(list[i]);
    }
  }

  /** The run of a remote source adds no mask with a space. */
  lemma {:induction false} RemoteAddsNoSpaces(x: Context, ml: string, dir: Dir, e: Engine)
    requires SpaceFree(e.chan) && !x.src.local
    ensures SpaceFree(Run(x, ml, dir, e).chan)
  {
    hide Step;
    if ml != "" {
      if IsTurn(ml[0]) {
        RemoteAddsNoSpaces(x, ml[1..], Turn(ml[0], dir), e);
      } else {
        RemoteStepNoSpaces(x, dir, ml[0], e);
        RemoteAddsNoSpaces(x, ml[1..], dir, Step(x, dir, ml[0], e));
      }
    }
  }

  lemma RemoteStepNoSpaces(x: Context, dir: Dir, c: char, e: Engine)
    requires SpaceFree(e.chan) && !x.src.local
    ensures SpaceFree(Step(x, dir, c, e).chan)
  {
    if ModeOf(c).Some? && ModeOf(c).value.kind.Mask? {
      RemoteMaskNoSpaces(x, dir, c, e);
    }
  }

  lemma RemoteMaskNoSpaces(x: Context, dir: Dir, c: char, e: Engine)
    requires SpaceFree(e.chan) && !x.src.local && ModeOf(c).Some? && ModeOf(c).value.kind.Mask?
    ensures SpaceFree(StepMask(x, dir, c, e).chan)
  {
    hide AddId, DelId;
    var e' := StepMask(x, dir, c, e);
    if e'.chan != e.chan {
      var mask := x.parv[e.parn];
      var r := (if dir.Add? then AddId(x, c, e.chan, mask) else DelId(c, e.chan, mask)).value;
      RemoteMaskOfOne(x, dir, c, e.chan, mask, r);
    }
  }

  lemma RemoteMaskOfOne(x: Context, dir: Dir, c: char, chan: Channel, mask: string, r: (seq<string>, string))
    requires SpaceFree(chan) && !x.src.local && !BadMask(x.src, mask)
    requires (if dir.Add? then AddId(x, c, chan, mask) else DelId(c, chan, mask)) == Some(r)
    ensures NoSpaces(r.0)
  {
    TruncateClean(mask, BANSTRLEN);
  }
}
