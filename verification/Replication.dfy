// Replication: a peer that obeys the printed TMODE lines ends with the channel of the sender.
module Replication {
  import opened Strings
  import opened ModeSpec
  import opened ModeLines
  import opened ModeReplay
  import opened ModeWire
  import opened SpacedMasks

  // ---------------------------------------------------------------- from lines to changes

  /** The changes read from all lines, in order. */
  function ReadAll(lines: seq<seq<Item>>): seq<Item> {
    if lines == [] then [] else ReadAll(lines[..|lines| - 1]) + AsRead(lines[|lines| - 1])
  }

  /** The same changes, but for those printed without a direction of their own. */
  ghost predicate ReadsAs(items: seq<Item>, read: seq<Item>) {
    && |read| == |items|
    && forall i :: 0 <= i < |items| ==>
      && read[i] == items[i].(dir := read[i].dir)
      && !read[i].dir.Query?
      && (items[i].dir.Query? || read[i].dir == items[i].dir)
  }

  lemma {:induction false} AsReadReads(items: seq<Item>)
    requires WellFormed(items)
    ensures ReadsAs(items, AsRead(items))
  {
    if items != [] {
      var n := |items| - 1;
      AsReadReads(items[..n]);
      ReadDirSound(items);
      ReadsAsSnoc(items[..n], AsRead(items[..n]), items[n], items[n].(dir := ReadDir(items)));
      assert items == items[..n] + [items[n]];
    }
  }

  lemma ReadsAsSnoc(items: seq<Item>, read: seq<Item>, it: Item, rd: Item)
    requires ReadsAs(items, read) && rd == it.(dir := rd.dir) && !rd.dir.Query?
    requires it.dir.Query? || rd.dir == it.dir
    ensures ReadsAs(items + [it], read + [rd])
  {
  }

  lemma ReadsAsAppend(a: seq<Item>, ra: seq<Item>, b: seq<Item>, rb: seq<Item>)
    requires ReadsAs(a, ra) && ReadsAs(b, rb)
    ensures ReadsAs(a + b, ra + rb)
  {
  }

  lemma WellFormedParts(a: seq<Item>, b: seq<Item>)
    requires WellFormed(a + b)
    ensures WellFormed(a) && WellFormed(b)
  {
    assert forall i :: 0 <= i < |a| ==> a[i] == (a + b)[i];
    assert forall i :: 0 <= i < |b| ==> b[i] == (a + b)[|a| + i];
  }

  lemma {:induction false} ReadAllReads(lines: seq<seq<Item>>)
    requires WellFormed(Concat(lines))
    ensures ReadsAs(Concat(lines), ReadAll(lines))
  {
    hide WellFormed, ReadsAs, AsRead;
    if lines == [] {
      NothingReads();
    } else {
      var n := |lines| - 1;
      WellFormedParts(Concat(lines[..n]), lines[n]);
      ReadAllReads(lines[..n]);
      AsReadReads(lines[n]);
      ReadsAsAppend(Concat(lines[..n]), ReadAll(lines[..n]), lines[n], AsRead(lines[n]));
    }
  }

  lemma NothingReads()
    ensures ReadsAs([], [])
  {
  }

  /** Every line can be printed, and mentions a simple mode once. */
  ghost predicate GoodLines(lines: seq<seq<Item>>) {
    forall i :: 0 <= i < |lines| ==>
      lines[i] != [] && WellFormed(lines[i]) && SimpleOnce(lines[i]) && |Args(lines[i])| <= MAXMODEPARAMS
  }

  lemma {:induction false} SixParameters(head: nat, items: seq<Item>)
    ensures var p := PackItems(head, items);
      |Args(p.cur)| <= MAXMODEPARAMS &&
      forall i :: 0 <= i < |p.lines| ==> |Args(p.lines[i])| <= MAXMODEPARAMS
  {
    hide Args, Letters, Join, ArgLength;
    if items == [] {
      NothingPacked(head);
    } else {
      var n := |items| - 1;
      SixParameters(head, items[..n]);
      var p := PackItems(head, items[..n]);
      NothingPacked(head);
      ArgsSnoc(if MustFlush(head, p.cur, items[n]) then [] else p.cur, items[n]);
    }
  }

  lemma NothingPacked(head: nat)
    ensures PackItems(head, []) == Packing([], []) && Args([]) == []
  {
  }

  lemma ArgsSnoc(cur: seq<Item>, it: Item)
    ensures |Args(cur + [it])| <= |Args(cur)| + 1
  {
    assert (cur + [it])[..|cur|] == cur;
  }

  lemma SimpleOnceParts(a: seq<Item>, b: seq<Item>)
    requires SimpleOnce(a + b)
    ensures SimpleOnce(a) && SimpleOnce(b)
  {
    assert forall i :: 0 <= i < |a| ==> a[i] == (a + b)[i];
    assert forall i :: 0 <= i < |b| ==> b[i] == (a + b)[|a| + i];
  }

  lemma {:induction false} PartsGood(lines: seq<seq<Item>>)
    requires WellFormed(Concat(lines)) && SimpleOnce(Concat(lines))
    ensures forall i :: 0 <= i < |lines| ==> WellFormed(lines[i]) && SimpleOnce(lines[i])
  {
    hide WellFormed, SimpleOnce;
    if lines != [] {
      var n := |lines| - 1;
      WellFormedParts(Concat(lines[..n]), lines[n]);
      SimpleOnceParts(Concat(lines[..n]), lines[n]);
      PartsGood(lines[..n]);
    }
  }

  lemma PackedLinesGood(head: nat, items: seq<Item>)
    requires WellFormed(items) && SimpleOnce(items)
    ensures GoodLines(Lines(head, items)) && Concat(Lines(head, items)) == items
  {
    LinesConcat(head, items);
    SixParameters(head, items);
    PartsGood(Lines(head, items));
  }

  ghost predicate NoneCut(h: Header, lines: seq<seq<Item>>) {
    forall i :: 0 <= i < |lines| ==> |Text(h, lines[i])| <= LINE_MAX
  }

  lemma {:induction false} LinesObeyed(env: Env, src: Source, chan: Channel, h: Header, lines: seq<seq<Item>>)
    requires h.Ok() && GoodLines(lines) && NoneCut(h, lines)
    ensures DeliverAll(env, src, chan, Texts(h, lines)) == ApplyAll(env, src, chan, ReadAll(lines))
  {
    hide Deliver, Apply, ApplyAll, GoodLines, NoneCut, WellFormed, SimpleOnce, Args, AsRead, Text, Cut;
    if lines == [] {
      NothingApplied(env, src, chan);
    } else {
      var n := |lines| - 1;
      GoodPrefix(lines, n);
      CutPrefix(h, lines, n);
      LinesObeyed(env, src, chan, h, lines[..n]);
      assert Texts(h, lines)[..n] == Texts(h, lines[..n]);
      LineObeyed(env, src, DeliverAll(env, src, chan, Texts(h, lines[..n])), h, lines[n]);
      ApplyAppend(env, src, chan, ReadAll(lines[..n]), AsRead(lines[n]));
    }
  }

  lemma NothingApplied(env: Env, src: Source, chan: Channel)
    ensures ApplyAll(env, src, chan, []) == chan
  {
  }

  lemma CutPrefix(h: Header, lines: seq<seq<Item>>, n: nat)
    requires NoneCut(h, lines) && n < |lines|
    ensures NoneCut(h, lines[..n]) && |Text(h, lines[n])| <= LINE_MAX
  {
  }

  lemma GoodPrefix(lines: seq<seq<Item>>, n: nat)
    requires GoodLines(lines) && n < |lines|
    ensures GoodLines(lines[..n])
    ensures lines[n] != [] && WellFormed(lines[n]) && SimpleOnce(lines[n]) && |Args(lines[n])| <= MAXMODEPARAMS
  {
  }

  // ---------------------------------------------------------------- entries logged under "="

  function Queried(items: seq<Item>, read: seq<Item>, dir: Dir): set<char>
    requires |items| == |read|
  {
    set i | 0 <= i < |items| && items[i].dir.Query? && read[i].dir == dir :: items[i].letter
  }

  function Patched(modes: set<char>, items: seq<Item>, read: seq<Item>): set<char>
    requires |items| == |read|
  {
    modes + Queried(items, read, Add) - Queried(items, read, Del)
  }

  lemma ApplyKeepsModes(env: Env, src: Source, chan: Channel, modes: set<char>, it: Item)
    requires !IsSimple(it.letter)
    ensures Apply(env, src, chan, it).modes == chan.modes
    ensures Apply(env, src, chan.(modes := modes), it) == Apply(env, src, chan, it).(modes := modes)
  {
    var info := ModeOf(it.letter);
    if info.None? {
    } else if info.value.kind.Mask? {
      MaskKeepsModes(env, src, chan, modes, it);
    } else if info.value.kind.Flag? {
    } else if info.value.kind.Key? {
    } else {
    }
  }

  lemma MaskKeepsModes(env: Env, src: Source, chan: Channel, modes: set<char>, it: Item)
    requires ModeOf(it.letter).Some? && ModeOf(it.letter).value.kind.Mask?
    ensures Apply(env, src, chan, it).modes == chan.modes
    ensures Apply(env, src, chan.(modes := modes), it) == Apply(env, src, chan, it).(modes := modes)
  {
    assert chan.(modes := modes).Masks(it.letter) == chan.Masks(it.letter);
  }

  /** Reading the lines does what the log says, except that a queried mode is set or cleared. */
  lemma {:induction false} ReadEffect(env: Env, src: Source, chan: Channel, items: seq<Item>, read: seq<Item>)
    requires AllSendable(src, items) && SimpleOnce(items) && ReadsAs(items, read)
    ensures var c := ApplyAll(env, src, chan, items);
      ApplyAll(env, src, chan, read) == c.(modes := Patched(c.modes, items, read))
  {
    if items == [] {
      assert Patched(chan.modes, items, read) == chan.modes;
    } else {
      var n := |items| - 1;
      ReadEffect(env, src, chan, items[..n], read[..n]);
      var c := ApplyAll(env, src, chan, items[..n]);
      var d := c.(modes := Patched(c.modes, items[..n], read[..n]));
      LastReadEffect(env, src, c, d, items, read);
    }
  }

  lemma LastReadEffect(env: Env, src: Source, c: Channel, d: Channel, items: seq<Item>, read: seq<Item>)
    requires AllSendable(src, items) && SimpleOnce(items) && ReadsAs(items, read) && items != []
    requires var n := |items| - 1; d == c.(modes := Patched(c.modes, items[..n], read[..n]))
    ensures var n := |items| - 1; var c' := Apply(env, src, c, items[n]);
      Apply(env, src, d, read[n]) == c'.(modes := Patched(c'.modes, items, read))
  {
    hide Apply;
    var n := |items| - 1;
    var it, rd := items[n], read[n];
    assert Sendable(src, it) && Sendable(src, rd);
    QueriedSnoc(items, read, Add);
    QueriedSnoc(items, read, Del);
    if IsSimple(it.letter) {
      assert it.letter !in Queried(items[..n], read[..n], Add);
      assert it.letter !in Queried(items[..n], read[..n], Del);
      ApplySimple(env, src, c, it);
      ApplySimple(env, src, d, rd);
    } else {
      assert !it.dir.Query? && rd == it;
      ApplyKeepsModes(env, src, c, d.modes, it);
    }
  }

  lemma QueriedSnoc(items: seq<Item>, read: seq<Item>, dir: Dir)
    requires |items| == |read| && items != []
    ensures var n := |items| - 1;
      Queried(items, read, dir) == Queried(items[..n], read[..n], dir) +
        (if items[n].dir.Query? && read[n].dir == dir then {items[n].letter} else {})
  {
    var n := |items| - 1;
    var q := Queried(items[..n], read[..n], dir);
    forall c | c in Queried(items, read, dir)
      ensures c in q || (items[n].dir.Query? && read[n].dir == dir && c == items[n].letter)
    {
      var i :| 0 <= i < |items| && items[i].dir.Query? && read[i].dir == dir && items[i].letter == c;
      if i < n { assert items[..n][i] == items[i] && read[..n][i] == read[i]; }
    }
    forall c | c in q
      ensures c in Queried(items, read, dir)
    {
      var i :| 0 <= i < n && items[..n][i].dir.Query? && read[..n][i].dir == dir && items[..n][i].letter == c;
      assert items[i] == items[..n][i] && read[i] == read[..n][i];
    }
  }

  // ---------------------------------------------------------------- the theorems

  /** An entry logged under "=" happens to be printed with the sign the mode already has. */
  ghost predicate QueriesAgree(chan: Channel, items: seq<Item>, read: seq<Item>) {
    forall i :: 0 <= i < |items| && i < |read| && items[i].dir.Query? ==>
      (read[i].dir.Add? <==> items[i].letter in chan.modes)
  }

  /** What a peer ends with after a run on the sender. */
  function Replica(env: Env, peer: Env, src: Source, member: Option<set<char>>, chan: Channel,
                   parv: seq<string>, h: Header): Channel
    requires parv != []
  {
    var e := ModeSet(env, src, member, chan, parv);
    DeliverAll(peer, src, chan, Texts(h, Lines(|h.Text()|, Live(e.log))))
  }

  ghost predicate Preconditions(env: Env, peer: Env, src: Source, chan: Channel, parv: seq<string>, h: Header) {
    h.Ok() && parv != [] && EnvOk(env, peer) && OnlyLastSpaced(parv) && Printable(peer, chan)
  }

  lemma RunLog(env: Env, peer: Env, src: Source, member: Option<set<char>>, chan: Channel, parv: seq<string>)
    requires parv != [] && EnvOk(env, peer) && OnlyLastSpaced(parv) && Printable(peer, chan)
    requires SpaceFree(ModeSet(env, src, member, chan, parv).chan)
    ensures var x := Context(env, src, Access(src, member), parv);
      InSync(peer, x, chan, ModeSet(env, src, member, chan, parv))
  {
    var x := Context(env, src, Access(src, member), parv);
    RunInSync(peer, x, chan, parv[0], Add, Fresh(chan));
  }

  lemma PrintableSpaceFree(peer: Env, chan: Channel)
    requires Printable(peer, chan)
    ensures SpaceFree(chan)
  {
    forall list, i | list in {chan.bans, chan.excepts, chan.invexes} && 0 <= i < |list| ensures ' ' !in list[i] {
      assert WireMask(list[i]);
    }
  }

  /** Whatever is sent, a peer gets no mask with a space. */
  lemma {:induction false} PeerSpaceFree(peer: Env, src: Source, chan: Channel, texts: seq<string>)
    requires SpaceFree(chan)
    ensures SpaceFree(DeliverAll(peer, src, chan, texts))
  {
    hide ModeSet, MessageParameters, SpaceFree;
    if texts != [] {
      var before := DeliverAll(peer, src, chan, texts[..|texts| - 1]);
      PeerSpaceFree(peer, src, chan, texts[..|texts| - 1]);
      LineSpaceFree(peer, src, before, MessageParameters(texts[|texts| - 1]));
    }
  }

  lemma LineSpaceFree(peer: Env, src: Source, chan: Channel, p: seq<string>)
    requires SpaceFree(chan)
    ensures |p| >= 3 ==> SpaceFree(ModeSet(peer, src.Remotely(), None, chan, p[2..]).chan)
  {
    if |p| >= 3 {
      var parv := p[2..];
      RemoteAddsNoSpaces(Context(peer, src.Remotely(), Access(src.Remotely(), None), parv), parv[0], Add, Fresh(chan));
    }
  }

  /** When no line is cut, the peer's channel is the sender's if and only if the change brings no mask with a space and
      every entry logged under "=" is printed with the sign the mode already has. */
  lemma ReplicationExact(env: Env, peer: Env, src: Source, member: Option<set<char>>, chan: Channel,
                         parv: seq<string>, h: Header)
    requires Preconditions(env, peer, src, chan, parv, h)
    requires NoneCut(h, Lines(|h.Text()|, Live(ModeSet(env, src, member, chan, parv).log)))
    ensures var e := ModeSet(env, src, member, chan, parv);
      var items := Live(e.log);
      var read := ReadAll(Lines(|h.Text()|, items));
      (!BringsSpaces(env, src, parv) ==> ReadsAs(items, read)) &&
      (Replica(env, peer, src, member, chan, parv, h) == e.chan <==>
        !BringsSpaces(env, src, parv) && QueriesAgree(e.chan, items, read))
  {
    hide SpaceFree, Printable, Run, BringsSpaces;
    var e := ModeSet(env, src, member, chan, parv);
    PrintableSpaceFree(peer, chan);
    SpaceFreeIff(env, peer, src, member, chan, parv);
    if SpaceFree(e.chan) {
      RunLog(env, peer, src, member, chan, parv);
      SyncedExact(peer, src, chan, Context(env, src, Access(src, member), parv), e, h);
    } else {
      PeerSpaceFree(peer, src, chan, Texts(h, Lines(|h.Text()|, Live(e.log))));
    }
  }

  lemma SyncedExact(peer: Env, src: Source, chan: Channel, x: Context, e: Engine, h: Header)
    requires x.src == src && InSync(peer, x, chan, e) && h.Ok() && NoneCut(h, Lines(|h.Text()|, Live(e.log)))
    ensures var items := Live(e.log);
      var read := ReadAll(Lines(|h.Text()|, items));
      ReadsAs(items, read) &&
      (DeliverAll(peer, src, chan, Texts(h, Lines(|h.Text()|, items))) == e.chan <==> QueriesAgree(e.chan, items, read))
  {
    var items := Live(e.log);
    assert WellFormed(items) by {
      assert forall i :: 0 <= i < |items| ==> Sendable(src, items[i]);
    }
    var lines := Lines(|h.Text()|, items);
    PackedLinesGood(|h.Text()|, items);
    ReadAllReads(lines);
    LinesObeyed(peer, src, chan, h, lines);
    ReadEffect(peer, src, chan, items, ReadAll(lines));
    PatchedSame(e.chan, items, ReadAll(lines));
  }

  lemma PatchedSame(chan: Channel, items: seq<Item>, read: seq<Item>)
    requires ReadsAs(items, read) && SimpleOnce(items)
    requires WellFormed(items)
    ensures chan.(modes := Patched(chan.modes, items, read)) == chan <==> QueriesAgree(chan, items, read)
  {
    var p := Patched(chan.modes, items, read);
    forall i | 0 <= i < |items| && items[i].dir.Query?
      ensures items[i].letter in p <==> read[i].dir.Add?
    {
      assert IsSimple(items[i].letter);
      assert items[i].letter in Queried(items, read, read[i].dir);
      forall j | 0 <= j < |items| && items[j].letter == items[i].letter
        ensures j == i
      {
        assert IsSimple(items[j].letter);
      }
    }
    if QueriesAgree(chan, items, read) {
      forall c
        ensures c in p <==> c in chan.modes
      {
      }
      assert p == chan.modes;
    }
  }

  // ---------------------------------------------------------------- no "=" in the mode string

  ghost predicate NoQuery(log: seq<Change>) {
    forall i :: 0 <= i < |log| ==> !log[i].dir.Query?
  }

  lemma StepNoQuery(x: Context, dir: Dir, c: char, e: Engine)
    requires !dir.Query? && NoQuery(e.log)
    ensures NoQuery(Step(x, dir, c, e).log)
  {
    hide Step;
    StepShape(x, dir, c, e);
    var log := Step(x, dir, c, e).log;
    forall i | 0 <= i < |e.log|
      ensures !log[i].dir.Query?
    {
      assert log[i] == log[..|e.log|][i];
    }
  }

  lemma {:induction false} RunNoQuery(x: Context, ml: string, dir: Dir, e: Engine)
    requires '=' !in ml && !dir.Query? && NoQuery(e.log)
    ensures NoQuery(Run(x, ml, dir, e).log)
  {
    hide Step;
    if ml != "" {
      assert ml[0] != '=';
      if IsTurn(ml[0]) {
        RunNoQuery(x, ml[1..], Turn(ml[0], dir), e);
      } else {
        StepNoQuery(x, dir, ml[0], e);
        RunNoQuery(x, ml[1..], dir, Step(x, dir, ml[0], e));
      }
    }
  }

  lemma {:induction false} LiveNoQuery(log: seq<Change>)
    requires NoQuery(log)
    ensures forall i :: 0 <= i < |Live(log)| ==> !Live(log)[i].dir.Query?
  {
    if log != [] { LiveNoQuery(log[..|log| - 1]); }
  }

  /** Replication: for a mode string without "=" whose lines are not cut, the peer's channel is the sender's if and only
      if the change brings no mask with a space. */
  lemma ReplicationHolds(env: Env, peer: Env, src: Source, member: Option<set<char>>, chan: Channel,
                         parv: seq<string>, h: Header)
    requires Preconditions(env, peer, src, chan, parv, h)
    requires '=' !in parv[0]
    requires NoneCut(h, Lines(|h.Text()|, Live(ModeSet(env, src, member, chan, parv).log)))
    ensures Replica(env, peer, src, member, chan, parv, h) == ModeSet(env, src, member, chan, parv).chan <==>
      !BringsSpaces(env, src, parv)
  {
    hide Run, BringsSpaces, Lines, Texts;
    ReplicationExact(env, peer, src, member, chan, parv, h);
    RunNoQuery(Context(env, src, Access(src, member), parv), parv[0], Add, Fresh(chan));
    LiveNoQuery(ModeSet(env, src, member, chan, parv).log);
  }

  /** So it always is for a user, and for a server that is not directly connected. */
  lemma OthersReplicate(env: Env, peer: Env, src: Source, member: Option<set<char>>, chan: Channel,
                        parv: seq<string>, h: Header)
    requires Preconditions(env, peer, src, chan, parv, h)
    requires '=' !in parv[0] && !(src.local && src.server)
    requires NoneCut(h, Lines(|h.Text()|, Live(ModeSet(env, src, member, chan, parv).log)))
    ensures Replica(env, peer, src, member, chan, parv, h) == ModeSet(env, src, member, chan, parv).chan
  {
    hide ModeSet, Replica, Lines, Preconditions;
    ReplicationHolds(env, peer, src, member, chan, parv, h);
  }

  // ---------------------------------------------------------------- when no line is cut

  /** What the changes can take up in a line, with signs and separators. */
  function Size(items: seq<Item>): nat {
    if items == [] then 0 else Size(items[..|items| - 1]) + 3 + ArgLength(items[|items| - 1])
  }

  lemma {:induction false} BodySize(items: seq<Item>)
    ensures |Letters(items)| + |Join(Args(items))| <= Size(items)
  {
    if items != [] {
      var init, last := items[..|items| - 1], items[|items| - 1];
      BodySize(init);
      assert items == init + [last];
      ItemSnoc(init, last);
      JoinSnoc(Args(init), ArgOf(last));
    }
  }

  lemma {:induction false} SizeAppend(a: seq<Item>, b: seq<Item>)
    ensures Size(a + b) == Size(a) + Size(b)
  {
    if b == [] {
      assert a + b == a;
    } else {
      SizeAppend(a, b[..|b| - 1]);
      assert (a + b)[..|a + b| - 1] == a + b[..|b| - 1];
    }
  }

  lemma {:induction false} LineSize(lines: seq<seq<Item>>, i: nat)
    requires i < |lines|
    ensures Size(lines[i]) <= Size(Concat(lines))
  {
    var n := |lines| - 1;
    SizeAppend(Concat(lines[..n]), lines[n]);
    if i < n { LineSize(lines[..n], i); }
  }

  /** No line is cut if all the changes together would fit into one. */
  lemma ShortNotCut(h: Header, items: seq<Item>)
    requires |h.Text()| + Size(items) < LINE_MAX
    ensures NoneCut(h, Lines(|h.Text()|, items))
  {
    var lines := Lines(|h.Text()|, items);
    LinesConcat(|h.Text()|, items);
    forall i | 0 <= i < |lines| ensures |Text(h, lines[i])| <= LINE_MAX {
      LineSize(lines, i);
      BodySize(lines[i]);
    }
  }
}
