// Where replication ends: changes asked for with "=", and lines longer than what is sent of them.
module ReplicationLimits {
  import opened Strings
  import opened ModeSpec
  import opened ModeLines
  import opened ModeReplay
  import opened ModeWire
  import opened SpacedMasks
  import opened Replication

  // ---------------------------------------------------------------- "="

  lemma OneLine(head: nat, it: Item)
    requires ArgLength(it) + head + 2 <= IRCD_BUFSIZE
    ensures Lines(head, [it]) == [[it]]
  {
    hide MustFlush;
    assert [] + [it] == [it];
    PackItemsSnoc(head, [], it);
    assert PackItems(head, [it]) == Packing([], [it]);
  }

  /** A single "=" with a simple mode is printed without a sign and read as setting the mode: the peer agrees if
      and only if the mode was set. In particular "=m" sets +m on every peer of a channel without it. */
  lemma SingleQuery(env: Env, peer: Env, src: Source, member: Option<set<char>>, chan: Channel, c: char, h: Header)
    requires Preconditions(env, peer, src, chan, ["=" + [c]], h) && IsSimple(c) && |h.Text()| <= 500
    requires ModeSet(env, src, member, chan, ["=" + [c]]).log != []
    ensures ModeSet(env, src, member, chan, ["=" + [c]]).chan == chan
    ensures Replica(env, peer, src, member, chan, ["=" + [c]], h) == chan <==> c in chan.modes
  {
    hide Run, Step, Lines, ReadAll, DeliverAll, Texts, Live, Text, ReadsAs, Access, BringsSpaces;
    var parv := ["=" + [c]];
    var it := Item(c, Query, None);
    QueryRun(env, src, member, chan, c);
    OneLine(|h.Text()|, it);
    SingleText(h, it);
    ReplicationExact(env, peer, src, member, chan, parv, h);
    PrintableSpaceFree(peer, chan);
    SpaceFreeIff(env, peer, src, member, chan, parv);
    var read := ReadAll([[it]]);
    SingleRead(it);
    assert [it][0] == it && read == [Item(c, Add, None)];
    assert read[0].dir.Add?;
  }

  lemma QueryRun(env: Env, src: Source, member: Option<set<char>>, chan: Channel, c: char)
    requires IsSimple(c) && ModeSet(env, src, member, chan, ["=" + [c]]).log != []
    ensures var e := ModeSet(env, src, member, chan, ["=" + [c]]);
      e.chan == chan && e.log == [Change(c, None, None, Query, false)] && Live(e.log) == [Item(c, Query, None)]
  {
    hide Access, Step, Run, Live, IsSimple;
    var x := Context(env, src, Access(src, member), ["=" + [c]]);
    RunQuery(x, c, Fresh(chan));
    SimpleQuery(x, c, chan);
    LiveQuery(c);
  }

  lemma RunQuery(x: Context, c: char, e: Engine)
    requires IsSimple(c)
    ensures Run(x, "=" + [c], Add, e) == Step(x, Query, c, e)
  {
    hide Step;
    var ml := "=" + [c];
    assert ml[1..] == [c] && [c][1..] == "";
    assert Run(x, ml, Add, e) == Run(x, [c], Query, e);
    assert !IsTurn(c);
    assert Run(x, [c], Query, e) == Run(x, "", Query, Step(x, Query, c, e));
  }

  lemma LiveQuery(c: char)
    requires IsSimple(c)
    ensures Live([Change(c, None, None, Query, false)]) == [Item(c, Query, None)]
  {
    var log := [Change(c, None, None, Query, false)];
    assert log[..0] == [] && Live([]) == [] && c != CANCELLED;
  }

  lemma SimpleQuery(x: Context, c: char, chan: Channel)
    requires IsSimple(c)
    ensures var e := Step(x, Query, c, Fresh(chan));
      e.chan == chan && (e.log == [] || e.log == [Change(c, None, None, Query, false)])
  {
    var log := [Change(c, None, None, Query, false)];
    assert [] + log == log;
  }

  lemma SingleText(h: Header, it: Item)
    requires it == Item(it.letter, Query, None)
    ensures |Text(h, [it])| == |h.Text()| + 2
  {
    assert [it][..0] == [];
    assert Letters([it]) == "" + "" + [it.letter];
    assert Args([it]) == [] && Join([]) == "";
  }

  lemma SingleRead(it: Item)
    requires it == Item(it.letter, Query, None)
    ensures ReadAll([[it]]) == [it.(dir := Add)]
  {
    assert [it][..0] == [] && [[it]][..0] == [];
    assert LastDir([]) == Query && ReadDir([]) == Add && ReadDir([it]) == Add;
    assert AsRead([it]) == AsRead([]) + [it.(dir := Add)];
    assert ReadAll([[it]]) == ReadAll([]) + AsRead([it]);
  }

  // ---------------------------------------------------------------- lines that are cut

  function Before(h: Header, init: seq<Item>, c: char, dir: Dir): string {
    h.Text() + Letters(init) + Sign(LastDir(init), dir) + [c] + " " +
    if Join(Args(init)) == "" then "" else Join(Args(init)) + " "
  }

  lemma EndsWithArgument(h: Header, init: seq<Item>, c: char, dir: Dir, m: string)
    ensures Text(h, init + [Item(c, dir, Some(m))]) == Before(h, init, c, dir) + m
  {
    var it := Item(c, dir, Some(m));
    ItemSnoc(init, it);
    LastJoined(Args(init), m);
    hide Letters, Args, Join, Sign;
    Glue(h.Text(), Letters(init), Sign(LastDir(init), dir), [c], Join(Args(init)), m);
  }

  lemma LastJoined(args: seq<string>, m: string)
    ensures Join(args + [m]) == if Join(args) == "" then m else Join(args) + " " + m
  {
    assert (args + [m])[..|args|] == args;
  }

  lemma Glue(t: string, l: string, s: string, c: string, j: string, m: string)
    ensures t + ((l + s + c) + " " + (if j == "" then m else j + " " + m)) ==
            t + l + s + c + " " + (if j == "" then "" else j + " ") + m
  {
    if j == "" {
      assert t + ((l + s + c) + " " + m) == t + l + s + c + " " + "" + m;
    } else {
      assert t + ((l + s + c) + " " + (j + " " + m)) == t + l + s + c + " " + (j + " ") + m;
    }
  }

  /** A line that is cut inside its last parameter is the line with a shorter parameter. */
  lemma CutIsShorter(h: Header, init: seq<Item>, c: char, dir: Dir, m: string)
    requires var n := |Text(h, init + [Item(c, dir, Some(m))])|; LINE_MAX < n < LINE_MAX + |m|
    ensures var k := |m| - (|Text(h, init + [Item(c, dir, Some(m))])| - LINE_MAX);
      0 < k < |m| && Cut(Text(h, init + [Item(c, dir, Some(m))])) == Text(h, init + [Item(c, dir, Some(m[..k]))])
  {
    EndsWithArgument(h, init, c, dir, m);
    var k := |m| - (|Text(h, init + [Item(c, dir, Some(m))])| - LINE_MAX);
    EndsWithArgument(h, init, c, dir, m[..k]);
    assert (Before(h, init, c, dir) + m)[..LINE_MAX] == Before(h, init, c, dir) + m[..k];
  }

  lemma OneBan(env: Env, src: Source, chan: Channel, m: string)
    requires |m| <= BANSTRLEN
    ensures Apply(env, src, chan, Item('b', Add, Some(m))).bans in {chan.bans, [m] + chan.bans}
  {
    assert ([""] + ArgOf(Item('b', Add, Some(m))))[1] == m;
  }

  lemma ReadLast(init: seq<Item>, it: Item)
    requires WellFormed(init + [it]) && !it.dir.Query?
    ensures AsRead(init + [it]) == AsRead(init) + [it]
  {
    assert (init + [it])[..|init|] == init;
    AsReadReads(init + [it]);
    AsReadShape(init);
    assert AsRead(init + [it])[|init|] == it.(dir := AsRead(init + [it])[|init|].dir);
  }

  /** A line that adds a ban as its last change and is cut inside the ban leaves the peer with other bans than the
      whole line would have. */
  lemma CutBanDiverges(peer: Env, src: Source, chan: Channel, h: Header, init: seq<Item>, m: string)
    requires var line := init + [Item('b', Add, Some(m))];
      && h.Ok() && WellFormed(line) && |Args(line)| <= MAXMODEPARAMS && SimpleOnce(line)
      && LINE_MAX < |Text(h, line)| < LINE_MAX + |m| && |m| <= BANSTRLEN
      && ApplyAll(peer, src, chan, AsRead(line)).bans == [m] + ApplyAll(peer, src, chan, AsRead(init)).bans
    ensures var line := init + [Item('b', Add, Some(m))];
      Deliver(peer, src, chan, Cut(Text(h, line))).bans != ApplyAll(peer, src, chan, AsRead(line)).bans
  {
    hide Text, Letters, Args, Join, Apply, WellFormed, AsRead, Deliver, SimpleOnce;
    var line := init + [Item('b', Add, Some(m))];
    var k := |m| - (|Text(h, line)| - LINE_MAX);
    CutIsShorter(h, init, 'b', Add, m);
    var short := Item('b', Add, Some(m[..k]));
    ShorterLine(init, m, k);
    CutLength(Text(h, line));
    LineObeyed(peer, src, chan, h, init + [short]);
    ReadLast(init, short);
    var before := ApplyAll(peer, src, chan, AsRead(init));
    ApplySnoc(peer, src, chan, AsRead(init), short);
    OneBan(peer, src, before, m[..k]);
    assert ([m] + before.bans)[0] == m;
  }

  lemma CutLength(text: string)
    requires |text| > LINE_MAX
    ensures |Cut(text)| == LINE_MAX && Cut(Cut(text)) == Cut(text)
  {
  }

  lemma ShorterLine(init: seq<Item>, m: string, k: nat)
    requires 0 < k < |m| && WellFormed(init + [Item('b', Add, Some(m))]) && SimpleOnce(init + [Item('b', Add, Some(m))])
    ensures var s := init + [Item('b', Add, Some(m[..k]))];
      WellFormed(s) && SimpleOnce(s) && |Args(s)| == |Args(init + [Item('b', Add, Some(m))])|
  {
    var line, s := init + [Item('b', Add, Some(m))], init + [Item('b', Add, Some(m[..k]))];
    ItemSnoc(init, Item('b', Add, Some(m)));
    ItemSnoc(init, Item('b', Add, Some(m[..k])));
    assert WellFormedItem(line[|init|]);
    assert Word(m[..k]);
    forall i | 0 <= i < |s| ensures WellFormedItem(s[i]) {
      if i < |init| { assert s[i] == line[i]; }
    }
    forall i, j | 0 <= i < j < |s| && IsSimple(s[i].letter) ensures s[i].letter != s[j].letter {
      assert s[i].letter == line[i].letter && s[j].letter == line[j].letter;
    }
  }

  // ---------------------------------------------------------------- such runs happen

  /** A server that knows nobody and takes every mask that is not empty. */
  function PlainEnv(): Env {
    Env(s => None, id => "", (c, m) => None, m => m == "", 100, 100)
  }

  function NewChannel(): Channel {
    Channel({}, "", 0, map[], [], [], [])
  }

  /** A ban by anyone who is not a local user. */
  lemma OneBanStep(x: Context, e: Engine, m: string)
    requires !x.src.MyClient() && x.access == REMOTE && e.parn < |x.parv| && x.parv[e.parn] == m
    requires m != "" && m[0] != ':' && (' ' !in m || x.src.local) && |m| <= BANSTRLEN
    requires !x.env.emptyMask(m) && forall i :: 0 <= i < |e.chan.bans| ==> !SameFolded(m, e.chan.bans[i])
    requires 'u' !in e.chan.modes
    ensures Step(x, Add, 'b', e) ==
      e.(parn := e.parn + 1, chan := e.chan.(bans := [m] + e.chan.bans),
         log := e.log + [Change('b', Some(m), None, Add, false)])
  {
  }

  /** A directly connected server may add a mask with a space, which its peers read as something else. */
  lemma SpacedBanDiverges(h: Header)
    requires h.Ok() && |h.Text()| <= 500
    ensures var src := Source(true, true, false, false);
      var e := ModeSet(PlainEnv(), src, None, NewChannel(), ["+b", "a b"]);
      e.chan.bans == ["a b"] &&
      Preconditions(PlainEnv(), PlainEnv(), src, NewChannel(), ["+b", "a b"], h) &&
      Replica(PlainEnv(), PlainEnv(), src, None, NewChannel(), ["+b", "a b"], h) != e.chan
  {
    hide Run, Preconditions, Lines, Texts, Live, DeliverAll;
    var src, parv, m := Source(true, true, false, false), ["+b", "a b"], "a b";
    var e := ModeSet(PlainEnv(), src, None, NewChannel(), parv);
    PlainPreconditions(src, parv, h);
    OneBanRun(Context(PlainEnv(), src, REMOTE, parv), m);
    assert m[1] == ' ' && e.chan.bans[0] == m;
    PeerSpaceFree(PlainEnv(), src, NewChannel(), Texts(h, Lines(|h.Text()|, Live(e.log))));
  }

  lemma PlainPreconditions(src: Source, parv: seq<string>, h: Header)
    requires h.Ok() && parv != [] && OnlyLastSpaced(parv)
    ensures Preconditions(PlainEnv(), PlainEnv(), src, NewChannel(), parv, h)
  {
  }

  lemma OneBanRun(x: Context, m: string)
    requires !x.src.MyClient() && x.access == REMOTE && x.parv == ["+b", m] && x.env == PlainEnv()
    requires m != "" && m[0] != ':' && (' ' !in m || x.src.local) && |m| <= BANSTRLEN
    ensures var e := Run(x, "+b", Add, Fresh(NewChannel()));
      e.chan == NewChannel().(bans := [m]) && e.log == [Change('b', Some(m), None, Add, false)]
  {
    hide Step;
    var e := Fresh(NewChannel());
    OneBanStep(x, e, m);
    assert "+b"[1..] == "b" && "b"[1..] == "";
    assert Run(x, "b", Add, e) == Run(x, "", Add, Step(x, Add, 'b', e));
  }

  // ---------------------------------------------------------------- three long bans

  /** A mask as it can be sent: octets of one kind. */
  predicate LongMask(m: string, c: char) {
    m != "" && |m| <= BANSTRLEN && (forall i :: 0 <= i < |m| ==> m[i] == c) && c in "abc"
  }

  lemma DifferentMasks(m: string, c: char, k: string, d: char)
    requires LongMask(m, c) && LongMask(k, d) && c != d
    ensures !SameFolded(m, k) && Word(m)
  {
    assert m[0] == c && k[0] == d;
  }

  /** What such a ban does on a peer. */
  lemma AddsBan(src: Source, chan: Channel, m: string)
    requires Word(m) && |m| <= BANSTRLEN && chan.modes == {}
    requires forall i :: 0 <= i < |chan.bans| ==> !SameFolded(m, chan.bans[i])
    ensures Apply(PlainEnv(), src, chan, Ban(m)) == chan.(bans := [m] + chan.bans)
  {
    var x := Context(PlainEnv(), src.Remotely(), REMOTE, [""] + ArgOf(Ban(m)));
    assert x.parv[1] == m;
    OneBanStep(x, Fresh(chan), m);
  }

  lemma ThreeAdded(src: Source, a: string, b: string, c: string)
    requires LongMask(a, 'a') && LongMask(b, 'b') && LongMask(c, 'c')
    ensures ApplyAll(PlainEnv(), src, NewChannel(), [Ban(a), Ban(b)]).bans == [b, a]
    ensures ApplyAll(PlainEnv(), src, NewChannel(), [Ban(a), Ban(b), Ban(c)]) == NewChannel().(bans := [c, b, a])
  {
    hide Apply, SameFolded;
    DifferentMasks(a, 'a', b, 'b');
    DifferentMasks(b, 'b', a, 'a');
    DifferentMasks(c, 'c', a, 'a');
    DifferentMasks(c, 'c', b, 'b');
    var one, two := NewChannel().(bans := [a]), NewChannel().(bans := [b, a]);
    assert [a] + [] == [a] && [b] + [a] == [b, a] && [c] + [b, a] == [c, b, a];
    AddsBan(src, NewChannel(), a);
    AddsBan(src, one, b);
    AddsBan(src, two, c);
    ApplySnoc(PlainEnv(), src, NewChannel(), [], Ban(a));
    ApplySnoc(PlainEnv(), src, NewChannel(), [Ban(a)], Ban(b));
    ApplySnoc(PlainEnv(), src, NewChannel(), [Ban(a), Ban(b)], Ban(c));
    assert [] + [Ban(a)] == [Ban(a)] && [Ban(a)] + [Ban(b)] == [Ban(a), Ban(b)];
    assert [Ban(a), Ban(b)] + [Ban(c)] == [Ban(a), Ban(b), Ban(c)];
  }

  /** The run on the sender. */
  lemma ThreeBanRun(x: Context, a: string, b: string, c: string)
    requires !x.src.MyClient() && x.access == REMOTE && x.parv == ["+bbb", a, b, c] && x.env == PlainEnv()
    requires LongMask(a, 'a') && LongMask(b, 'b') && LongMask(c, 'c')
    ensures var e := Run(x, "+bbb", Add, Fresh(NewChannel()));
      e.chan == NewChannel().(bans := [c, b, a]) && Live(e.log) == [Ban(a), Ban(b), Ban(c)]
  {
    hide Step, SameFolded, Live, Run;
    DifferentMasks(a, 'a', b, 'b');
    DifferentMasks(b, 'b', a, 'a');
    DifferentMasks(c, 'c', a, 'a');
    DifferentMasks(c, 'c', b, 'b');
    var e0 := Fresh(NewChannel());
    var e1 := e0.(parn := 2, chan := NewChannel().(bans := [a]), log := [Added(a)]);
    var e2 := e0.(parn := 3, chan := NewChannel().(bans := [b, a]), log := [Added(a), Added(b)]);
    assert [a] + [] == [a] && [b] + [a] == [b, a] && [c] + [b, a] == [c, b, a];
    assert [] + [Added(a)] == [Added(a)] && [Added(a)] + [Added(b)] == [Added(a), Added(b)];
    assert [Added(a), Added(b)] + [Added(c)] == [Added(a), Added(b), Added(c)];
    OneBanStep(x, e0, a);
    OneBanStep(x, e1, b);
    OneBanStep(x, e2, c);
    ThreeLive(Added(a), Added(b), Added(c));
    RunThree(x, e0, e1, e2);
  }

  function Added(m: string): Change { Change('b', Some(m), None, Add, false) }

  lemma RunThree(x: Context, e0: Engine, e1: Engine, e2: Engine)
    requires Step(x, Add, 'b', e0) == e1 && Step(x, Add, 'b', e1) == e2
    ensures Run(x, "+bbb", Add, e0) == Step(x, Add, 'b', e2)
  {
    hide Step;
    assert "+bbb"[1..] == "bbb" && "bbb"[1..] == "bb" && "bb"[1..] == "b" && "b"[1..] == "";
    assert Run(x, "bbb", Add, e0) == Run(x, "bb", Add, e1);
    assert Run(x, "bb", Add, e1) == Run(x, "b", Add, e2);
    assert Run(x, "b", Add, e2) == Run(x, "", Add, Step(x, Add, 'b', e2));
  }

  lemma ThreeLive(p: Change, q: Change, r: Change)
    requires p.letter == q.letter == r.letter == 'b'
    ensures Live([p, q, r]) == [ServerItem(p), ServerItem(q), ServerItem(r)]
  {
    assert [] + [p] == [p] && [p] + [q] == [p, q] && [p, q] + [r] == [p, q, r];
    assert Live([]) == [];
    hide Live, ServerItem;
    LiveSnoc([], p);
    LiveSnoc([p], q);
    LiveSnoc([p, q], r);
  }

  lemma ThreeRead(a: string, b: string, c: string)
    requires Word(a) && Word(b) && Word(c)
    ensures WellFormed([Ban(a), Ban(b), Ban(c)]) && SimpleOnce([Ban(a), Ban(b), Ban(c)])
    ensures AsRead([Ban(a), Ban(b)]) == [Ban(a), Ban(b)]
    ensures AsRead([Ban(a), Ban(b), Ban(c)]) == [Ban(a), Ban(b), Ban(c)]
  {
    var x, y, z := Ban(a), Ban(b), Ban(c);
    assert [] + [x] == [x] && [x] + [y] == [x, y] && [x, y] + [z] == [x, y, z];
    AllBans([x]);
    AllBans([x, y]);
    AllBans([x, y, z]);
    hide AsRead, WellFormed, SimpleOnce;
    ReadLast([], x);
    ReadLast([x], y);
    ReadLast([x, y], z);
    NothingRead();
  }

  lemma NothingRead()
    ensures AsRead([]) == []
  {
  }

  lemma AllBans(items: seq<Item>)
    requires forall i :: 0 <= i < |items| ==> items[i].arg.Some? && items[i] == Ban(items[i].arg.value)
    requires forall i :: 0 <= i < |items| ==> Word(items[i].arg.value)
    ensures WellFormed(items) && SimpleOnce(items)
  {
    assert !IsSimple('b') && WantsArg('b', Add);
  }

  const LONGEST := Header(Fill('0', 9), Fill('1', 10), Fill('#', 50))

  lemma LongestHeader()
    ensures LONGEST.Ok() && |LONGEST.Text()| == 79
  {
  }

  /** A remote user adds three bans with a MODE that fits into a message. The line that replicates them has a
      longer header, loses the end of the last ban, and leaves the peers with another one. */
  lemma CutRunDiverges()
    ensures var a, b, c := Fill('a', 199), Fill('b', 199), Fill('c', 29);
      var src, parv := Source(false, false, false, false), ["+bbb", a, b, c];
      var e := ModeSet(PlainEnv(), src, None, NewChannel(), parv);
      && |":" + LONGEST.id + " MODE " + LONGEST.chan + " +bbb " + Join([a, b, c])| <= LINE_MAX
      && Preconditions(PlainEnv(), PlainEnv(), src, NewChannel(), parv, LONGEST)
      && e.chan.bans == [c, b, a]
      && Replica(PlainEnv(), PlainEnv(), src, None, NewChannel(), parv, LONGEST) != e.chan
  {
    var a, b, c := Fill('a', 199), Fill('b', 199), Fill('c', 29);
    var src, parv := Source(false, false, false, false), ["+bbb", a, b, c];
    LongestHeader();
    JoinThree(a, b, c);
    hide Run, Preconditions, Lines, Live, Join, DeliverAll, Texts;
    PlainPreconditions(src, parv, LONGEST);
    ThreeBanRun(Context(PlainEnv(), src, REMOTE, parv), a, b, c);
    ThreeBansCut(src, a, b, c);
  }

  lemma ThreeBansCut(src: Source, a: string, b: string, c: string)
    requires LongMask(a, 'a') && LongMask(b, 'b') && LongMask(c, 'c') && |a| == |b| == 199 && |c| == 29
    ensures var lines := Lines(|LONGEST.Text()|, [Ban(a), Ban(b), Ban(c)]);
      DeliverAll(PlainEnv(), src, NewChannel(), Texts(LONGEST, lines)) != NewChannel().(bans := [c, b, a])
  {
    hide Lines, Body, Args, AsRead, ApplyAll, Deliver, DeliverAll, Texts, WellFormed, SimpleOnce;
    var line, init := [Ban(a), Ban(b), Ban(c)], [Ban(a), Ban(b)];
    LongestHeader();
    ThreeItems(a, b, c, Add);
    ThreePacked(a, b, c, Add);
    DifferentMasks(a, 'a', b, 'b');
    DifferentMasks(b, 'b', c, 'c');
    DifferentMasks(c, 'c', a, 'a');
    ThreeRead(a, b, c);
    ThreeAdded(src, a, b, c);
    assert init + [Ban(c)] == line && [c] + [b, a] == [c, b, a];
    CutBanDiverges(PlainEnv(), src, NewChannel(), LONGEST, init, c);
    OneDelivered(PlainEnv(), src, NewChannel(), LONGEST, line);
  }

  lemma OneDelivered(peer: Env, src: Source, chan: Channel, h: Header, line: seq<Item>)
    ensures DeliverAll(peer, src, chan, Texts(h, [line])) == Deliver(peer, src, chan, Cut(Text(h, line)))
  {
    hide Deliver, Text, Cut;
    assert Texts(h, [line]) == [Cut(Text(h, line))];
    assert [Cut(Text(h, line))][..0] == [];
  }
}
