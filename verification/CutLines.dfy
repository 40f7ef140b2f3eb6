// What peers make of the printed lines when some of them are cut.
module CutLines {
  import opened Strings
  import opened ModeSpec
  import opened ModeLines
  import opened ModeReplay
  import opened ModeWire
  import opened SpacedMasks
  import opened Replication

  /** The changes read from what is received, in order. */
  function ReceivedAll(texts: seq<string>): seq<Item> {
    if texts == [] then [] else ReceivedAll(texts[..|texts| - 1]) + ReadLine(texts[|texts| - 1])
  }

  /** Whatever a line is, a peer does the changes it reads one after the other, if no simple mode comes twice. */
  lemma ReceivedObeyed(env: Env, src: Source, chan: Channel, text: string)
    requires SimpleOnce(ReadLine(text))
    ensures Deliver(env, src, chan, text) == ApplyAll(env, src, chan, ReadLine(text))
  {
    hide MessageParameters;
    var p := MessageParameters(text);
    if |p| >= 3 {
      var parv := p[2..];
      assert parv[1..] == p[3..];
      RunIsApplyAll(Context(env, src.Remotely(), REMOTE, parv), src, parv[0], Add, Fresh(chan));
    }
  }

  lemma {:induction false} AllReceivedObeyed(env: Env, src: Source, chan: Channel, texts: seq<string>)
    requires forall t :: t in texts ==> SimpleOnce(ReadLine(t))
    ensures DeliverAll(env, src, chan, texts) == ApplyAll(env, src, chan, ReceivedAll(texts))
  {
    hide Deliver, Apply, ReadLine, SimpleOnce;
    if texts != [] {
      var n := |texts| - 1;
      AllReceivedObeyed(env, src, chan, texts[..n]);
      ReceivedObeyed(env, src, DeliverAll(env, src, chan, texts[..n]), texts[n]);
      ApplyAppend(env, src, chan, ReceivedAll(texts[..n]), ReadLine(texts[n]));
    }
  }

  /** Fewer letters, whatever their parameters, give the first of the same changes. */
  lemma {:induction false} SameLetters(ml: string, k: nat, dir: Dir, a: seq<string>, b: seq<string>)
    requires k <= |ml|
    ensures var part, all := Decode(ml[..k], dir, a), Decode(ml, dir, b);
      |part| <= |all| && forall i :: 0 <= i < |part| ==> part[i].letter == all[i].letter
    decreases |ml|
  {
    hide WantsArg;
    if k > 0 {
      assert ml[..k][1..] == ml[1..][..k - 1];
      var dir' := Turn(ml[0], dir);
      var a' := if !IsTurn(ml[0]) && WantsArg(ml[0], dir) && a != [] then a[1..] else a;
      var b' := if !IsTurn(ml[0]) && WantsArg(ml[0], dir) && b != [] then b[1..] else b;
      SameLetters(ml[1..], k - 1, dir', a', b');
    }
  }

  lemma OnceInPart(part: seq<Item>, all: seq<Item>)
    requires SimpleOnce(all) && |part| <= |all|
    requires forall i :: 0 <= i < |part| ==> part[i].letter == all[i].letter
    ensures SimpleOnce(part)
  {
  }

  /** The letters and parameters found after a header. */
  lemma ReadAfterHeader(h: Header, ml: string, rest: string)
    requires h.Ok() && ' ' !in ml && ':' !in ml && (rest == "" || rest[0] == ' ')
    ensures ml == "" && rest == "" ==> ReadLine(h.Text() + (ml + rest)) == []
    ensures ml != "" ==>
      ReadLine(h.Text() + (ml + rest)) == Decode(ml, Add, Parameters(if rest == "" then "" else rest[1..], MAXPARA - 3))
  {
    hide Decode, MessageParameters;
    HeaderParsed(h, ml + rest);
    if ml != "" {
      LettersFound(ml, rest);
      var found := Parameters(if rest == "" then "" else rest[1..], MAXPARA - 3);
      assert ([h.ts, h.chan] + ([ml] + found))[3..] == found;
    }
  }

  lemma LettersFound(ml: string, rest: string)
    requires ' ' !in ml && ':' !in ml && ml != "" && (rest == "" || rest[0] == ' ')
    ensures Parameters(ml + rest, MAXPARA - 2) ==
      [ml] + Parameters(if rest == "" then "" else rest[1..], MAXPARA - 3)
  {
    if rest == "" {
      assert ml + rest == ml;
      FirstWordOf(ml, "");
      assert ml + "" == ml && ml[|ml|..] == "";
    } else {
      assert ml + rest == ml + " " + rest[1..];
      ParametersCons(ml, rest[1..], MAXPARA - 2);
    }
  }

  /** A line that is cut behind its header mentions no simple mode twice either. */
  lemma CutOnce(h: Header, line: seq<Item>)
    requires h.Ok() && WellFormed(line) && SimpleOnce(line) && |h.Text()| <= LINE_MAX && line != []
    ensures SimpleOnce(ReadLine(Cut(Text(h, line))))
  {
    hide Decode, Parameters, MessageParameters, Letters, Args, Join, WellFormed, ReadLine, SimpleOnce;
    var ml, para := Letters(line), Join(Args(line));
    LettersWord(line);
    DecodeLine(line);
    AsReadShape(line);
    var n := if |Text(h, line)| <= LINE_MAX then |Body(line)| else LINE_MAX - |h.Text()|;
    var k := if n <= |ml| then n else |ml|;
    var rest := if n <= |ml| then "" else " " + para[..n - |ml| - 1];
    CutBody(h, line, ml, para, n);
    ReadAfterHeader(h, ml[..k], rest);
    var found := Parameters(if rest == "" then "" else rest[1..], MAXPARA - 3);
    SameLetters(ml, k, Add, found, Args(line));
    OnceInPart(AsRead(line), line);
    OnceInPart(Decode(ml[..k], Add, found), AsRead(line));
    NothingOnce();
  }

  lemma NothingOnce()
    ensures SimpleOnce([])
  {
  }

  lemma CutBody(h: Header, line: seq<Item>, ml: string, para: string, n: nat)
    requires Body(line) == ml + " " + para && |h.Text()| <= LINE_MAX
    requires n == if |Text(h, line)| <= LINE_MAX then |Body(line)| else LINE_MAX - |h.Text()|
    ensures n <= |Body(line)|
    ensures Cut(Text(h, line)) ==
      h.Text() + if n <= |ml| then ml[..n] + "" else ml[..|ml|] + (" " + para[..n - |ml| - 1])
  {
    hide Letters, Args, Join, Body;
    assert Cut(Text(h, line)) == h.Text() + Body(line)[..n];
    if n <= |ml| {
      assert Body(line)[..n] == ml[..n] + "";
    } else {
      assert Body(line)[..n] == ml[..|ml|] + (" " + para[..n - |ml| - 1]);
    }
  }

  /** Without any assumption on the length of lines: a peer ends with what is read from the lines as they are sent. By
      LineSurvivesIffNotCut that is what was logged exactly for the lines that are not cut. */
  lemma ReplicationReceived(env: Env, peer: Env, src: Source, member: Option<set<char>>, chan: Channel,
                            parv: seq<string>, h: Header)
    requires Preconditions(env, peer, src, chan, parv, h) && |h.Text()| <= LINE_MAX && !BringsSpaces(env, src, parv)
    ensures var e := ModeSet(env, src, member, chan, parv);
      var texts := Texts(h, Lines(|h.Text()|, Live(e.log)));
      && Replica(env, peer, src, member, chan, parv, h) == ApplyAll(peer, src, chan, ReceivedAll(texts))
      && e.chan == ApplyAll(peer, src, chan, Live(e.log))
  {
    hide SpaceFree, Printable, Run, BringsSpaces;
    var e := ModeSet(env, src, member, chan, parv);
    PrintableSpaceFree(peer, chan);
    SpaceFreeIff(env, peer, src, member, chan, parv);
    RunLog(env, peer, src, member, chan, parv);
    SyncedOnce(peer, src, chan, Context(env, src, Access(src, member), parv), e, h);
    AllReceivedObeyed(peer, src, chan, Texts(h, Lines(|h.Text()|, Live(e.log))));
  }

  lemma SyncedOnce(peer: Env, src: Source, chan: Channel, x: Context, e: Engine, h: Header)
    requires x.src == src && InSync(peer, x, chan, e) && h.Ok() && |h.Text()| <= LINE_MAX
    ensures forall t :: t in Texts(h, Lines(|h.Text()|, Live(e.log))) ==> SimpleOnce(ReadLine(t))
  {
    hide ReadLine, Lines, Live, Cut, Text, SimpleOnce, Sendable;
    var items := Live(e.log);
    SendableWellFormed(src, items);
    var lines := Lines(|h.Text()|, items);
    PackedLinesGood(|h.Text()|, items);
    forall i | 0 <= i < |lines| ensures SimpleOnce(ReadLine(Cut(Text(h, lines[i])))) { CutOnce(h, lines[i]); }
  }

  lemma SendableWellFormed(src: Source, items: seq<Item>)
    requires AllSendable(src, items)
    ensures WellFormed(items)
  {
    assert forall i :: 0 <= i < |items| ==> Sendable(src, items[i]);
  }
}
