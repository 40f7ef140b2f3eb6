// TMODE lines between servers: how they are put on the wire, cut to size, parsed and obeyed.
module ModeWire {
  import opened Strings
  import opened ModeSpec
  import opened ModeLines
  import opened ModeReplay

  const MAXPARA := 15

  /** ":<id> TMODE <ts> <channel> " */
  datatype Header = Header(id: string, ts: string, chan: string) {
    predicate Ok() { Word(id) && Word(ts) && Word(chan) }

    function Text(): string { ":" + id + " TMODE " + ts + " " + chan + " " }
  }

  function Text(h: Header, line: seq<Item>): string { h.Text() + Body(line) }

  /** send_format: a longer line loses its end. */
  function Cut(text: string): string { Truncate(text, LINE_MAX) }

  /** The parameters of a line with a prefix and a command, as the message parser finds them. */
  function MessageParameters(text: string): seq<string> {
    var a := SkipSpaces(text);
    var b := if a != "" && a[0] == ':' then SkipSpaces(a[1..][|FirstWord(a[1..])|..]) else a;
    Parameters(b[|FirstWord(b)|..], MAXPARA)
  }

  /** A peer obeys a TMODE line with the timestamp of its own channel. */
  function Deliver(env: Env, src: Source, chan: Channel, text: string): Channel {
    var p := MessageParameters(text);
    if |p| < 3 then chan else ModeSet(env, src.Remotely(), None, chan, p[2..]).chan
  }

  function DeliverAll(env: Env, src: Source, chan: Channel, texts: seq<string>): Channel {
    if texts == [] then chan
    else Deliver(env, src, DeliverAll(env, src, chan, texts[..|texts| - 1]), texts[|texts| - 1])
  }

  function Texts(h: Header, lines: seq<seq<Item>>): seq<string> {
    seq(|lines|, i requires 0 <= i < |lines| => Cut(Text(h, lines[i])))
  }

  // ---------------------------------------------------------------- parsing what was printed

  lemma SkipWord(w: string, rest: string)
    requires ' ' !in w && w != ""
    ensures SkipSpaces(w + " " + rest) == w + " " + rest
    ensures FirstWord(w + " " + rest) == w
    ensures (w + " " + rest)[|w|..] == " " + rest
  {
    FirstWordOf(w, " " + rest);
    assert w + " " + rest == w + (" " + rest);
  }

  lemma ParametersSpace(rest: string, room: nat)
    ensures Parameters(" " + rest, room) == Parameters(rest, room)
  {
    SkipOne(rest);
  }

  lemma HeaderParsed(h: Header, rest: string)
    requires h.Ok()
    ensures MessageParameters(h.Text() + rest) == [h.ts, h.chan] + Parameters(rest, MAXPARA - 2)
  {
    hide Parameters;
    var r2 := h.chan + " " + rest;
    var r1 := h.ts + " " + r2;
    HeaderShape(h, rest);
    PrefixParsed(h.id, "TMODE", r1);
    ParametersCons(h.ts, r2, MAXPARA);
    ParametersCons(h.chan, rest, MAXPARA - 1);
  }

  lemma PrefixParsed(id: string, command: string, rest: string)
    requires Word(id) && Word(command)
    ensures MessageParameters(":" + (id + " " + (command + " " + rest))) == Parameters(rest, MAXPARA)
  {
    hide Parameters;
    var r0 := command + " " + rest;
    var text := ":" + (id + " " + r0);
    assert text[1..] == id + " " + r0;
    SkipWord(id, r0);
    SkipOne(r0);
    SkipWord(command, rest);
    ParametersSpace(rest, MAXPARA);
  }

  lemma HeaderShape(h: Header, rest: string)
    ensures h.Text() + rest == ":" + (h.id + " " + ("TMODE" + " " + (h.ts + " " + (h.chan + " " + rest))))
  {
    assert " TMODE " == " " + ("TMODE" + " ");
    var tail := h.chan + " ";
    assert h.Text() == ":" + h.id + (" " + ("TMODE" + " ")) + h.ts + " " + h.chan + " ";
  }

  lemma {:induction false} LettersWord(items: seq<Item>)
    requires WellFormed(items)
    ensures ' ' !in Letters(items) && ':' !in Letters(items)
    ensures items != [] ==> Letters(items) != ""
  {
    if items != [] {
      var init, last := items[..|items| - 1], items[|items| - 1];
      LettersWord(init);
      assert last.letter != ' ' && last.letter != ':';
    }
  }

  lemma {:induction false} ArgsWords(items: seq<Item>)
    requires WellFormed(items)
    ensures Words(Args(items))
  {
    if items != [] { ArgsWords(items[..|items| - 1]); }
  }

  /** The parameters a peer finds in a line that was not cut. */
  lemma LineParsed(h: Header, line: seq<Item>)
    requires h.Ok() && WellFormed(line) && line != [] && |Args(line)| <= MAXMODEPARAMS
    ensures MessageParameters(Text(h, line)) == [h.ts, h.chan, Letters(line)] + Args(line)
  {
    hide Parameters, MessageParameters, Letters, Args, Join, WellFormed;
    LettersWord(line);
    ArgsWords(line);
    var ml, para := Letters(line), Join(Args(line));
    assert Text(h, line) == h.Text() + (ml + " " + para);
    HeaderParsed(h, ml + " " + para);
    ParametersCons(ml, para, MAXPARA - 2);
    JoinRoundTrip(Args(line), MAXPARA - 3);
  }

  lemma {:induction false} AsReadShape(items: seq<Item>)
    ensures |AsRead(items)| == |items|
    ensures forall i :: 0 <= i < |items| ==>
      AsRead(items)[i].letter == items[i].letter && AsRead(items)[i].arg == items[i].arg
  {
    if items != [] { AsReadShape(items[..|items| - 1]); }
  }

  /** A peer does to its channel what it reads in the line, change by change. */
  lemma LineObeyed(env: Env, src: Source, chan: Channel, h: Header, line: seq<Item>)
    requires h.Ok() && WellFormed(line) && line != [] && |Args(line)| <= MAXMODEPARAMS && SimpleOnce(line)
    requires |Text(h, line)| <= LINE_MAX
    ensures Deliver(env, src, chan, Cut(Text(h, line))) == ApplyAll(env, src, chan, AsRead(line))
  {
    hide MessageParameters, Letters, Args, AsRead, Decode, Text, WellFormed;
    LineParsed(h, line);
    DecodeLine(line);
    AsReadShape(line);
    OnceAsRead(line);
    var p := MessageParameters(Text(h, line));
    var parv := [Letters(line)] + Args(line);
    assert p[2..] == parv && parv[1..] == Args(line);
    RunIsApplyAll(Context(env, src.Remotely(), REMOTE, parv), src, Letters(line), Add, Fresh(chan));
  }

  lemma OnceAsRead(line: seq<Item>)
    requires SimpleOnce(line)
    ensures SimpleOnce(AsRead(line))
  {
    AsReadShape(line);
  }

  lemma {:induction false} FirstWordClean(s: string)
    ensures ' ' !in FirstWord(s)
  {
    if s != "" && s[0] != ' ' { FirstWordClean(s[1..]); }
  }

  /** Only the last parameter that the parser finds can hold a space. */
  lemma {:induction false} ParserLeavesSpacesLast(s: string, room: nat)
    ensures OnlyLastSpaced(Parameters(s, room))
    decreases |s|
  {
    var t := SkipSpaces(s);
    if t != "" && t[0] != ':' && room > 1 {
      var w := FirstWord(t);
      FirstWordClean(t);
      if w != "" { ParserLeavesSpacesLast(t[|w|..], room - 1); }
    }
  }

  // ---------------------------------------------------------------- what a cut line loses

  /** What a reader of a received line finds. */
  function ReadLine(text: string): seq<Item> {
    var p := MessageParameters(text);
    if |p| < 3 then [] else Decode(p[2], Add, p[3..])
  }

  lemma {:induction false} DecodeCount(ml: string, dir: Dir, a: seq<string>, b: seq<string>)
    requires Wanted(ml, dir) == |b|
    requires Decode(ml, dir, a) == Decode(ml, dir, b)
    ensures |a| >= |b| && a[..|b|] == b
  {
    if ml != "" {
      var dir' := Turn(ml[0], dir);
      if !IsTurn(ml[0]) && WantsArg(ml[0], dir) {
        var da, db := Decode(ml, dir, a), Decode(ml, dir, b);
        assert da[0] == db[0];
        assert a != [] && a[0] == b[0];
        assert da[1..] == db[1..];
        assert Decode(ml[1..], dir', a[1..]) == da[1..];
        assert Decode(ml[1..], dir', b[1..]) == db[1..];
        DecodeCount(ml[1..], dir', a[1..], b[1..]);
      } else if !IsTurn(ml[0]) {
        var da, db := Decode(ml, dir, a), Decode(ml, dir, b);
        assert Decode(ml[1..], dir', a) == da[1..];
        assert Decode(ml[1..], dir', b) == db[1..];
        DecodeCount(ml[1..], dir', a, b);
      } else {
        DecodeCount(ml[1..], dir', a, b);
      }
    }
  }

  lemma {:induction false} TotalLengthPrefix(a: seq<string>, n: nat)
    requires n <= |a|
    ensures TotalLength(a[..n]) <= TotalLength(a)
  {
    if n > 0 {
      TotalLengthPrefix(a[1..], n - 1);
      assert a[..n][1..] == a[1..][..n - 1];
    }
  }

  /** A line that loses part of its parameters is read as something else. */
  lemma CutLineMisread(h: Header, line: seq<Item>, n: nat)
    requires h.Ok() && WellFormed(line) && line != [] && |Args(line)| <= MAXMODEPARAMS
    requires |h.Text()| + |Letters(line)| + 1 <= n < |Text(h, line)|
    ensures ReadLine(Text(h, line)[..n]) != AsRead(line)
  {
    hide Decode, Parameters, MessageParameters, Letters, Args, Wanted, Join, WellFormed, AsRead;
    var ml, para := Letters(line), Join(Args(line));
    var short := para[..n - |h.Text()| - |ml| - 1];
    LettersWord(line);
    assert Text(h, line)[..n] == h.Text() + (ml + " " + short);
    HeaderParsed(h, ml + " " + short);
    ParametersCons(ml, short, MAXPARA - 2);
    var found := Parameters(short, MAXPARA - 3);
    var p := MessageParameters(Text(h, line)[..n]);
    assert p == [h.ts, h.chan, ml] + found;
    assert p[3..] == found;
    DecodeLine(line);
    ArgsWords(line);
    if Decode(ml, Add, found) == AsRead(line) { ShortIsLess(ml, short, Args(line)); }
  }

  /** Fewer characters cannot hold the same parameters. */
  lemma ShortIsLess(ml: string, short: string, args: seq<string>)
    requires |short| < |Join(args)| && Words(args)
    ensures Decode(ml, Add, Parameters(short, MAXPARA - 3)) != Decode(ml, Add, args) ||
            |args| != Wanted(ml, Add)
  {
    var found := Parameters(short, MAXPARA - 3);
    if Decode(ml, Add, found) == Decode(ml, Add, args) && |args| == Wanted(ml, Add) {
      DecodeCount(ml, Add, found, args);
      TotalLengthPrefix(found, |args|);
      ParametersFit(short, MAXPARA - 3);
      JoinLength(args);
      assert false;
    }
  }

  /** A received line is read as it was meant if and only if it was not cut. */
  lemma LineSurvivesIffNotCut(h: Header, line: seq<Item>)
    requires h.Ok() && WellFormed(line) && line != [] && Bounded(|h.Text()|, line)
    requires |h.Text()| + |Letters(line)| < LINE_MAX
    ensures ReadLine(Cut(Text(h, line))) == AsRead(line) <==> |Text(h, line)| <= LINE_MAX
  {
    if |Text(h, line)| <= LINE_MAX {
      LineParsed(h, line);
      DecodeLine(line);
      assert MessageParameters(Text(h, line))[3..] == Args(line);
    } else {
      CutLineMisread(h, line, LINE_MAX);
    }
  }
}
