// The lines the engine prints for its change log, and how a reader takes them apart.
module ModeLines {
  import opened Strings
  import opened ModeSpec

  const IRCD_BUFSIZE := 512
  const LINE_MAX := 510  // what send_format leaves of a longer text

  /** One printed change. */
  datatype Item = Item(letter: char, dir: Dir, arg: Option<string>)

  /** The entries that are not cancelled, as a server line shows them: ids rather than nicks. */
  function ServerItem(ch: Change): Item {
    Item(ch.letter, ch.dir, if ch.id.Some? then ch.id else ch.arg)
  }

  function Live(log: seq<Change>): seq<Item> {
    if log == [] then []
    else
      var ch := log[|log| - 1];
      Live(log[..|log| - 1]) + if ch.letter == CANCELLED then [] else [ServerItem(ch)]
  }

  /** What one of the two passes for local members shows: the entries with its visibility. */
  function Visible(log: seq<Change>, opsOnly: bool): seq<Item> {
    if log == [] then []
    else
      var ch := log[|log| - 1];
      Visible(log[..|log| - 1], opsOnly) +
      if ch.letter == CANCELLED || ch.opsOnly != opsOnly then [] else [Item(ch.letter, ch.dir, ch.arg)]
  }

  // ---------------------------------------------------------------- one line

  function LastDir(items: seq<Item>): Dir {
    if items == [] then Query else items[|items| - 1].dir
  }

  function Sign(before: Dir, dir: Dir): string {
    if before == dir then "" else if dir.Add? then "+" else "-"
  }

  /** The mode letters of a line, with a sign wherever the direction changes. */
  function Letters(items: seq<Item>): string {
    if items == [] then ""
    else
      var init, last := items[..|items| - 1], items[|items| - 1];
      Letters(init) + Sign(LastDir(init), last.dir) + [last.letter]
  }

  function ArgOf(it: Item): seq<string> {
    if it.arg.Some? then [it.arg.value] else []
  }

  function Args(items: seq<Item>): seq<string> {
    if items == [] then [] else Args(items[..|items| - 1]) + ArgOf(items[|items| - 1])
  }

  function ArgLength(it: Item): nat {
    if it.arg.Some? then |it.arg.value| else 0
  }

  /** A line under construction is flushed before `it` when it has six parameters or would grow too long. */
  predicate MustFlush(head: nat, cur: seq<Item>, it: Item) {
    |Args(cur)| == MAXMODEPARAMS ||
    ArgLength(it) + head + |Letters(cur)| + |Join(Args(cur))| + 2 > IRCD_BUFSIZE
  }

  /** The finished lines, and the line under construction. */
  datatype Packing = Packing(lines: seq<seq<Item>>, cur: seq<Item>)

  function Flush(p: Packing): Packing {
    Packing(if p.cur == [] then p.lines else p.lines + [p.cur], [])
  }

  function PackOne(head: nat, p: Packing, it: Item): Packing {
    var q := if MustFlush(head, p.cur, it) then Flush(p) else p;
    q.(cur := q.cur + [it])
  }

  function PackItems(head: nat, items: seq<Item>): Packing {
    if items == [] then Packing([], [])
    else PackOne(head, PackItems(head, items[..|items| - 1]), items[|items| - 1])
  }

  /** The items of each printed line. */
  function Lines(head: nat, items: seq<Item>): seq<seq<Item>> {
    Flush(PackItems(head, items)).lines
  }

  function Body(line: seq<Item>): string {
    Letters(line) + " " + Join(Args(line))
  }

  function Concat(lines: seq<seq<Item>>): seq<Item> {
    if lines == [] then [] else Concat(lines[..|lines| - 1]) + lines[|lines| - 1]
  }

  // ---------------------------------------------------------------- nothing lost, nothing doubled

  /** Everything packed so far. */
  function Packed(p: Packing): seq<Item> {
    Concat(p.lines) + p.cur
  }

  lemma FlushPacked(p: Packing)
    ensures Flush(p).cur == [] && Concat(Flush(p).lines) == Packed(p) && Packed(Flush(p)) == Packed(p)
  {
    if p.cur != [] {
      assert (p.lines + [p.cur])[..|p.lines|] == p.lines;
    }
  }

  lemma PackOnePacked(head: nat, p: Packing, it: Item)
    ensures Packed(PackOne(head, p, it)) == Packed(p) + [it]
  {
    hide Flush, MustFlush;
    FlushPacked(p);
    var q := if MustFlush(head, p.cur, it) then Flush(p) else p;
    assert Packed(q) == Packed(p);
    assert Concat(q.lines) + (q.cur + [it]) == (Concat(q.lines) + q.cur) + [it];
  }

  lemma {:induction false} ItemsPacked(head: nat, items: seq<Item>)
    ensures Packed(PackItems(head, items)) == items
  {
    if items != [] {
      hide PackItems, PackOne, Packed;
      var init, last := items[..|items| - 1], items[|items| - 1];
      assert items == init + [last];
      ItemsPacked(head, init);
      PackItemsSnoc(head, init, last);
      PackOnePacked(head, PackItems(head, init), last);
    }
  }

  lemma PackItemsSnoc(head: nat, init: seq<Item>, last: Item)
    ensures PackItems(head, init + [last]) == PackOne(head, PackItems(head, init), last)
  {
    assert (init + [last])[..|init|] == init;
  }

  lemma {:induction false} LinesNotEmpty(head: nat, items: seq<Item>)
    ensures forall i :: 0 <= i < |PackItems(head, items).lines| ==> PackItems(head, items).lines[i] != []
  {
    if items != [] { LinesNotEmpty(head, items[..|items| - 1]); }
  }

  /** Read line by line, the printed items are exactly the items of the log, in order. */
  lemma LinesConcat(head: nat, items: seq<Item>)
    ensures Concat(Lines(head, items)) == items
    ensures forall i :: 0 <= i < |Lines(head, items)| ==> Lines(head, items)[i] != []
  {
    ItemsPacked(head, items);
    LinesNotEmpty(head, items);
    FlushPacked(PackItems(head, items));
  }

  /** Every entry that is not cancelled is shown in exactly one of the two passes. */
  lemma {:induction false} PassesPartition(log: seq<Change>)
    ensures |Visible(log, false)| + |Visible(log, true)| == |Live(log)|
    ensures forall it: Item ::
      multiset(Visible(log, false))[it] + multiset(Visible(log, true))[it] == multiset(Shown(log))[it]
  {
    if log != [] { PassesPartition(log[..|log| - 1]); }
  }

  predicate Shows(ch: Change, opsOnly: bool, it: Item) {
    ch.letter != CANCELLED && ch.opsOnly == opsOnly && it == Item(ch.letter, ch.dir, ch.arg)
  }

  /** What a pass shows: the entries of its visibility that were not cancelled, and nothing else. */
  lemma {:induction false} VisibleMeans(log: seq<Change>, opsOnly: bool, it: Item)
    ensures it in Visible(log, opsOnly) <==>
      exists i :: 0 <= i < |log| && Shows(log[i], opsOnly, it)
  {
    if log != [] {
      var n := |log| - 1;
      VisibleMeans(log[..n], opsOnly, it);
      assert Visible(log, opsOnly) == Visible(log[..n], opsOnly) +
        if log[n].letter == CANCELLED || log[n].opsOnly != opsOnly then []
        else [Item(log[n].letter, log[n].dir, log[n].arg)];
      hide Visible;
      if it in Visible(log[..n], opsOnly) {
        var i :| 0 <= i < n && Shows(log[..n][i], opsOnly, it);
        assert log[i] == log[..n][i];
      }
      forall i | 0 <= i < n && Shows(log[i], opsOnly, it) ensures it in Visible(log[..n], opsOnly) {
        assert log[..n][i] == log[i];
      }
    }
  }

  /** The uncancelled entries as members see them. */
  function Shown(log: seq<Change>): seq<Item> {
    if log == [] then []
    else
      var ch := log[|log| - 1];
      Shown(log[..|log| - 1]) + if ch.letter == CANCELLED then [] else [Item(ch.letter, ch.dir, ch.arg)]
  }

  // ---------------------------------------------------------------- bounds

  ghost predicate Bounded(head: nat, line: seq<Item>) {
    |Args(line)| <= MAXMODEPARAMS && head + |Body(line)| <= LINE_MAX + 4
  }

  lemma BodySnoc(head: nat, cur: seq<Item>, it: Item)
    requires |Args(cur)| < MAXMODEPARAMS
    requires ArgLength(it) + head + |Letters(cur)| + |Join(Args(cur))| + 2 <= IRCD_BUFSIZE
    ensures Bounded(head, cur + [it])
  {
    var args := Args(cur);
    ItemSnoc(cur, it);
    JoinSnoc(args, ArgOf(it));
    assert |Letters(cur + [it])| <= |Letters(cur)| + 2;
  }

  lemma ItemSnoc(cur: seq<Item>, it: Item)
    ensures Letters(cur + [it]) == Letters(cur) + Sign(LastDir(cur), it.dir) + [it.letter]
    ensures Args(cur + [it]) == Args(cur) + ArgOf(it)
  {
    assert (cur + [it])[..|cur|] == cur;
  }

  lemma JoinSnoc(args: seq<string>, arg: seq<string>)
    requires |arg| <= 1
    ensures |Join(args + arg)| <= |Join(args)| + if arg == [] then 0 else 1 + |arg[0]|
  {
    if arg == [] {
      assert args + arg == args;
    } else {
      assert (args + arg)[..|args|] == args;
    }
  }

  lemma {:induction false} PackItemsBounded(head: nat, items: seq<Item>)
    requires forall i :: 0 <= i < |items| ==> head + ArgLength(items[i]) <= LINE_MAX
    ensures var p := PackItems(head, items);
      (forall i :: 0 <= i < |p.lines| ==> Bounded(head, p.lines[i])) && (p.cur == [] || Bounded(head, p.cur))
    ensures |Args(PackItems(head, items).cur)| <= MAXMODEPARAMS
  {
    if items != [] {
      var n := |items| - 1;
      PackItemsBounded(head, items[..n]);
      var p := PackItems(head, items[..n]);
      var q := if MustFlush(head, p.cur, items[n]) then Flush(p) else p;
      BodySnoc(head, q.cur, items[n]);
    }
  }

  /** With a header and parameter that fit together, a line has at most six parameters and 514 octets. */
  lemma LinesBounded(head: nat, items: seq<Item>)
    requires forall i :: 0 <= i < |items| ==> head + ArgLength(items[i]) <= LINE_MAX
    ensures forall i :: 0 <= i < |Lines(head, items)| ==> Bounded(head, Lines(head, items)[i])
  {
    PackItemsBounded(head, items);
  }

  function Fill(c: char, n: nat): string { seq(n, _ => c) }

  function Ban(m: string): Item { Item('b', Add, Some(m)) }

  /** Two bans of 199 octets and one change of a ban of 29 share a line with a header of 79 octets, the longest that a
      server line has. */
  lemma ThreePacked(a: string, b: string, c: string, dir: Dir)
    requires |a| == |b| == 199 && |c| == 29 && !dir.Query?
    ensures var items := [Ban(a), Ban(b), Item('b', dir, Some(c))];
      Lines(79, items) == [items] && 79 + |Body(items)| == LINE_MAX + if dir.Add? then 3 else 4
  {
    var x, y, z := Ban(a), Ban(b), Item('b', dir, Some(c));
    ThreeItems(a, b, c, dir);
    JoinThree(a, b, c);
    hide Letters, Args, Join, PackItems;
    PackItemsSnoc(79, [], x);
    PackItemsSnoc(79, [x], y);
    PackItemsSnoc(79, [x, y], z);
    NothingYet();
    assert PackItems(79, [x]) == Packing([], [x]);
    assert PackItems(79, [x, y]) == Packing([], [x, y]);
    assert PackItems(79, [x, y, z]) == Packing([], [x, y, z]);
    assert [] + [[x, y, z]] == [[x, y, z]];
  }

  lemma ThreeItems(a: string, b: string, c: string, dir: Dir)
    requires !dir.Query?
    ensures var x, y, z := Ban(a), Ban(b), Item('b', dir, Some(c));
      && [] + [x] == [x] && [x] + [y] == [x, y] && [x, y] + [z] == [x, y, z]
      && Letters([x]) == "+b" && Letters([x, y]) == "+bb"
      && Letters([x, y, z]) == (if dir.Add? then "+bbb" else "+bb-b")
      && Args([x]) == [a] && Args([x, y]) == [a, b] && Args([x, y, z]) == [a, b, c]
  {
    var x, y, z := Ban(a), Ban(b), Item('b', dir, Some(c));
    assert [] + [x] == [x] && [x] + [y] == [x, y] && [x, y] + [z] == [x, y, z];
    assert Letters([]) == "" && Args([]) == [];
    hide Letters, Args;
    ItemSnoc([], x);
    ItemSnoc([x], y);
    ItemSnoc([x, y], z);
  }

  lemma NothingYet()
    ensures PackItems(79, []) == Packing([], []) && Letters([]) == "" && Join(Args([])) == "" && Args([]) == []
  {
  }

  lemma JoinThree(a: string, b: string, c: string)
    requires a != "" && b != "" && c != ""
    ensures Join([a]) == a && Join([a, b]) == a + " " + b && Join([a, b, c]) == a + " " + b + " " + c
  {
    assert [a, b, c][..2] == [a, b] && [a, b][..1] == [a] && [a][..0] == [];
  }

  /** 514 is reached: the flush test leaves out the sign, the letter and the two separators. */
  lemma BoundReached()
    ensures var items := [Ban(Fill('a', 199)), Ban(Fill('b', 199)), Item('b', Del, Some(Fill('c', 29)))];
      Lines(79, items) == [items] && 79 + |Body(items)| == LINE_MAX + 4
  {
    ThreePacked(Fill('a', 199), Fill('b', 199), Fill('c', 29), Del);
  }

  /** A line starts with a sign if and only if its first entry was not logged under "=". */
  lemma {:induction false} SignFirst(line: seq<Item>)
    requires line != [] && !IsTurn(line[0].letter)
    ensures Letters(line) != "" && (Letters(line)[0] in "+-" <==> !line[0].dir.Query?)
  {
    if |line| > 1 {
      SignFirst(line[..|line| - 1]);
    } else {
      assert line[..0] == [];
    }
  }

  /** So the lines of a log without such entries all start with a sign. */
  lemma LinesStartWithSign(head: nat, items: seq<Item>)
    requires forall i :: 0 <= i < |items| ==> !items[i].dir.Query? && !IsTurn(items[i].letter)
    ensures forall i :: 0 <= i < |Lines(head, items)| ==> Body(Lines(head, items)[i])[0] in "+-"
  {
    hide Letters, Lines;
    var lines := Lines(head, items);
    LinesConcat(head, items);
    forall i | 0 <= i < |lines| ensures Body(lines[i])[0] in "+-" {
      InConcat(lines, i);
      assert lines[i][0] in items;
      SignFirst(lines[i]);
    }
  }

  lemma {:induction false} InConcat(lines: seq<seq<Item>>, i: nat)
    requires i < |lines|
    ensures forall it :: it in lines[i] ==> it in Concat(lines)
  {
    if i < |lines| - 1 { InConcat(lines[..|lines| - 1], i); }
  }

  // ---------------------------------------------------------------- reading a line

  /** The changes a reader of the letters and parameters sees; it starts out adding. */
  function Decode(ml: string, dir: Dir, args: seq<string>): seq<Item> {
    if ml == "" then []
    else if IsTurn(ml[0]) then Decode(ml[1..], Turn(ml[0], dir), args)
    else if WantsArg(ml[0], dir) && args != [] then
      [Item(ml[0], dir, Some(args[0]))] + Decode(ml[1..], dir, args[1..])
    else [Item(ml[0], dir, None)] + Decode(ml[1..], dir, args)
  }

  function DirAfter(ml: string, dir: Dir): Dir {
    if ml == "" then dir else DirAfter(ml[1..], Turn(ml[0], dir))
  }

  /** How many parameters the letters ask for. */
  function Wanted(ml: string, dir: Dir): nat {
    if ml == "" then 0
    else if IsTurn(ml[0]) then Wanted(ml[1..], Turn(ml[0], dir))
    else (if WantsArg(ml[0], dir) then 1 else 0) + Wanted(ml[1..], dir)
  }

  lemma {:induction false} DecodeAppend(a: string, b: string, dir: Dir, args: seq<string>, more: seq<string>)
    requires Wanted(a, dir) == |args|
    ensures Decode(a + b, dir, args + more) == Decode(a, dir, args) + Decode(b, DirAfter(a, dir), more)
    ensures DirAfter(a + b, dir) == DirAfter(b, DirAfter(a, dir))
    ensures Wanted(a + b, dir) == Wanted(a, dir) + Wanted(b, DirAfter(a, dir))
  {
    if a == "" {
      assert a + b == b && args + more == more;
    } else {
      assert (a + b)[1..] == a[1..] + b;
      var dir' := Turn(a[0], dir);
      if !IsTurn(a[0]) && WantsArg(a[0], dir) {
        assert (args + more)[1..] == args[1..] + more;
        DecodeAppend(a[1..], b, dir', args[1..], more);
      } else {
        DecodeAppend(a[1..], b, dir', args, more);
      }
    }
  }

  /** The direction a reader is in after a line: a sign only tells adding from removing. */
  function ReadDir(items: seq<Item>): Dir {
    if items == [] then Add
    else
      var init, last := items[..|items| - 1], items[|items| - 1];
      if LastDir(init) == last.dir then ReadDir(init) else if last.dir.Add? then Add else Del
  }

  /** The items of a line as a reader sees them. */
  function AsRead(items: seq<Item>): seq<Item> {
    if items == [] then []
    else AsRead(items[..|items| - 1]) + [items[|items| - 1].(dir := ReadDir(items))]
  }

  /** What the engine writes to its log: a letter of the table with the parameter it takes. */
  predicate WellFormedItem(it: Item) {
    ModeOf(it.letter).Some? && it.arg.Some? == WantsArg(it.letter, it.dir) &&
    (it.dir.Query? ==> IsSimple(it.letter)) && (it.arg.Some? ==> Word(it.arg.value))
  }

  predicate WellFormed(items: seq<Item>) {
    forall i :: 0 <= i < |items| ==> WellFormedItem(items[i])
  }

  lemma {:induction false} ReadDirSound(items: seq<Item>)
    requires WellFormed(items)
    ensures !LastDir(items).Query? ==> ReadDir(items) == LastDir(items)
    ensures !ReadDir(items).Query?
  {
    if items != [] { ReadDirSound(items[..|items| - 1]); }
  }

  lemma {:induction false} DecodeLine(items: seq<Item>)
    requires WellFormed(items)
    ensures Decode(Letters(items), Add, Args(items)) == AsRead(items)
    ensures DirAfter(Letters(items), Add) == ReadDir(items)
    ensures Wanted(Letters(items), Add) == |Args(items)|
  {
    if items != [] {
      var init, last := items[..|items| - 1], items[|items| - 1];
      DecodeLine(init);
      ReadDirSound(init);
      ReadDirSound(items);
      var tail := Sign(LastDir(init), last.dir) + [last.letter];
      assert Letters(items) == Letters(init) + tail;
      DecodeAppend(Letters(init), tail, Add, Args(init), ArgOf(last));
      DecodeTail(Sign(LastDir(init), last.dir), last, ReadDir(init), ReadDir(items));
    }
  }

  lemma DecodeTail(sign: string, it: Item, dir: Dir, dir': Dir)
    requires WellFormedItem(it) && !dir'.Query? && (it.dir.Query? || it.dir == dir')
    requires (sign == "" && dir == dir') || (sign == "+" && dir'.Add?) || (sign == "-" && dir'.Del?)
    ensures Decode(sign + [it.letter], dir, ArgOf(it)) == [it.(dir := dir')]
    ensures DirAfter(sign + [it.letter], dir) == dir'
    ensures Wanted(sign + [it.letter], dir) == |ArgOf(it)|
  {
    DecodeLetter(it, dir');
    if sign != "" {
      assert (sign + [it.letter])[1..] == [it.letter];
    } else {
      assert sign + [it.letter] == [it.letter];
    }
  }

  lemma DecodeLetter(it: Item, dir: Dir)
    requires WellFormedItem(it) && !dir.Query? && (it.dir.Query? || it.dir == dir)
    ensures Decode([it.letter], dir, ArgOf(it)) == [it.(dir := dir)]
    ensures DirAfter([it.letter], dir) == dir
    ensures Wanted([it.letter], dir) == |ArgOf(it)|
  {
    assert !IsTurn(it.letter);
    assert [it.letter][1..] == "";
    assert WantsArg(it.letter, dir) == it.arg.Some?;
    assert Decode("", dir, ArgOf(it)[|ArgOf(it)|..]) == [];
    assert it.arg.Some? ==> ArgOf(it)[1..] == [];
  }
}
