// MAP: the server tree drawn through one buffer that every level of the recursion edits and repairs.
module ServerMap {

  /** A server as the command looks at it. */
  datatype Server = Server(name: string, hidden: bool, service: bool, children: seq<Server>)

  /** Who asks, and the configuration. */
  datatype Viewer = Viewer(oper: bool, hideServices: bool) {
    predicate Sees(s: Server) {
      oper || (!s.hidden && !(s.service && hideServices))
    }
  }

  /** A printed line: the drawing, the server, and whether it is the one that says there is more. */
  datatype Line = Line(prompt: string, server: string, more: bool)

  const DEEPEST := 60  // a longer prompt is not extended

  function Count(v: Viewer, list: seq<Server>): nat {
    if list == [] then 0 else (if v.Sees(list[0]) then 1 else 0) + Count(v, list[1..])
  }

  // ---------------------------------------------------------------- the drawing as it should be

  /** The lines below a server continue its own: the corner is gone and the dash becomes a space. */
  function Opened(prompt: string): string {
    if |prompt| < 2 then prompt
    else prompt[..|prompt| - 2] + [if prompt[|prompt| - 2] == '`' then ' ' else prompt[|prompt| - 2], ' ']
  }

  /** The server, and its visible children below it, the last one behind a corner. */
  function Ideal(v: Viewer, s: Server, prompt: string): seq<Line>
    decreases s, 1, 0
  {
    [Line(prompt, s.name, |prompt| > DEEPEST)] + if |prompt| > DEEPEST then [] else IdealFrom(v, s, 0, Opened(prompt))
  }

  function IdealFrom(v: Viewer, s: Server, i: nat, base: string): seq<Line>
    requires i <= |s.children|
    decreases s, 0, |s.children| - i
  {
    if i == |s.children| then []
    else if !v.Sees(s.children[i]) then IdealFrom(v, s, i + 1, base)
    else Ideal(v, s.children[i], base + [Mark(v, s, i), '-']) + IdealFrom(v, s, i + 1, base)
  }

  function Mark(v: Viewer, s: Server, i: nat): char
    requires i < |s.children|
  {
    if Count(v, s.children[i + 1..]) == 0 then '`' else '|'
  }

  /** Who is shown: to operators everyone, to others neither the hidden nor, if so configured, the services. */
  predicate Shown(v: Viewer, s: Server) {
    v.oper || (!s.hidden && !(s.service && v.hideServices))
  }

  lemma {:induction false} NoneCounted(v: Viewer, list: seq<Server>)
    ensures Count(v, list) == 0 <==> forall j :: 0 <= j < |list| ==> !Shown(v, list[j])
  {
    if list != [] {
      NoneCounted(v, list[1..]);
      assert forall j :: 0 < j < |list| ==> list[j] == list[1..][j - 1];
    }
  }

  /** Every child that is shown has its line, behind a corner if no child after it is shown and behind a bar if one is,
      below what is left of the corners and dashes of the server's own line. */
  lemma ChildLine(v: Viewer, s: Server, prompt: string, i: nat)
    requires i < |s.children| && Shown(v, s.children[i]) && |prompt| <= 60
    ensures var n := |prompt|;
      var above := if n < 2 then prompt
                   else prompt[..n - 2] + [if prompt[n - 2] == '`' then ' ' else prompt[n - 2], ' '];
      var mark := if forall j :: i < j < |s.children| ==> !Shown(v, s.children[j]) then '`' else '|';
      Line(above + [mark, '-'], s.children[i].name, n + 2 > 60) in Ideal(v, s, prompt)
  {
    NoneCounted(v, s.children[i + 1..]);
    assert forall j :: i < j < |s.children| ==> s.children[j] == s.children[i + 1..][j - i - 1];
    ChildLineFrom(v, s, 0, i, Opened(prompt));
  }

  lemma {:induction false} ChildLineFrom(v: Viewer, s: Server, k: nat, i: nat, base: string)
    requires k <= i < |s.children| && Shown(v, s.children[i])
    ensures Line(base + [Mark(v, s, i), '-'], s.children[i].name, |base| + 2 > 60) in IdealFrom(v, s, k, base)
    decreases i - k
  {
    if k == i {
      var p := base + [Mark(v, s, i), '-'];
      assert Ideal(v, s.children[i], p)[0] == Line(p, s.children[i].name, |base| + 2 > 60);
    } else {
      ChildLineFrom(v, s, k + 1, i, base);
    }
  }

  // ---------------------------------------------------------------- the drawing as it comes out

  /** What a server leaves of the prompt it was given: one that is too deep does not put its dash back. */
  function Left(prompt: string): string {
    if |prompt| < 2 then prompt
    else Opened(prompt)[..|prompt| - 1] + [if |prompt| > DEEPEST then ' ' else '-']
  }

  /** The dash that the next child finds. */
  function NextDash(base: string): char {
    if |base| + 2 > DEEPEST then ' ' else '-'
  }

  function Drawn(v: Viewer, s: Server, prompt: string): seq<Line>
    decreases s, 1, 0
  {
    [Line(prompt, s.name, |prompt| > DEEPEST)] + if |prompt| > DEEPEST then []
      else DrawnFrom(v, s, 0, Opened(prompt), '-')
  }

  function DrawnFrom(v: Viewer, s: Server, i: nat, base: string, dash: char): seq<Line>
    requires i <= |s.children|
    decreases s, 0, |s.children| - i
  {
    if i == |s.children| then []
    else if !v.Sees(s.children[i]) then DrawnFrom(v, s, i + 1, base, dash)
    else Drawn(v, s.children[i], base + [Mark(v, s, i), dash]) + DrawnFrom(v, s, i + 1, base, NextDash(base))
  }

  // ---------------------------------------------------------------- when the two agree

  /** Some server whose prompt is exactly as long as allowed has two visible children. */
  ghost predicate Crowded(v: Viewer, s: Server, length: nat)
    decreases s
  {
    || (length == DEEPEST && Count(v, s.children) >= 2)
    || (length < DEEPEST && exists i ::
          0 <= i < |s.children| && v.Sees(s.children[i]) && Crowded(v, s.children[i], length + 2))
  }

  ghost predicate CrowdedFrom(v: Viewer, s: Server, i: nat, length: nat)
    requires i <= |s.children|
  {
    exists j :: i <= j < |s.children| && v.Sees(s.children[j]) && Crowded(v, s.children[j], length + 2)
  }

  lemma {:induction false} SameLength(v: Viewer, s: Server, p: string, q: string)
    requires |p| == |q|
    ensures |Drawn(v, s, p)| == |Ideal(v, s, q)|
    decreases s, 1, 0
  {
    if |p| <= DEEPEST { SameLengthFrom(v, s, 0, Opened(p), Opened(q), '-'); }
  }

  lemma {:induction false} SameLengthFrom(v: Viewer, s: Server, i: nat, p: string, q: string, dash: char)
    requires i <= |s.children| && |p| == |q|
    ensures |DrawnFrom(v, s, i, p, dash)| == |IdealFrom(v, s, i, q)|
    decreases s, 0, |s.children| - i
  {
    if i < |s.children| {
      if v.Sees(s.children[i]) {
        SameLength(v, s.children[i], p + [Mark(v, s, i), dash], q + [Mark(v, s, i), '-']);
        SameLengthFrom(v, s, i + 1, p, q, NextDash(p));
      } else {
        SameLengthFrom(v, s, i + 1, p, q, dash);
      }
    }
  }

  lemma Parts<T>(a: seq<T>, b: seq<T>, c: seq<T>, d: seq<T>)
    requires |a| == |c|
    ensures a + b == c + d <==> a == c && b == d
  {
    if a + b == c + d {
      assert a == (a + b)[..|a|] == (c + d)[..|a|] == c;
      assert b == (a + b)[|a|..] == (c + d)[|a|..] == d;
    }
  }

  lemma OpenedLength(p: string)
    ensures |Opened(p)| == |p|
  {
  }

  /** The command draws what it should if and only if no server with a prompt of exactly 60 characters, the
      thirtieth level below this one, has two visible children. */
  lemma {:induction false} DrawnIsIdealIff(v: Viewer, s: Server, p: string)
    requires |p| % 2 == 0
    ensures Drawn(v, s, p) == Ideal(v, s, p) <==> !Crowded(v, s, |p|)
    decreases s, 1, 0
  {
    if |p| > DEEPEST {
    } else {
      OpenedLength(p);
      var head := [Line(p, s.name, false)];
      Parts(head, DrawnFrom(v, s, 0, Opened(p), '-'), head, IdealFrom(v, s, 0, Opened(p)));
      if |p| < DEEPEST {
        DrawnFromIff(v, s, 0, Opened(p));
      } else {
        DeepestFrom(v, s, 0, Opened(p));
      }
    }
  }

  lemma {:induction false} DrawnFromIff(v: Viewer, s: Server, i: nat, base: string)
    requires i <= |s.children| && |base| % 2 == 0 && |base| < DEEPEST
    ensures DrawnFrom(v, s, i, base, '-') == IdealFrom(v, s, i, base) <==> !CrowdedFrom(v, s, i, |base|)
    decreases s, 0, |s.children| - i
  {
    if i < |s.children| {
      var c := s.children[i];
      DrawnFromIff(v, s, i + 1, base);
      if v.Sees(c) {
        var p := base + [Mark(v, s, i), '-'];
        DrawnIsIdealIff(v, c, p);
        SameLength(v, c, p, p);
        Parts(Drawn(v, c, p), DrawnFrom(v, s, i + 1, base, '-'), Ideal(v, c, p), IdealFrom(v, s, i + 1, base));
      }
    }
  }

  /** Below the deepest prompts, the first child is drawn right and the others are not. */
  lemma {:induction false} DeepestFrom(v: Viewer, s: Server, i: nat, base: string)
    requires i <= |s.children| && |base| == DEEPEST
    ensures DrawnFrom(v, s, i, base, '-') == IdealFrom(v, s, i, base) <==> Count(v, s.children[i..]) < 2
    decreases |s.children| - i
  {
    if i < |s.children| {
      assert s.children[i..][1..] == s.children[i + 1..];
      if v.Sees(s.children[i]) {
        var c, p := s.children[i], base + [Mark(v, s, i), '-'];
        assert Drawn(v, c, p) == Ideal(v, c, p) == [Line(p, c.name, true)];
        Parts(Drawn(v, c, p), DrawnFrom(v, s, i + 1, base, ' '), Ideal(v, c, p), IdealFrom(v, s, i + 1, base));
        LostDash(v, s, i + 1, base);
      } else {
        DeepestFrom(v, s, i + 1, base);
      }
    }
  }

  lemma {:induction false} LostDash(v: Viewer, s: Server, i: nat, base: string)
    requires i <= |s.children| && |base| == DEEPEST
    ensures DrawnFrom(v, s, i, base, ' ') == IdealFrom(v, s, i, base) <==> Count(v, s.children[i..]) == 0
    decreases |s.children| - i
  {
    if i < |s.children| {
      assert s.children[i..][1..] == s.children[i + 1..];
      if v.Sees(s.children[i]) {
        var c, p, q := s.children[i], base + [Mark(v, s, i), ' '], base + [Mark(v, s, i), '-'];
        assert p[|base| + 1] != q[|base| + 1];
        assert Drawn(v, c, p) != [] && Ideal(v, c, q) != [];
        assert DrawnFrom(v, s, i, base, ' ')[0] == Drawn(v, c, p)[0] &&
          IdealFrom(v, s, i, base)[0] == Ideal(v, c, q)[0];
      } else {
        LostDash(v, s, i + 1, base);
      }
    }
  }

  function Depth(s: Server): nat {
    DepthFrom(s, 0)
  }

  function DepthFrom(s: Server, i: nat): nat
    requires i <= |s.children|
    decreases s, |s.children| - i
  {
    if i == |s.children| then 0
    else
      var here, rest := 1 + DepthFrom(s.children[i], 0), DepthFrom(s, i + 1);
      if here > rest then here else rest
  }

  lemma {:induction false} ChildShallower(s: Server, i: nat, k: nat)
    requires k <= i < |s.children|
    ensures Depth(s.children[i]) < DepthFrom(s, k)
    decreases i - k
  {
    if k < i { ChildShallower(s, i, k + 1); }
  }

  /** Trees of at most thirty levels below the root are always drawn right. */
  lemma {:induction false} ShallowNotCrowded(v: Viewer, s: Server, length: nat)
    requires length % 2 == 0 && length + 2 * Depth(s) <= DEEPEST
    ensures !Crowded(v, s, length)
    decreases s
  {
    forall i | 0 <= i < |s.children| && length < DEEPEST ensures !Crowded(v, s.children[i], length + 2) {
      ChildShallower(s, i, 0);
      ShallowNotCrowded(v, s.children[i], length + 2);
    }
    if length == DEEPEST && s.children != [] { ChildShallower(s, 0, 0); }
  }

  lemma ShallowTreesDrawn(v: Viewer, s: Server)
    requires Depth(s) <= 30
    ensures Drawn(v, s, "") == Ideal(v, s, "")
  {
    ShallowNotCrowded(v, s, 0);
    DrawnIsIdealIff(v, s, "");
  }

  // ---------------------------------------------------------------- dump_map

  class MapPrinter {
    const prompt: array<char>
    var lines: seq<Line>

    constructor ()
      ensures fresh(prompt) && prompt.Length == 64 && lines == []
    {
      prompt, lines := new char[64], [];
    }

    /** The server's own line, and the prompt opened for what is below it. */
    method PrintServer(s: Server, length: nat)
      requires prompt.Length == 64 && length % 2 == 0 && length <= 62
      modifies prompt, this`lines
      ensures lines == old(lines) + [Line(old(prompt[..length]), s.name, length > DEEPEST)]
      ensures prompt[..length] == Opened(old(prompt[..length]))
    {
      ghost var before := prompt[..length];
      prompt[length] := '\0';
      assert prompt[..length] == before;
      lines := lines + [Line(prompt[..length], s.name, length > DEEPEST)];
      if length != 0 {
        prompt[length - 1] := ' ';
        if prompt[length - 2] == '`' {
          prompt[length - 2] := ' ';
        }
      }
    }

    method CountVisible(v: Viewer, s: Server) returns (cnt: nat)
      ensures cnt == Count(v, s.children)
    {
      cnt := 0;
      assert s.children[0..] == s.children;
      for i := 0 to |s.children|
        invariant cnt + Count(v, s.children[i..]) == Count(v, s.children)
      {
        assert s.children[i..][1..] == s.children[i + 1..];
        if v.Sees(s.children[i]) {
          cnt := cnt + 1;
        }
      }
    }

    /** dump_map: what is printed is the drawing, and of the buffer nothing before the last two characters of
        the prompt has changed. */
    method DumpMap(v: Viewer, s: Server, length: nat)
      requires prompt.Length == 64 && length % 2 == 0 && length <= 62
      modifies prompt, this`lines
      ensures lines == old(lines) + Drawn(v, s, old(prompt[..length]))
      ensures prompt[..length] == Left(old(prompt[..length]))
      decreases s, 1
    {
      ghost var was := prompt[..length];
      PrintServer(s, length);
      DrawnIs(v, s, was);
      if length > DEEPEST {
        return;
      }
      DumpChildren(v, s, length);
      if length != 0 {
        prompt[length - 1] := '-';
      }
    }

    /** The loop over the children. */
    method DumpChildren(v: Viewer, s: Server, length: nat)
      requires prompt.Length == 64 && length % 2 == 0 && length <= DEEPEST
      modifies prompt, this`lines
      ensures lines == old(lines) + DrawnFrom(v, s, 0, old(prompt[..length]), '-')
      ensures prompt[..length] == old(prompt[..length])
      decreases s, 0
    {
      hide DrawnFrom, Left, Count, Drawn, Opened, NextDash;
      ghost var base, dash := prompt[..length], '-';
      ghost var all := lines + DrawnFrom(v, s, 0, base, '-');
      prompt[length], prompt[length + 1], prompt[length + 2] := '|', '-', '\0';
      var cnt := CountVisible(v, s);
      assert s.children[0..] == s.children && prompt[..length] == base;
      for i := 0 to |s.children|
        invariant prompt[..length] == base && prompt[length + 1] == dash && (cnt > 0 ==> prompt[length] == '|')
        invariant cnt == Count(v, s.children[i..])
        invariant lines + DrawnFrom(v, s, i, base, dash) == all
      {
        DrawnNext(v, s, i, base, dash);
        if !v.Sees(s.children[i]) {
          continue;
        }
        cnt := cnt - 1;
        if cnt == 0 {
          prompt[length] := '`';
        }
        assert prompt[..length + 2] == base + [Mark(v, s, i), dash];
        DumpMap(v, s.children[i], length + 2);
        LeftOver(base, Mark(v, s, i), dash);
        AsPrefix(prompt[..length + 2], base, if Mark(v, s, i) == '`' then ' ' else Mark(v, s, i), NextDash(base));
        dash := NextDash(base);
      }
      DrawnOver(v, s, base, dash);
    }
  }

  lemma AsPrefix(p: string, base: string, mark: char, dash: char)
    requires p == base + [mark, dash]
    ensures p[..|base|] == base && p[|base|] == mark && p[|base| + 1] == dash
  {
  }

  lemma DrawnIs(v: Viewer, s: Server, prompt: string)
    ensures Drawn(v, s, prompt) == [Line(prompt, s.name, |prompt| > DEEPEST)] +
      if |prompt| > DEEPEST then [] else DrawnFrom(v, s, 0, Opened(prompt), '-')
  {
  }

  lemma DrawnNext(v: Viewer, s: Server, i: nat, base: string, dash: char)
    requires i < |s.children|
    ensures DrawnFrom(v, s, i, base, dash) == if !v.Sees(s.children[i]) then DrawnFrom(v, s, i + 1, base, dash)
      else Drawn(v, s.children[i], base + [Mark(v, s, i), dash]) + DrawnFrom(v, s, i + 1, base, NextDash(base))
    ensures Count(v, s.children[i..]) == Count(v, s.children[i + 1..]) + if v.Sees(s.children[i]) then 1 else 0
  {
    assert s.children[i..][1..] == s.children[i + 1..];
  }

  lemma DrawnOver(v: Viewer, s: Server, base: string, dash: char)
    ensures DrawnFrom(v, s, |s.children|, base, dash) == []
  {
  }

  lemma LeftOver(base: string, mark: char, dash: char)
    ensures Left(base + [mark, dash]) == base + [if mark == '`' then ' ' else mark, NextDash(base)]
  {
  }
}
