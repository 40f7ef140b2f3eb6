// The global WHO: invisible clients on common channels first, then everybody visible, each reported once
// with the help of a mark on the client.
module Who {
  import opened Lists
  import opened Entities

  const WHO_MAX_REPLIES := 500

  /** What who_matches and the arguments of the command ask for. */
  datatype Query = Query(matches: Client -> bool, serverOper: bool)

  predicate Passes(source: Client, q: Query, x: Client)
    reads source`umodes, x`umodes
  {
    !q.serverOper || ('o' in x.umodes && ('H' !in x.umodes || 'o' in source.umodes))
  }

  /** Does x share a channel with the asker? */
  ghost predicate Shares(source: Client, x: Client)
    reads source`channel, (set m | m in source.channel :: m.channel)`members
  {
    exists s, m :: s in source.channel && m in s.channel.members && m.client == x
  }

  /** Whom the command should report: all who match and are either visible or on a common channel. */
  ghost predicate Eligible(d: Ircd, source: Client, q: Query, x: Client)
    reads d`globalClients, source`umodes, x`umodes
    reads source`channel, (set m | m in source.channel :: m.channel)`members
  {
    && x in d.globalClients && Passes(source, q, x) && q.matches(x)
    && ('i' in x.umodes ==> Shares(source, x))
  }

  /** Of those, whom it can report: invisible clients that were marked before are taken for reported. */
  ghost function Reportable(d: Ircd, source: Client, q: Query, before: set<Client>): set<Client>
    reads d`globalClients, source`umodes, (set x | x in d.globalClients)`umodes
    reads source`channel, (set m | m in source.channel :: m.channel)`members
  {
    set x | x in d.globalClients && Eligible(d, source, q, x) && !('i' in x.umodes && x in before)
  }

  lemma {:induction false} DistinctCount(list: seq<Client>, all: set<Client>)
    requires Distinct(list) && forall x :: x in list ==> x in all
    ensures |list| <= |all|
    ensures |list| == |all| ==> forall x :: x in all ==> x in list
  {
    if list != [] {
      var head, rest := list[0], list[1..];
      assert head !in rest;
      DistinctCount(rest, all - {head});
      assert list == [head] + rest;
    } else if |all| == 0 {
    }
  }

  lemma {:induction false} CountExact(list: seq<Client>, all: set<Client>)
    requires Distinct(list) && forall x :: x in list <==> x in all
    ensures |list| == |all|
  {
    if list == [] {
      assert all == {};
    } else {
      assert list[0] !in list[1..];
      CountExact(list[1..], all - {list[0]});
    }
  }

  ghost function Left(reported: nat): nat {
    if reported >= WHO_MAX_REPLIES then 0 else WHO_MAX_REPLIES - reported
  }

  ghost function Marked(people: set<Client>): set<Client>
    reads people`mark
  {
    set x | x in people && x.mark
  }

  /** The marks and replies of the first pass, so far: the marked, but for those marked before, are invisible, pass the
      filter and share a channel, and those of them that match have been reported. */
  ghost predicate FirstPass(d: Ircd, source: Client, q: Query, before: set<Client>, reported: seq<Client>)
    reads d.people`mark, d.people`umodes, source`umodes
    reads source`channel, (set m | m in source.channel :: m.channel)`members
  {
    && Distinct(reported) && source in d.people
    && (forall x :: x in reported ==> x in d.people && x.mark && x !in before && q.matches(x))
    && (forall x :: x in d.people && x in before ==> x.mark)
    && (forall x :: x in d.people && x.mark && x !in before ==>
         'i' in x.umodes && Passes(source, q, x) && Shares(source, x) && (q.matches(x) ==> x in reported))
  }

  /** Everyone on the channel whom the first pass is about has been marked. */
  ghost predicate Covered(source: Client, q: Query, members: seq<ChannelMember>)
    reads source`umodes, (set m | m in members :: m.client)`umodes, (set m | m in members :: m.client)`mark
  {
    forall m :: m in members && 'i' in m.client.umodes && Passes(source, q, m.client) ==> m.client.mark
  }

  /** A member of a common channel is marked, and will have been reported if the query matches. */
  method Mark(ghost d: Ircd, ghost source: Client, ghost q: Query, ghost s: ChannelMember, m: ChannelMember,
              ghost before: set<Client>, ghost reported: seq<Client>)
    requires s in source.channel && m in s.channel.members && m.client in d.people
    requires FirstPass(d, source, q, before, reported)
    requires 'i' in m.client.umodes && !m.client.mark && Passes(source, q, m.client)
    modifies m.client`mark
    ensures m.client.mark && m.client !in reported
    ensures FirstPass(d, source, q, before, if q.matches(m.client) then reported + [m.client] else reported)
  {
    m.client.mark := true;
  }

  /** who_common_channel */
  method WhoCommonChannel(d: Ircd, source: Client, q: Query, s: ChannelMember, ghost before: set<Client>,
                         earlier: seq<Client>, maxmatches: nat)
    returns (reported: seq<Client>, left: nat)
    requires s in source.channel && FirstPass(d, source, q, before, earlier) && maxmatches == Left(|earlier|)
    requires forall m :: m in s.channel.members ==> m.client in d.people
    modifies (set m | m in s.channel.members :: m.client)`mark
    ensures FirstPass(d, source, q, before, reported) && left == Left(|reported|) && |earlier| <= |reported|
    ensures forall x :: x in d.people && old(x.mark) ==> x.mark
    ensures |reported| < WHO_MAX_REPLIES || |earlier| >= WHO_MAX_REPLIES ==> Covered(source, q, s.channel.members)
  {
    reported, left := earlier, maxmatches;
    var members := s.channel.members;
    for i := 0 to |members|
      invariant FirstPass(d, source, q, before, reported) && left == Left(|reported|) && |earlier| <= |reported|
      invariant forall x :: x in d.people && old(x.mark) ==> x.mark
      invariant |reported| >= WHO_MAX_REPLIES ==> |earlier| >= WHO_MAX_REPLIES
      invariant Covered(source, q, members[..i])
    {
      var target := members[i].client;
      assert members[..i + 1] == members[..i] + [members[i]];
      if 'i' !in target.umodes || target.mark {
        continue;
      }
      if q.serverOper {
        if 'o' !in target.umodes || ('H' in target.umodes && 'o' !in source.umodes) {
          continue;
        }
      }
      Mark(d, source, q, s, members[i], before, reported);
      if q.matches(target) {
        reported := reported + [target];
        if left != 0 {
          left := left - 1;
          if left == 0 {
            return;
          }
        }
      }
    }
    assert members[..|members|] == members;
  }

  /** All channels of the asker have been walked. */
  method FirstList(d: Ircd, source: Client, q: Query, ghost before: set<Client>)
    returns (reported: seq<Client>, left: nat)
    requires source in d.people && before == Marked(d.people)
    requires forall s, m :: s in source.channel && m in s.channel.members ==> m.client in d.people
    modifies d.people`mark
    ensures FirstPass(d, source, q, before, reported) && left == Left(|reported|)
    ensures |reported| < WHO_MAX_REPLIES ==> forall s :: s in source.channel ==> Covered(source, q, s.channel.members)
  {
    reported, left := [], WHO_MAX_REPLIES;
    for i := 0 to |source.channel|
      invariant FirstPass(d, source, q, before, reported) && left == Left(|reported|)
      invariant |reported| < WHO_MAX_REPLIES ==>
        forall j :: 0 <= j < i ==> Covered(source, q, source.channel[j].channel.members)
    {
      reported, left := WhoCommonChannel(d, source, q, source.channel[i], before, reported, left);
    }
  }

  /** The second pass has seen these clients: the visible ones who qualify are reported, the invisible ones unmarked;
      `marked` are those who were marked after the first pass. */
  ghost predicate SecondPass(d: Ircd, source: Client, q: Query, marked: set<Client>, second: seq<Client>,
                             seen: seq<Client>)
    reads d`globalClients, d.people`mark, d.people`umodes, source`umodes
  {
    && source in d.people && Distinct(second) && (forall x :: x in seen ==> x in d.people)
    && (forall x :: x in second ==>
         x in seen && x in d.people && 'i' !in x.umodes && Passes(source, q, x) && q.matches(x))
    && (forall x :: x in seen && 'i' !in x.umodes && Passes(source, q, x) && q.matches(x) ==> x in second)
    && (forall x :: x in d.people ==> (x.mark <==> x in marked && !(x in seen && 'i' in x.umodes)))
  }

  /** One client of the list. */
  method See(ghost d: Ircd, source: Client, q: Query, ghost marked: set<Client>, target: Client, second: seq<Client>,
             ghost seen: seq<Client>)
    returns (now: seq<Client>)
    requires SecondPass(d, source, q, marked, second, seen) && target in d.people && target !in seen
    modifies target`mark
    ensures SecondPass(d, source, q, marked, now, seen + [target])
    ensures now ==
      second + if 'i' !in target.umodes && Passes(source, q, target) && q.matches(target) then [target] else []
  {
    if 'i' in target.umodes {
      target.mark := false;
      return second;
    }
    if q.serverOper {
      if 'o' !in target.umodes || ('H' in target.umodes && 'o' !in source.umodes) {
        return second;
      }
    }
    return if q.matches(target) then second + [target] else second;
  }

  /** How many of these are visible and to be reported. */
  ghost function Visible(list: seq<Client>, source: Client, q: Query): nat
    reads source`umodes, (set x | x in list)`umodes
  {
    if list == [] then 0
    else
      var last := list[|list| - 1];
      Visible(list[..|list| - 1], source, q) +
      if 'i' !in last.umodes && Passes(source, q, last) && q.matches(last) then 1 else 0
  }

  lemma {:induction false} VisibleGrows(list: seq<Client>, i: nat, j: nat, source: Client, q: Query)
    requires i <= j <= |list|
    ensures Visible(list[..i], source, q) <= Visible(list[..j], source, q)
  {
    if i < j {
      VisibleGrows(list, i, j - 1, source, q);
      assert list[..j][..j - 1] == list[..j - 1];
    }
  }

  /** The second pass, and where it stops. */
  ghost predicate StopsAt(list: seq<Client>, source: Client, q: Query, first: nat, seen: nat)
    reads source`umodes, (set x | x in list)`umodes
  {
    && seen <= |list|
    && forall i :: 0 <= i < |list| ==>
      (i >= seen <==> first < WHO_MAX_REPLIES <= first + Visible(list[..i], source, q))
  }

  lemma Stopped(list: seq<Client>, source: Client, q: Query, first: nat, seen: nat)
    requires seen < |list| && first + Visible(list[..seen], source, q) < WHO_MAX_REPLIES
    requires WHO_MAX_REPLIES <= first + Visible(list[..seen + 1], source, q)
    ensures StopsAt(list, source, q, first, seen + 1)
  {
    forall i | 0 <= i < |list|
      ensures i >= seen + 1 <==> first < WHO_MAX_REPLIES <= first + Visible(list[..i], source, q)
    {
      if i <= seen { VisibleGrows(list, i, seen, source, q); } else { VisibleGrows(list, seen + 1, i, source, q); }
    }
  }

  lemma NotStopped(list: seq<Client>, source: Client, q: Query, first: nat)
    requires first >= WHO_MAX_REPLIES || first + Visible(list, source, q) < WHO_MAX_REPLIES
    ensures StopsAt(list, source, q, first, |list|)
  {
    assert list[..|list|] == list;
    forall i | 0 <= i < |list| ensures !(first < WHO_MAX_REPLIES <= first + Visible(list[..i], source, q)) {
      VisibleGrows(list, i, |list|, source, q);
    }
  }

  lemma VisibleSnoc(list: seq<Client>, i: nat, source: Client, q: Query)
    requires i < |list|
    ensures list[..i + 1] == list[..i] + [list[i]]
    ensures Visible(list[..i + 1], source, q) == Visible(list[..i], source, q) +
      if 'i' !in list[i].umodes && Passes(source, q, list[i]) && q.matches(list[i]) then 1 else 0
  {
    assert list[..i + 1][..i] == list[..i];
  }

  lemma NoneVisible(source: Client, q: Query)
    ensures Visible([], source, q) == 0
  {
  }

  lemma NotSeenYet(list: seq<Client>, i: nat)
    requires Distinct(list) && i < |list|
    ensures list[i] !in list[..i]
  {
  }

  method SecondList(d: Ircd, source: Client, q: Query, ghost marked: set<Client>, ghost first: nat, maxmatches: nat)
    returns (second: seq<Client>, ghost seen: nat)
    requires SecondPass(d, source, q, marked, [], []) && maxmatches == Left(first)
    requires Distinct(d.globalClients) && forall x :: x in d.globalClients ==> x in d.people
    modifies d.people`mark
    ensures seen <= |d.globalClients| && StopsAt(d.globalClients, source, q, first, seen)
    ensures SecondPass(d, source, q, marked, second, d.globalClients[..seen])
    ensures seen < |d.globalClients| ==> first < WHO_MAX_REPLIES == first + |second|
    ensures first < WHO_MAX_REPLIES ==> first + |second| <= WHO_MAX_REPLIES
  {
    hide SecondPass, Passes, Distinct, Visible;
    second, seen := [], 0;
    var left := maxmatches;
    NoneVisible(source, q);
    for i := 0 to |d.globalClients|
      invariant seen == i && SecondPass(d, source, q, marked, second, d.globalClients[..i])
      invariant |second| == Visible(d.globalClients[..i], source, q)
      invariant first < WHO_MAX_REPLIES ==> left == WHO_MAX_REPLIES - first - |second| > 0
      invariant first >= WHO_MAX_REPLIES ==> left == 0
    {
      VisibleSnoc(d.globalClients, i, source, q);
      NotSeenYet(d.globalClients, i);
      var now := See(d, source, q, marked, d.globalClients[i], second, d.globalClients[..i]);
      seen := seen + 1;
      var reported := |now| != |second|;
      second := now;
      if reported && left != 0 {
        left := left - 1;
        if left == 0 {
          Stopped(d.globalClients, source, q, first, i);
          return;
        }
      }
    }
    assert d.globalClients[..|d.globalClients|] == d.globalClients;
    NotStopped(d.globalClients, source, q, first);
  }

  /** The invisible clients among the reportable. */
  ghost function Hidden(d: Ircd, source: Client, q: Query, before: set<Client>): set<Client>
    reads d`globalClients, source`umodes, (set x | x in d.globalClients)`umodes
    reads source`channel, (set m | m in source.channel :: m.channel)`members
  {
    set x | x in d.globalClients && 'i' in x.umodes && Eligible(d, source, q, x) && x !in before
  }

  /** Is the limit reached by visible clients before the i-th in the list? */
  ghost predicate CutBefore(d: Ircd, source: Client, q: Query, before: set<Client>, i: nat)
    requires i <= |d.globalClients|
    reads d`globalClients, source`umodes, (set x | x in d.globalClients)`umodes
    reads source`channel, (set m | m in source.channel :: m.channel)`members
  {
    var hidden := |Hidden(d, source, q, before)|;
    hidden < WHO_MAX_REPLIES <= hidden + Visible(d.globalClients[..i], source, q)
  }

  /** who_global, when it is not throttled. Nobody is reported twice. An invisible client of the list is marked
      afterwards exactly if it was before or the first pass was about it, and the limit was reached by visible clients
      before it in the list; the marks of all others stay as they were. */
  method WhoGlobal(d: Ircd, source: Client, q: Query) returns (reported: seq<Client>)
    requires source in d.people
    requires Distinct(d.globalClients) && forall x :: x in d.globalClients ==> x in d.people
    requires forall s, m :: s in source.channel && m in s.channel.members ==> m.client in d.globalClients
    modifies d.people`mark
    ensures var before := old(Marked(d.people));
      && Distinct(reported) && (forall x :: x in reported ==> x in Reportable(d, source, q, before))
      && (forall i :: 0 <= i < |d.globalClients| && 'i' in d.globalClients[i].umodes ==>
           var x := d.globalClients[i];
           x.mark <==> (x in before || (Passes(source, q, x) && Shares(source, x))) &&
                       CutBefore(d, source, q, before, i))
      && (forall x :: x in d.people && (x !in d.globalClients || 'i' !in x.umodes) ==> (x.mark <==> x in before))
      && (|Hidden(d, source, q, before)| < WHO_MAX_REPLIES ==>
           |reported| == Min(WHO_MAX_REPLIES, |Reportable(d, source, q, before)|))
      && (|Reportable(d, source, q, before)| < WHO_MAX_REPLIES ==>
           forall x :: x in Reportable(d, source, q, before) ==> x in reported && ('i' in x.umodes ==> !x.mark))
      && (|Hidden(d, source, q, before)| >= WHO_MAX_REPLIES ==>
           forall x :: x in Reportable(d, source, q, before) && 'i' !in x.umodes ==> x in reported)
    ensures forall x :: x in reported ==> MayShow(d, source, q, old(Marked(d.people)), x)
    ensures |d.globalClients| < WHO_MAX_REPLIES ==>
      forall x :: x in d.globalClients && MayShow(d, source, q, old(Marked(d.people)), x) ==> x in reported
  {
    hide FirstPass, SecondPass, StopsAt, FirstDone, Eligible, Distinct, Hidden, Reportable, Passes, Shares, CutBefore,
      MayShow;
    ghost var before := Marked(d.people);
    var one, left := FirstList(d, source, q, before);
    ghost var marked := Marked(d.people);
    AfterFirst(d, source, q, before, one);
    ghost var seen;
    var two;
    two, seen := SecondList(d, source, q, marked, |one|, left);
    reported := one + two;
    Replies(d, source, q, before, marked, one, two, seen);
    MarksLeft(d, source, q, before, marked, one, two, seen);
    ReportableMeans(d, source, q, before);
  }

  /** Whom a WHO shows: who matches; of the invisible only those on a common channel who were not marked; and if it asks
      for operators only these, hidden ones only to operators. */
  ghost predicate MayShow(d: Ircd, source: Client, q: Query, before: set<Client>, x: Client)
    reads d`globalClients, source`umodes, x`umodes
    reads source`channel, (set m | m in source.channel :: m.channel)`members
  {
    && x in d.globalClients && q.matches(x) && ('i' in x.umodes ==> x !in before && Shares(source, x))
    && (q.serverOper ==> 'o' in x.umodes && ('H' in x.umodes ==> 'o' in source.umodes))
  }

  lemma ReportableMeans(d: Ircd, source: Client, q: Query, before: set<Client>)
    ensures forall x :: x in d.globalClients ==>
      (x in Reportable(d, source, q, before) <==> MayShow(d, source, q, before, x))
    ensures |Reportable(d, source, q, before)| <= |d.globalClients|
    ensures forall x :: x in Reportable(d, source, q, before) ==> x in d.globalClients
  {
    hide Shares;
    FewOf(d.globalClients, Reportable(d, source, q, before));
  }

  lemma {:induction false} FewOf(list: seq<Client>, some: set<Client>)
    requires forall x :: x in some ==> x in list
    ensures |some| <= |list|
  {
    if list == [] {
      assert some == {};
    } else {
      FewOf(list[1..], some - {list[0]});
    }
  }

  /** What the first pass leaves for the second and for the end. */
  ghost predicate FirstDone(d: Ircd, source: Client, q: Query, before: set<Client>, marked: set<Client>,
                            one: seq<Client>)
    reads d`globalClients, source`umodes, d.people`umodes, (set x | x in d.globalClients)`umodes
    reads source`channel, (set m | m in source.channel :: m.channel)`members
  {
    && Distinct(one) && before <= marked && (forall x :: x in one ==> x in Hidden(d, source, q, before))
    && (forall x :: x in marked && x !in before ==>
         x in d.people && x in d.globalClients && 'i' in x.umodes && Passes(source, q, x) && Shares(source, x))
    && (|one| < WHO_MAX_REPLIES ==>
      (forall x :: x in d.people && 'i' in x.umodes && Passes(source, q, x) && Shares(source, x) ==> x in marked) &&
      (forall x :: x in Hidden(d, source, q, before) ==> x in one))
  }

  /** Who is reported, over both passes. */
  lemma Replies(d: Ircd, source: Client, q: Query, before: set<Client>, marked: set<Client>, one: seq<Client>,
                two: seq<Client>, seen: nat)
    requires FirstDone(d, source, q, before, marked, one) && seen <= |d.globalClients|
    requires SecondPass(d, source, q, marked, two, d.globalClients[..seen])
    requires seen < |d.globalClients| ==> |one| < WHO_MAX_REPLIES == |one| + |two|
    requires |one| < WHO_MAX_REPLIES ==> |one| + |two| <= WHO_MAX_REPLIES
    ensures Distinct(one + two) && forall x :: x in one + two ==> x in Reportable(d, source, q, before)
    ensures |Hidden(d, source, q, before)| < WHO_MAX_REPLIES ==>
      |one| == |Hidden(d, source, q, before)| &&
      |one + two| == Min(WHO_MAX_REPLIES, |Reportable(d, source, q, before)|)
    ensures |Reportable(d, source, q, before)| < WHO_MAX_REPLIES ==>
      seen == |d.globalClients| && |one| < WHO_MAX_REPLIES &&
      forall x :: x in Reportable(d, source, q, before) ==> x in one + two && x in d.globalClients
    ensures |Hidden(d, source, q, before)| >= WHO_MAX_REPLIES ==>
      |one| >= WHO_MAX_REPLIES &&
      forall x :: x in Reportable(d, source, q, before) && 'i' !in x.umodes ==> x in one + two
  {
    var all, hidden := Reportable(d, source, q, before), Hidden(d, source, q, before);
    Together(one, two);
    DistinctCount(one, hidden);
    DistinctCount(one + two, all);
    assert d.globalClients[..|d.globalClients|] == d.globalClients;
    if |one| < WHO_MAX_REPLIES {
      CountExact(one, hidden);
      if seen == |d.globalClients| { CountExact(one + two, all); }
    }
  }

  /** Who is marked at the end. */
  lemma MarksLeft(d: Ircd, source: Client, q: Query, before: set<Client>, marked: set<Client>, one: seq<Client>,
                  two: seq<Client>, seen: nat)
    requires FirstDone(d, source, q, before, marked, one) && StopsAt(d.globalClients, source, q, |one|, seen)
    requires SecondPass(d, source, q, marked, two, d.globalClients[..seen]) && Distinct(d.globalClients)
    requires forall x :: x in d.globalClients ==> x in d.people
    requires if |Hidden(d, source, q, before)| < WHO_MAX_REPLIES then |one| == |Hidden(d, source, q, before)|
      else |one| >= WHO_MAX_REPLIES
    ensures forall i :: 0 <= i < |d.globalClients| && 'i' in d.globalClients[i].umodes ==>
      var x := d.globalClients[i];
      x.mark <==> (x in before || (Passes(source, q, x) && Shares(source, x))) && CutBefore(d, source, q, before, i)
    ensures forall x :: x in d.people && (x !in d.globalClients || 'i' !in x.umodes) ==> (x.mark <==> x in before)
    ensures seen == |d.globalClients| ==> forall x :: x in d.globalClients && 'i' in x.umodes ==> !x.mark
  {
    hide Visible, Hidden, Passes, Shares;
    var list := d.globalClients;
    assert list[..|list|] == list;
    forall i | 0 <= i < |list| ensures i >= seen <==> list[i] !in list[..seen] {
      if i < seen { assert list[..seen][i] == list[i]; }
    }
  }

  function Min(a: nat, b: nat): nat {
    if a <= b then a else b
  }

  /** What the first pass leaves behind, apart from the marks. */
  lemma AfterFirst(d: Ircd, source: Client, q: Query, before: set<Client>, one: seq<Client>)
    requires FirstPass(d, source, q, before, one) && before <= d.people
    requires forall s, m :: s in source.channel && m in s.channel.members ==> m.client in d.globalClients
    requires |one| < WHO_MAX_REPLIES ==> forall s :: s in source.channel ==> Covered(source, q, s.channel.members)
    requires forall x :: x in d.globalClients ==> x in d.people
    ensures SecondPass(d, source, q, Marked(d.people), [], [])
    ensures FirstDone(d, source, q, before, Marked(d.people), one)
  {
    forall x | x in d.people && x.mark && x !in before ensures x in d.globalClients {
      var s, m :| s in source.channel && m in s.channel.members && m.client == x;
    }
    forall x | x in one ensures x in Hidden(d, source, q, before) { assert x.mark; }
  }

  lemma Together(one: seq<Client>, two: seq<Client>)
    requires Distinct(one) && Distinct(two) && forall x :: x in one ==> x !in two
    ensures Distinct(one + two)
  {
    forall i, j | 0 <= i < j < |one + two| ensures (one + two)[i] != (one + two)[j] {
      if i < |one| <= j { assert one[i] in one && two[j - |one|] in two; }
    }
  }

  // ---------------------------------------------------------------- a mark that stays

  method Crowd(n: nat) returns (list: seq<Client>)
    ensures |list| == n && Distinct(list) && fresh(list)
    ensures forall x :: x in list ==> x.umodes == {} && !x.mark
  {
    list := [];
    for i := 0 to n
      invariant |list| == i && Distinct(list) && fresh(list)
      invariant forall x :: x in list ==> x.umodes == {} && !x.mark
    {
      var x := new Client("0AAAAAAAA", "nick", true, false, null);
      list := list + [x];
    }
  }

  lemma {:induction false} AllVisible(list: seq<Client>, source: Client, q: Query)
    requires !q.serverOper && forall x :: x in list ==> x.umodes == {} && q.matches(x)
    ensures Visible(list, source, q) == |list|
  {
    if list != [] { AllVisible(list[..|list| - 1], source, q); }
  }

  /** An asker and an invisible client on one channel, listed after a crowd that is visible. */
  ghost predicate Scene(d: Ircd, source: Client, hidden: Client, crowd: seq<Client>)
    reads d, d.people, source, (set m | m in source.channel :: m.channel)`members
  {
    && d.globalClients == crowd + [source, hidden] && d.people == (set x | x in d.globalClients)
    && Distinct(d.globalClients) && (forall x :: x in d.people ==> !x.mark)
    && (forall x :: x in crowd + [source] ==> x in d.people && x.umodes == {})
    && hidden in d.people && 'i' in hidden.umodes && |source.channel| == 1
    && var members := source.channel[0].channel.members;
      |members| == 2 && members[0].client == source && members[1].client == hidden
  }

  method Meet(a: Client, b: Client)
    modifies a`channel
    ensures |a.channel| == 1
    ensures var members := a.channel[0].channel.members;
      |members| == 2 && members[0].client == a && members[1].client == b
  {
    var channel := new Channel("#c");
    var one := new ChannelMember(a, channel, {});
    var two := new ChannelMember(b, channel, {});
    channel.members := [one, two];
    a.channel := [one];
  }

  lemma CrowdAndTwo(crowd: seq<Client>, a: Client, b: Client)
    requires Distinct(crowd) && a !in crowd && b !in crowd && a != b
    ensures Distinct(crowd + [a, b])
  {
    forall i, j | 0 <= i < j < |crowd| + 2 ensures (crowd + [a, b])[i] != (crowd + [a, b])[j] {
      if i < |crowd| { assert crowd[i] in crowd; }
    }
  }

  method SetScene(crowd: seq<Client>) returns (d: Ircd, source: Client, hidden: Client)
    requires Distinct(crowd) && forall x :: x in crowd ==> x.umodes == {} && !x.mark
    ensures Scene(d, source, hidden, crowd) && fresh({source, hidden})
  {
    hide Distinct;
    source := new Client("0AAAAAAAB", "asker", true, false, null);
    hidden := new Client("0AAAAAAAC", "hidden", true, false, null);
    hidden.umodes := {'i'};
    Meet(source, hidden);
    CrowdAndTwo(crowd, source, hidden);
    ghost var people := set x | x in crowd + [source, hidden];
    d := new Ircd(source, people);
    d.globalClients := crowd + [source, hidden];
  }

  function Everyone(): Query { Query(x => true, false) }

  lemma SceneFacts(d: Ircd, source: Client, hidden: Client, crowd: seq<Client>)
    requires Scene(d, source, hidden, crowd)
    ensures var i, q := |crowd| + 1, Everyone();
      |d.globalClients| == i + 1 && d.globalClients[i] == hidden && Shares(source, hidden) &&
      Hidden(d, source, q, {}) == {hidden} && Visible(d.globalClients[..i], source, q) == i
    ensures forall s, m :: s in source.channel && m in s.channel.members ==> m.client in d.globalClients
  {
    var i, q := |crowd| + 1, Everyone();
    assert d.globalClients[..i] == crowd + [source];
    AllVisible(crowd + [source], source, q);
    var s := source.channel[0];
    assert s in source.channel && s.channel.members[1] in s.channel.members;
  }

  /** The last of the list is invisible, and the limit is reached before it. */
  ghost predicate Unlucky(d: Ircd, source: Client, hidden: Client)
    reads d, d.people, source, (set m | m in source.channel :: m.channel)`members
    reads (set x | x in d.globalClients)`umodes
  {
    && source in d.people && hidden in d.people && 'i' in hidden.umodes && Shares(source, hidden)
    && Distinct(d.globalClients) && (forall x :: x in d.globalClients ==> x in d.people)
    && (forall s, m :: s in source.channel && m in s.channel.members ==> m.client in d.globalClients)
    && d.globalClients != [] && d.globalClients[|d.globalClients| - 1] == hidden
    && Hidden(d, source, Everyone(), {}) == {hidden}
    && Visible(d.globalClients[..|d.globalClients| - 1], source, Everyone()) == WHO_MAX_REPLIES
  }

  method SetUnlucky() returns (d: Ircd, source: Client, hidden: Client)
    ensures Unlucky(d, source, hidden) && Marked(d.people) == {} && fresh(d.people)
  {
    hide Hidden, Visible, Shares, Distinct;
    var crowd := Crowd(WHO_MAX_REPLIES - 1);
    d, source, hidden := SetScene(crowd);
    SceneFacts(d, source, hidden, crowd);
    assert forall x :: x in d.people ==> x in crowd || x == source || x == hidden;
  }

  /** With its reply the limit is reached before the invisible client's turn, and it keeps its mark. */
  method MarkStays() returns (d: Ircd, source: Client, hidden: Client)
    ensures Unlucky(d, source, hidden) && hidden.mark && fresh(d.people)
  {
    hide Hidden, Visible, Shares, Distinct, Reportable;
    d, source, hidden := SetUnlucky();
    var reported := WhoGlobal(d, source, Everyone());
    assert d.globalClients[|d.globalClients| - 1].mark;
  }

  /** So the next WHO does not report it, although it should. */
  method NotReportedAgain() returns (d: Ircd, source: Client, hidden: Client, again: seq<Client>)
    ensures Eligible(d, source, Everyone(), hidden) && hidden !in again
  {
    hide Hidden, Visible, Distinct, Shares;
    d, source, hidden := MarkStays();
    assert hidden in Marked(d.people);
    again := WhoGlobal(d, source, Everyone());
  }
}
