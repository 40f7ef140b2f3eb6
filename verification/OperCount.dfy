// Count.oper, Count.invisi and the list of operators, over OPER and SVSMODE.
module OperCount {
  import opened Lists
  import opened Entities
  import opened ServerTree
  import opened ClientExit
  import D = Departures

  // ---------------------------------------------------------------- what SVSMODE does to one client

  /** The user modes of the client, and by how much the two counters have moved. */
  datatype Tally = Tally(umodes: set<char>, opers: int, invisible: int)

  const UMODES := "DFGHXRSWabcdefgijklnopqrsuwy"  // umode_tab

  function SvsLetter(t: Tally, add: bool, c: char, local: bool, operOnly: set<char>): Tally {
    match c
    case 'd' => t
    case 'x' => t
    case 'S' => t
    case 'W' => t
    case 'o' =>
      if add || 'o' !in t.umodes then t
      else
        var rest := t.umodes - {'o', 'a'};
        Tally(if local then rest - operOnly else rest, t.opers - 1, t.invisible)
    case 'i' =>
      if add && 'i' !in t.umodes then t.(umodes := t.umodes + {'i'}, invisible := t.invisible + 1)
      else if !add && 'i' in t.umodes then t.(umodes := t.umodes - {'i'}, invisible := t.invisible - 1)
      else t
    case _ =>
      if c !in UMODES then t else t.(umodes := if add then t.umodes + {c} else t.umodes - {c})
  }

  /** The mode string, read from the front; it starts out adding. */
  function SvsRun(ml: string, add: bool, t: Tally, local: bool, operOnly: set<char>): Tally {
    if ml == "" then t
    else if ml[0] == '+' || ml[0] == '-' then SvsRun(ml[1..], ml[0] == '+', t, local, operOnly)
    else SvsRun(ml[1..], add, SvsLetter(t, add, ml[0], local, operOnly), local, operOnly)
  }

  function Has(umodes: set<char>, c: char): int {
    if c in umodes then 1 else 0
  }

  /** The counters moved exactly as the modes did. */
  predicate Right(before: set<char>, t: Tally) {
    t.opers == Has(t.umodes, 'o') - Has(before, 'o') && t.invisible == Has(t.umodes, 'i') - Has(before, 'i')
  }

  lemma {:induction false} SvsRunRight(ml: string, add: bool, before: set<char>, t: Tally, local: bool,
      operOnly: set<char>)
    requires Right(before, t) && 'i' !in operOnly
    ensures Right(before, SvsRun(ml, add, t, local, operOnly))
  {
    if ml != "" {
      if ml[0] == '+' || ml[0] == '-' {
        SvsRunRight(ml[1..], ml[0] == '+', before, t, local, operOnly);
      } else {
        SvsRunRight(ml[1..], add, before, SvsLetter(t, add, ml[0], local, operOnly), local, operOnly);
      }
    }
  }

  /** The operators are always counted right. */
  lemma {:induction false} SvsRunOpers(ml: string, add: bool, before: set<char>, t: Tally, local: bool,
                                       operOnly: set<char>)
    requires t.opers == Has(t.umodes, 'o') - Has(before, 'o')
    ensures var r := SvsRun(ml, add, t, local, operOnly); r.opers == Has(r.umodes, 'o') - Has(before, 'o')
  {
    if ml != "" {
      if ml[0] == '+' || ml[0] == '-' {
        SvsRunOpers(ml[1..], ml[0] == '+', before, t, local, operOnly);
      } else {
        SvsRunOpers(ml[1..], add, before, SvsLetter(t, add, ml[0], local, operOnly), local, operOnly);
      }
    }
  }

  /** By how much the counter of invisible users moved more than the modes did. */
  function Lost(before: set<char>, t: Tally): int {
    t.invisible - (Has(t.umodes, 'i') - Has(before, 'i'))
  }

  /** SVSMODE with a sign and one letter: plus sets a user mode and minus clears it, but for d, x, S and W, which do
      nothing to the modes, and o, which can only be taken, with a and from a local client whatever only operators may
      have; i is counted if it changes. */
  lemma SvsmodeLetter(sign: char, c: char, before: set<char>, local: bool, operOnly: set<char>)
    requires sign in "+-" && c !in "+-"
    ensures var t := SvsRun([sign, c], true, Tally(before, 0, 0), local, operOnly);
      if c in "dxSW" || c !in "DFGHRXSWabcdefgijklnopqrsuwxy" then t == Tally(before, 0, 0)
      else if c == 'o' then
        if sign == '+' || 'o' !in before then t == Tally(before, 0, 0)
        else t == Tally(before - {'o', 'a'} - (if local then operOnly else {}), -1, 0)
      else
        && t.umodes == (if sign == '+' then before + {c} else before - {c}) && t.opers == 0
        && t.invisible == if c != 'i' || (c in before) == (sign == '+') then 0 else if sign == '+' then 1 else -1
  {
    hide SvsLetter;
    assert [sign, c][1..] == [c] && [c][1..] == "";
    var add := sign == '+';
    assert SvsRun([sign, c], true, Tally(before, 0, 0), local, operOnly) ==
      SvsRun([c], add, Tally(before, 0, 0), local, operOnly);
    assert SvsRun([c], add, Tally(before, 0, 0), local, operOnly) ==
      SvsRun("", add, SvsLetter(Tally(before, 0, 0), add, c, local, operOnly), local, operOnly);
    OneSvsLetter(add, c, before, local, operOnly);
  }

  lemma OneSvsLetter(add: bool, c: char, before: set<char>, local: bool, operOnly: set<char>)
    ensures var t := SvsLetter(Tally(before, 0, 0), add, c, local, operOnly);
      if c in "dxSW" || c !in "DFGHRXSWabcdefgijklnopqrsuwxy" then t == Tally(before, 0, 0)
      else if c == 'o' then
        if add || 'o' !in before then t == Tally(before, 0, 0)
        else t == Tally(before - {'o', 'a'} - (if local then operOnly else {}), -1, 0)
      else
        && t.umodes == (if add then before + {c} else before - {c}) && t.opers == 0
        && t.invisible == if c != 'i' || (c in before) == add then 0 else if add then 1 else -1
  {
    assert c in before ==> before + {c} == before;
    assert c !in before ==> before - {c} == before;
  }

  /** An SVSMODE leaves the counters right for every client and every mode string if and only if the
      configured oper_only_umodes do not include the invisible mode. */
  lemma CountersRightIff(operOnly: set<char>)
    ensures 'i' !in operOnly <==>
      forall ml, umodes, local :: Right(umodes, SvsRun(ml, true, Tally(umodes, 0, 0), local, operOnly))
  {
    if 'i' !in operOnly {
      forall ml, umodes, local ensures Right(umodes, SvsRun(ml, true, Tally(umodes, 0, 0), local, operOnly)) {
        SvsRunRight(ml, true, umodes, Tally(umodes, 0, 0), local, operOnly);
      }
    } else {
      InvisibleOperLost(operOnly);
    }
  }

  /** Taking +o from a local invisible operator then clears +i without counting it. */
  lemma InvisibleOperLost(operOnly: set<char>)
    requires 'i' in operOnly
    ensures !Right({'o', 'i'}, SvsRun("-o", true, Tally({'o', 'i'}, 0, 0), true, operOnly))
  {
    var t := Tally({'o', 'i'}, 0, 0);
    assert "-o"[1..] == "o" && "o"[1..] == "";
    assert SvsRun("-o", true, t, true, operOnly) == SvsRun("o", false, t, true, operOnly);
    assert SvsRun("o", false, t, true, operOnly) == SvsRun("", false, SvsLetter(t, false, 'o', true, operOnly), true,
      operOnly);
  }

  // ---------------------------------------------------------------- the counters in the daemon

  ghost function Elements(list: seq<Client>): set<Client> {
    set u | u in list
  }

  lemma {:induction false} CountIsCard(list: seq<Client>, mode: char)
    requires Distinct(list)
    ensures CountMode(list, mode) == |D.WithMode(Elements(list), mode)|
  {
    if list == [] {
      assert D.WithMode(Elements(list), mode) == {};
    } else {
      var rest := list[1..];
      CountIsCard(rest, mode);
      var all, some := D.WithMode(Elements(list), mode), D.WithMode(Elements(rest), mode);
      assert list[0] !in rest;
      assert all == if mode in list[0].umodes then some + {list[0]} else some;
    }
  }

  /** Everyone else with the mode. */
  ghost function Others(d: Ircd, u: Client, mode: char): nat
    reads d`globalClients, (set k | k in d.globalClients && k != u)`umodes
  {
    |D.WithMode(Elements(d.globalClients) - {u}, mode)|
  }

  lemma CountSplit(d: Ircd, u: Client, mode: char)
    requires Distinct(d.globalClients) && u in d.globalClients
    ensures CountMode(d.globalClients, mode) == Others(d, u, mode) + Has(u.umodes, mode)
  {
    CountIsCard(d.globalClients, mode);
    var rest := D.WithMode(Elements(d.globalClients) - {u}, mode);
    assert D.WithMode(Elements(d.globalClients), mode) == if mode in u.umodes then rest + {u} else rest;
  }

  lemma CountedBy(d: Ircd, u: Client)
    requires Distinct(d.globalClients) && u in d.globalClients
    ensures Counted(d) <==>
      d.countOper == Others(d, u, 'o') + Has(u.umodes, 'o') &&
      d.countInvisi == Others(d, u, 'i') + Has(u.umodes, 'i') + d.lost
  {
    CountSplit(d, u, 'o');
    CountSplit(d, u, 'i');
  }

  /** A listed local user becomes an operator, or stops being one. */
  lemma Promoted(n: Network, l: D.Locals, opers: set<Client>, open: set<Client>, u: Client)
    requires D.Directory(n, l, opers, open) && u in n.clients && u.local && u !in opers
    ensures u !in l.opers && D.Directory(n, l.(opers := [u] + l.opers), opers + {u}, open)
  {
    assert u in l.opers ==> u in (set k | k in l.opers);
    var list := [u] + l.opers;
    assert (set k | k in list) == (set k | k in l.opers) + {u};
  }

  lemma Demoted(n: Network, l: D.Locals, opers: set<Client>, open: set<Client>, u: Client)
    requires D.Directory(n, l, opers, open)
    ensures Distinct(l.opers) && D.Directory(n, l.(opers := Delete(l.opers, u)), opers - {u}, open)
    ensures !u.local ==> D.Directory(n, l, opers - {u}, open)
  {
    DeleteIsWithout(l.opers, u);
    D.LoseElements(l.opers, D.LocalsOf(n.clients) * opers, u);
    assert D.LocalsOf(n.clients) * (opers - {u}) == D.LocalsOf(n.clients) * opers - {u};
  }

  method SetOper(u: Client, confModes: set<char>, operUmodes: set<char>)
    modifies u`umodes
    ensures u.umodes == old(u.umodes) + {'o'} + if confModes != {} then confModes else operUmodes
  {
    u.umodes := u.umodes + {'o'};
    if confModes != {} {
      u.umodes := u.umodes + confModes;
    } else if operUmodes != {} {
      u.umodes := u.umodes + operUmodes;
    }
  }

  /** The modes and counters of oper_up. */
  method RaiseModes(d: Ircd, u: Client, confModes: set<char>, operUmodes: set<char>, admin: bool)
    requires Distinct(d.globalClients) && Counted(d) && u in d.globalClients && 'o' !in u.umodes
    modifies u`umodes, d`countOper, d`countInvisi
    ensures Counted(d) && 'o' in u.umodes && old(u.umodes) <= u.umodes
    ensures u.umodes == old(u.umodes) + {'o'} + (if confModes != {} then confModes else operUmodes) +
      if admin then {'a'} else {}
  {
    hide CountMode, Distinct;
    CountedBy(d, u);
    ghost var opers, invisible := Others(d, u, 'o'), Others(d, u, 'i');
    var before := u.umodes;
    d.countOper := d.countOper + 1;
    SetOper(u, confModes, operUmodes);
    if 'i' !in before && 'i' in u.umodes {
      d.countInvisi := d.countInvisi + 1;
    } else if 'i' in before && 'i' !in u.umodes {
      assert false;  // modes are only added
    }
    if admin {
      u.umodes := u.umodes + {'a'};
    }
    assert Others(d, u, 'o') == opers && Others(d, u, 'i') == invisible;
    CountedBy(d, u);
  }

  /** oper_up: the user becomes an operator with the modes of the operator block or the configured ones. */
  method OperUp(d: Ircd, u: Client, confModes: set<char>, operUmodes: set<char>, admin: bool, ghost conn: set<Client>)
    requires Distinct(d.globalClients) && Counted(d) && D.LocalOk(d, conn)
    requires u in d.globalClients && u in d.people && u.local && 'o' !in u.umodes
    modifies u`umodes, d`countOper, d`countInvisi, d`operList
    ensures Counted(d) && D.LocalOk(d, conn) && d.operList == [u] + old(d.operList)
    ensures u.umodes == old(u.umodes) + {'o'} + (if confModes != {} then confModes else operUmodes) +
      if admin then {'a'} else {}
  {
    hide CountMode, Distinct, D.Directory, UsersOn, LinksOn;
    OnNodes(d);
    ghost var n, l, opers, s := Net(d), D.LocalsIn(d), D.WithMode(d.people, 'o'), Nodes(d);
    Promoted(n, l, opers, D.Open(conn), u);
    RaiseModes(d, u, confModes, operUmodes, admin);
    d.operList := [u] + d.operList;
    assert D.WithMode(d.people, 'o') == opers + {u};
    assert Nodes(d) == s;
    OnNodes(d);
  }

  lemma OnNodes(d: Ircd)
    ensures UsersOn(Nodes(d)) == Net(d).users && LinksOn(Nodes(d)) == Net(d).links
  {
  }

  lemma RunLetter(ml: string, add: bool, t: Tally, local: bool, operOnly: set<char>)
    requires ml != ""
    ensures SvsRun(ml, add, t, local, operOnly) ==
      if ml[0] == '+' || ml[0] == '-' then SvsRun(ml[1..], ml[0] == '+', t, local, operOnly)
      else SvsRun(ml[1..], add, SvsLetter(t, add, ml[0], local, operOnly), local, operOnly)
  {
  }

  /** The loop of ms_svsmode: modes, counters and, for a local client, the list of operators. */
  method Svsmode(d: Ircd, u: Client, modes: string, operOnly: set<char>)
    requires Distinct(d.operList) && (u.local && 'o' in u.umodes <==> u in d.operList)
    modifies u`umodes, d`countOper, d`countInvisi, d`operList
    ensures var t := SvsRun(modes, true, Tally(old(u.umodes), 0, 0), u.local, operOnly);
      u.umodes == t.umodes && d.countOper == old(d.countOper) + t.opers &&
        d.countInvisi == old(d.countInvisi) + t.invisible
    ensures Distinct(d.operList) && (u.local && 'o' in u.umodes <==> u in d.operList)
    ensures d.operList == if u in d.operList then old(d.operList) else Delete(old(d.operList), u)
  {
    hide SvsRun, Delete;
    ghost var t := Tally(u.umodes, 0, 0);
    ghost var all := SvsRun(modes, true, t, u.local, operOnly);
    var add := true;
    NotOnList(d.operList, u);
    assert modes[0..] == modes;
    for i := 0 to |modes|
      invariant t == Tally(u.umodes, d.countOper - old(d.countOper), d.countInvisi - old(d.countInvisi))
      invariant SvsRun(modes[i..], add, t, u.local, operOnly) == all
      invariant u.local && 'o' in u.umodes <==> u in d.operList
      invariant d.operList == if u in d.operList then old(d.operList) else Delete(old(d.operList), u)
    {
      RunLetter(modes[i..], add, t, u.local, operOnly);
      assert modes[i..][0] == modes[i] && modes[i..][1..] == modes[i + 1..];
      if modes[i] == '+' {
        add := true;
      } else if modes[i] == '-' {
        add := false;
      } else {
        t := SvsLetter(t, add, modes[i], u.local, operOnly);
        ChangeUmode(d, u, add, modes[i], operOnly);
      }
    }
    RunDone(t, add, u.local, operOnly);
  }

  lemma RunDone(t: Tally, add: bool, local: bool, operOnly: set<char>)
    ensures SvsRun("", add, t, local, operOnly) == t
  {
  }

  lemma NotOnList(list: seq<Client>, u: Client)
    requires Distinct(list)
    ensures u !in list ==> Delete(list, u) == list
  {
    if u !in list {
      DeleteIsWithout(list, u);
      WithoutNone(list, {u});
    }
  }

  method ChangeUmode(d: Ircd, u: Client, add: bool, c: char, operOnly: set<char>)
    requires Distinct(d.operList) && (u.local && 'o' in u.umodes <==> u in d.operList)
    modifies u`umodes, d`countOper, d`countInvisi, d`operList
    ensures var t := SvsLetter(Tally(old(u.umodes), 0, 0), add, c, u.local, operOnly);
      u.umodes == t.umodes && d.countOper == old(d.countOper) + t.opers &&
        d.countInvisi == old(d.countInvisi) + t.invisible
    ensures Distinct(d.operList) && (u.local && 'o' in u.umodes <==> u in d.operList)
    ensures d.operList == if u in old(d.operList) && u !in d.operList then Delete(old(d.operList), u)
      else old(d.operList)
  {
    match c {
      case 'd' =>
      case 'x' =>
      case 'S' =>
      case 'W' =>
      case 'o' =>
        if !add && 'o' in u.umodes {
          u.umodes := u.umodes - {'o', 'a'};
          d.countOper := d.countOper - 1;
          if u.local {
            u.umodes := u.umodes - operOnly;
            d.operList := Delete(d.operList, u);
          }
        }
      case 'i' =>
        if add && 'i' !in u.umodes {
          u.umodes := u.umodes + {'i'};
          d.countInvisi := d.countInvisi + 1;
        } else if !add && 'i' in u.umodes {
          u.umodes := u.umodes - {'i'};
          d.countInvisi := d.countInvisi - 1;
        }
      case _ =>
        if c in UMODES {
          u.umodes := if add then u.umodes + {c} else u.umodes - {c};
        }
    }
  }

  /** SVSMODE makes no operators. */
  lemma {:induction false} NeverOpers(ml: string, add: bool, t: Tally, local: bool, operOnly: set<char>)
    ensures 'o' in SvsRun(ml, add, t, local, operOnly).umodes ==> 'o' in t.umodes
  {
    if ml != "" {
      if ml[0] == '+' || ml[0] == '-' {
        NeverOpers(ml[1..], ml[0] == '+', t, local, operOnly);
      } else {
        NeverOpers(ml[1..], add, SvsLetter(t, add, ml[0], local, operOnly), local, operOnly);
      }
    }
  }

  lemma OnOperList(n: Network, l: D.Locals, opers: set<Client>, open: set<Client>, u: Client)
    requires D.Directory(n, l, opers, open) && u in n.clients
    ensures Distinct(l.opers) && (u.local && u in opers <==> u in l.opers)
  {
    assert u.local && u in opers <==> u in D.LocalsOf(n.clients) * opers;
    assert u in l.opers <==> u in (set k | k in l.opers);
  }

  /** What SVSMODE leaves uncounted; nothing, if the invisible mode is not taken from those who are no operators. */
  function Uncounted(modes: string, before: set<char>, local: bool, operOnly: set<char>): int {
    Lost(before, SvsRun(modes, true, Tally(before, 0, 0), local, operOnly))
  }

  lemma NoneUncounted(modes: string, before: set<char>, local: bool, operOnly: set<char>)
    requires 'i' !in operOnly
    ensures Uncounted(modes, before, local, operOnly) == 0
  {
    SvsRunRight(modes, true, before, Tally(before, 0, 0), local, operOnly);
  }

  /** SVSMODE keeps the list of operators right, and the counters but for what it leaves uncounted. */
  method SvsmodeKeeps(d: Ircd, u: Client, modes: string, operOnly: set<char>, ghost conn: set<Client>)
    requires Distinct(d.globalClients) && Counted(d) && D.LocalOk(d, conn) && u in d.globalClients && u in d.people
    modifies u`umodes, d`countOper, d`countInvisi, d`lost, d`operList
    ensures Counted(d) && D.LocalOk(d, conn)
    ensures u.umodes == SvsRun(modes, true, Tally(old(u.umodes), 0, 0), u.local, operOnly).umodes
    ensures d.lost == old(d.lost) + Uncounted(modes, old(u.umodes), u.local, operOnly)
  {
    hide Counted, Distinct, D.Directory, SvsRun, Delete, Uncounted, UsersOn, LinksOn;
    OnNodes(d);
    ghost var n, l, opers, s := Net(d), D.LocalsIn(d), D.WithMode(d.people, 'o'), Nodes(d);
    ghost var before := u.umodes;
    OnOperList(n, l, opers, D.Open(conn), u);
    Demoted(n, l, opers, D.Open(conn), u);
    NotOnList(l.opers, u);
    assert u !in opers ==> opers - {u} == opers;
    NeverOpers(modes, true, Tally(before, 0, 0), u.local, operOnly);
    SvsmodeCounts(d, u, modes, operOnly);
    assert D.WithMode(d.people, 'o') == if 'o' in u.umodes then opers else opers - {u};
    assert D.LocalsIn(d) == l.(opers := if u in d.operList then l.opers else Delete(l.opers, u));
    assert Nodes(d) == s;
    OnNodes(d);
  }

  method SvsmodeCounts(d: Ircd, u: Client, modes: string, operOnly: set<char>)
    requires Distinct(d.globalClients) && Counted(d) && u in d.globalClients
    requires Distinct(d.operList) && (u.local && 'o' in u.umodes <==> u in d.operList)
    modifies u`umodes, d`countOper, d`countInvisi, d`lost, d`operList
    ensures Counted(d) && d.lost == old(d.lost) + Uncounted(modes, old(u.umodes), u.local, operOnly)
    ensures u.umodes == SvsRun(modes, true, Tally(old(u.umodes), 0, 0), u.local, operOnly).umodes
    ensures u.local && 'o' in u.umodes <==> u in d.operList
    ensures d.operList == if u in d.operList then old(d.operList) else Delete(old(d.operList), u)
  {
    hide CountMode, Distinct, SvsRun, Delete;
    CountedBy(d, u);
    ghost var opers, invisible := Others(d, u, 'o'), Others(d, u, 'i');
    SvsRunOpers(modes, true, u.umodes, Tally(u.umodes, 0, 0), u.local, operOnly);
    d.lost := d.lost + Uncounted(modes, u.umodes, u.local, operOnly);
    Svsmode(d, u, modes, operOnly);
    assert Others(d, u, 'o') == opers && Others(d, u, 'i') == invisible;
    CountedBy(d, u);
  }
}
