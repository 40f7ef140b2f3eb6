// CAP: reading capability lists, and what REQ, ACK and CLEAR do to a connection.
module CapNegotiation {
  import opened Strings

  datatype Capability = Capability(cap: nat, hidden: bool, prohibit: bool, proto: bool, sticky: bool, name: string)

  function Lower(c: char): char {
    if 'A' <= c <= 'Z' then (c as int + 32) as char else c
  }

  predicate IsSpace(c: char) {
    c == ' ' || '\t' <= c <= '\r'
  }

  /** A C string that ends here reads as NUL. */
  function At(s: string): int {
    if s == "" then 0 else Lower(s[0]) as int
  }

  /** strcasecmp, which orders the table */
  function NameOrder(a: string, b: string): int {
    if At(a) != At(b) then At(a) - At(b)
    else if a == "" || b == "" then 0
    else NameOrder(a[1..], b[1..])
  }

  /** capab_search: the key is the rest of the list, of which only the first word counts. */
  function SearchOrder(key: string, name: string): int {
    if At(key) == At(name) then (if key == "" || name == "" then 0 else SearchOrder(key[1..], name[1..]))
    else if key != "" && IsSpace(key[0]) && name == "" then 0
    else At(key) - At(name)
  }

  predicate Plain(s: string) {
    forall i :: 0 <= i < |s| ==> s[i] != '\0'
  }

  predicate NameOk(s: string) {
    s != "" && forall i :: 0 <= i < |s| ==> s[i] > ' '
  }

  /** The table after qsort: sorted, with different names and different bits. */
  ghost predicate TableOk(table: seq<Capability>) {
    && (forall i :: 0 <= i < |table| ==> NameOk(table[i].name))
    && (forall i, j :: 0 <= i < j < |table| ==> NameOrder(table[i].name, table[j].name) < 0)
    && (forall i, j :: 0 <= i < j < |table| ==> table[i].cap != table[j].cap)
  }

  // ---------------------------------------------------------------- words

  function SkipBlank(s: string): (r: string)
    ensures |r| <= |s| && (r != "" ==> !IsSpace(r[0]))
    ensures Plain(s) ==> Plain(r)
  {
    if s != "" && IsSpace(s[0]) then SkipBlank(s[1..]) else s
  }

  function FirstToken(s: string): (r: string)
    ensures |r| <= |s| && r == s[..|r|]
    ensures |r| < |s| ==> IsSpace(s[|r|])
    ensures forall i :: 0 <= i < |r| ==> !IsSpace(r[i])
    ensures s != "" && !IsSpace(s[0]) ==> r != ""
  {
    if s == "" || IsSpace(s[0]) then "" else [s[0]] + FirstToken(s[1..])
  }

  function Tokens(s: string): seq<string>
    decreases |s|
  {
    var t := SkipBlank(s);
    if t == "" then [] else [FirstToken(t)] + Tokens(t[|FirstToken(t)|..])
  }

  /** The order in which the binary search compares is that of the first word with the name. */
  lemma {:induction false} SearchAgrees(key: string, name: string)
    requires Plain(key) && forall i :: 0 <= i < |name| ==> name[i] > ' '
    ensures SearchOrder(key, name) < 0 <==> NameOrder(FirstToken(key), name) < 0
    ensures SearchOrder(key, name) == 0 <==> NameOrder(FirstToken(key), name) == 0
  {
    if key == "" || IsSpace(key[0]) {
    } else if name == "" {
    } else if At(key) == At(name) {
      SearchAgrees(key[1..], name[1..]);
      assert FirstToken(key)[1..] == FirstToken(key[1..]);
    }
  }

  // ---------------------------------------------------------------- looking a name up

  /** The capability with that name, whatever its case. */
  function Lookup(table: seq<Capability>, name: string): Option<Capability> {
    if table == [] then None
    else if NameOrder(name, table[0].name) == 0 then Some(table[0])
    else Lookup(table[1..], name)
  }

  lemma {:induction false} OrderThrough(a: string, b: string, c: string)
    requires NameOrder(a, b) <= 0 && NameOrder(b, c) < 0
    requires Plain(a) && Plain(b) && Plain(c)
    ensures NameOrder(a, c) < 0
  {
    if At(a) == At(b) == At(c) && a != "" { OrderThrough(a[1..], b[1..], c[1..]); }
  }

  lemma {:induction false} OrderTurns(a: string, b: string)
    requires Plain(a) && Plain(b)
    ensures NameOrder(a, b) < 0 <==> NameOrder(b, a) > 0
    ensures NameOrder(a, b) == 0 <==> NameOrder(b, a) == 0
  {
    if At(a) == At(b) && a != "" { OrderTurns(a[1..], b[1..]); }
  }

  lemma {:induction false} LookupAt(table: seq<Capability>, name: string, i: nat)
    requires i < |table| && NameOrder(name, table[i].name) == 0
    requires forall j :: 0 <= j < i ==> NameOrder(name, table[j].name) != 0
    ensures Lookup(table, name) == Some(table[i])
  {
    if i > 0 { LookupAt(table[1..], name, i - 1); }
  }

  lemma {:induction false} LookupNone(table: seq<Capability>, name: string)
    requires forall j :: 0 <= j < |table| ==> NameOrder(name, table[j].name) != 0
    ensures Lookup(table, name) == None
  {
    if table != [] { LookupNone(table[1..], name); }
  }

  lemma NamePlain(s: string)
    requires NameOk(s)
    ensures Plain(s)
  {
  }

  /** Names before one that is not after the word are not the word; names after one not before it neither. */
  lemma Excluded(table: seq<Capability>, word: string, k: nat)
    requires TableOk(table) && Plain(word) && k < |table|
    ensures NameOrder(word, table[k].name) > 0 ==> forall j :: 0 <= j < k ==> NameOrder(word, table[j].name) > 0
    ensures NameOrder(word, table[k].name) <= 0 ==> forall j :: k < j < |table| ==> NameOrder(word, table[j].name) < 0
    ensures NameOrder(word, table[k].name) == 0 ==> forall j :: 0 <= j < k ==> NameOrder(word, table[j].name) > 0
  {
    NamePlain(table[k].name);
    OrderTurns(word, table[k].name);
    forall j | 0 <= j < k && NameOrder(word, table[k].name) >= 0 ensures NameOrder(word, table[j].name) > 0 {
      NamePlain(table[j].name);
      OrderTurns(word, table[j].name);
      Backwards(table[j].name, table[k].name, word);
    }
    forall j | k < j < |table| && NameOrder(word, table[k].name) <= 0 ensures NameOrder(word, table[j].name) < 0 {
      NamePlain(table[j].name);
      OrderThrough(word, table[k].name, table[j].name);
    }
  }

  lemma {:induction false} Backwards(a: string, b: string, c: string)
    requires NameOrder(a, b) < 0 && NameOrder(b, c) <= 0
    requires Plain(a) && Plain(b) && Plain(c)
    ensures NameOrder(a, c) < 0
  {
    if At(a) == At(b) == At(c) && a != "" { Backwards(a[1..], b[1..], c[1..]); }
  }

  lemma {:induction false} SameNameLength(a: string, b: string)
    requires NameOrder(a, b) == 0 && Plain(a) && Plain(b)
    ensures |a| == |b|
  {
    if a != "" && b != "" { SameNameLength(a[1..], b[1..]); }
  }

  /** bsearch with capab_search finds what a search of the whole table for the first word finds. */
  method BSearch(table: seq<Capability>, key: string) returns (cap: Option<Capability>)
    requires TableOk(table) && Plain(key)
    ensures cap == Lookup(table, FirstToken(key))
    ensures cap.Some? ==> |FirstToken(key)| == |cap.value.name|
  {
    ghost var word := FirstToken(key);
    var l, u := 0, |table|;
    while l < u
      invariant 0 <= l <= u <= |table|
      invariant forall j :: 0 <= j < l ==> NameOrder(word, table[j].name) > 0
      invariant forall j :: u <= j < |table| ==> NameOrder(word, table[j].name) < 0
    {
      var idx := (l + u) / 2;
      var comparison := SearchOrder(key, table[idx].name);
      SearchAgrees(key, table[idx].name);
      Excluded(table, word, idx);
      if comparison < 0 {
        u := idx;
      } else if comparison > 0 {
        l := idx + 1;
      } else {
        LookupAt(table, word, idx);
        NamePlain(table[idx].name);
        SameNameLength(word, table[idx].name);
        return Some(table[idx]);
      }
    }
    LookupNone(table, word);
    return None;
  }

  // ---------------------------------------------------------------- find_cap

  /** One element of a list: whether it is negative, and the capability it names, if any. */
  datatype Element = Element(neg: bool, cap: Option<Capability>)

  function Read(table: seq<Capability>, word: string): Element {
    if word != "" && word[0] == '-' then Element(true, Lookup(table, word[1..]))
    else Element(false, Lookup(table, word))
  }

  function ReadAll(table: seq<Capability>, words: seq<string>): seq<Element> {
    if words == [] then [] else [Read(table, words[0])] + ReadAll(table, words[1..])
  }

  /** The elements of a list; a blank list has one, which names nothing. */
  function Elements(table: seq<Capability>, list: string): seq<Element> {
    if Tokens(list) == [] then [Element(false, None)] else ReadAll(table, Tokens(list))
  }

  lemma TokenAfterSign(t: string)
    requires t != "" && t[0] == '-'
    ensures FirstToken(t) == "-" + FirstToken(t[1..])
  {
  }

  lemma {:induction false} EmptyUnknown(table: seq<Capability>)
    requires forall i :: 0 <= i < |table| ==> NameOk(table[i].name)
    ensures Lookup(table, "") == None
  {
    if table != [] {
      assert NameOk(table[0].name);
      EmptyUnknown(table[1..]);
    }
  }

  lemma {:induction false} SkipTwice(s: string)
    ensures SkipBlank(SkipBlank(s)) == SkipBlank(s) && Tokens(SkipBlank(s)) == Tokens(s)
  {
    if s != "" && IsSpace(s[0]) { SkipTwice(s[1..]); }
  }

  /** The elements of a list are its first word's and those of what follows the word. */
  lemma ElementsSplit(table: seq<Capability>, list: string, gap: string)
    requires SkipBlank(list) != "" && gap == SkipBlank(list)[|FirstToken(SkipBlank(list))|..]
    ensures var rest := SkipBlank(gap);
      Elements(table, list) ==
        [Read(table, FirstToken(SkipBlank(list)))] + (if rest == "" then [] else Elements(table, rest))
    ensures SkipBlank(gap) != "" ==> Tokens(SkipBlank(gap)) != []
  {
    SkipTwice(gap);
    var w, rest := FirstToken(SkipBlank(list)), SkipBlank(gap);
    assert Tokens(list) == [w] + Tokens(gap) && ([w] + Tokens(gap))[1..] == Tokens(gap);
    assert Elements(table, list) == [Read(table, w)] + ReadAll(table, Tokens(gap));
    assert rest == "" ==> Tokens(gap) == [];
  }

  method StripBlank(list: string) returns (caplist: string)
    ensures caplist == SkipBlank(list)
  {
    caplist := list;
    while caplist != "" && IsSpace(caplist[0])
      invariant SkipBlank(caplist) == SkipBlank(list)
      decreases |caplist|
    {
      caplist := caplist[1..];
    }
  }

  method StripWord(list: string) returns (caplist: string)
    ensures caplist == list[|FirstToken(list)|..]
  {
    caplist := list;
    while caplist != "" && !IsSpace(caplist[0])
      invariant |caplist| <= |list| && caplist == list[|list| - |caplist|..]
      invariant |list| - |caplist| + |FirstToken(caplist)| == |FirstToken(list)|
      decreases |caplist|
    {
      caplist := caplist[1..];
    }
  }

  /** The first word: its sign is stepped past, the rest looked up and stepped past as well. */
  method TakeWord(table: seq<Capability>, start: string) returns (neg: bool, cap: Option<Capability>, caplist: string)
    requires TableOk(table) && Plain(start)
    ensures Read(table, FirstToken(start)) == Element(neg, cap)
    ensures caplist == start[|FirstToken(start)|..]
  {
    EmptyUnknown(table);
    caplist, neg, cap := start, false, None;
    if caplist != "" && caplist[0] == '-' {
      TokenAfterSign(caplist);
      caplist := caplist[1..];
      neg := true;
    }
    if caplist != "" {
      cap := BSearch(table, caplist);
      if cap.None? {
        caplist := StripWord(caplist);
      } else {
        caplist := caplist[|cap.value.name|..];
      }
    }
  }

  lemma PlainRest(s: string, n: nat)
    requires Plain(s) && n <= |s|
    ensures Plain(s[n..])
  {
  }

  /** find_cap: the first element, and the rest of the list unless it is used up. */
  method FindCap(table: seq<Capability>, list: string) returns (e: Element, rest: Option<string>)
    requires TableOk(table) && Plain(list)
    ensures [e] + (if rest.Some? then Elements(table, rest.value) else []) == Elements(table, list)
    ensures rest.Some? ==> |rest.value| < |list| && Plain(rest.value) && Tokens(rest.value) != []
  {
    hide TableOk, Read, Lookup;
    var caplist := StripBlank(list);
    ghost var start := caplist;
    if caplist == "" {
      return Element(false, None), None;
    }
    var neg, cap;
    neg, cap, caplist := TakeWord(table, caplist);
    ElementsSplit(table, list, caplist);
    PlainRest(start, |FirstToken(start)|);
    caplist := StripBlank(caplist);
    e := Element(neg, cap);
    rest := if caplist == "" then None else Some(caplist);
  }

  // ---------------------------------------------------------------- REQ

  /** The bits of a request so far: to be set, to be removed, and the two masks of the connection. */
  datatype Request = Request(add: set<nat>, rem: set<nat>, client: set<nat>, active: set<nat>)

  predicate Refused(e: Element) {
    e.cap.None? || (!e.neg && e.cap.value.prohibit) || (e.neg && e.cap.value.sticky)
  }

  function Ask(r: Request, e: Element): Request
    requires e.cap.Some?
  {
    var bit := {e.cap.value.cap};
    if e.neg then
      Request(r.add - bit, r.rem + bit, r.client - bit, if e.cap.value.proto then r.active else r.active - bit)
    else
      Request(r.add + bit, r.rem - bit, r.client + bit, if e.cap.value.proto then r.active else r.active + bit)
  }

  /** The whole list; None if any element is refused. */
  function AskAll(r: Request, list: seq<Element>): Option<Request>
    decreases |list|
  {
    if list == [] then Some(r)
    else if Refused(list[0]) then None
    else AskAll(Ask(r, list[0]), list[1..])
  }

  /** Does the last mention of the bit in the list ask for it (`neg` false) or against it? */
  predicate LastMention(list: seq<Element>, bit: nat, neg: bool) {
    list != [] &&
    (LastMention(list[1..], bit, neg) ||
     (list[0].cap.Some? && list[0].cap.value.cap == bit && list[0].neg == neg && !LastMention(list[1..], bit, !neg)))
  }

  predicate Mentioned(list: seq<Element>, bit: nat) {
    exists i :: 0 <= i < |list| && list[i].cap.Some? && list[i].cap.value.cap == bit
  }

  lemma {:induction false} OneLastMention(list: seq<Element>, bit: nat)
    ensures !(LastMention(list, bit, true) && LastMention(list, bit, false))
    ensures LastMention(list, bit, true) || LastMention(list, bit, false) <==> Mentioned(list, bit)
  {
    if list != [] {
      OneLastMention(list[1..], bit);
      assert Mentioned(list, bit) <==>
        (list[0].cap.Some? && list[0].cap.value.cap == bit) || Mentioned(list[1..], bit);
    }
  }

  /** An accepted request leaves (old minus removed) plus set; the two are disjoint; the last mention decides. */
  lemma {:induction false} AskAllMeans(r: Request, list: seq<Element>, bit: nat)
    requires AskAll(r, list).Some?
    decreases |list|
    ensures var q := AskAll(r, list).value;
      && (bit in q.add <==> LastMention(list, bit, false) || (bit in r.add && !LastMention(list, bit, true)))
      && (bit in q.rem <==> LastMention(list, bit, true) || (bit in r.rem && !LastMention(list, bit, false)))
      && (bit in q.client <==> LastMention(list, bit, false) || (bit in r.client && !LastMention(list, bit, true)))
  {
    if list != [] {
      OneLastMention(list[1..], bit);
      AskAllMeans(Ask(r, list[0]), list[1..], bit);
    }
  }

  lemma RequestExact(client: set<nat>, active: set<nat>, list: seq<Element>)
    requires AskAll(Request({}, {}, client, active), list).Some?
    ensures var q := AskAll(Request({}, {}, client, active), list).value;
      && q.add !! q.rem && q.client == (client - q.rem) + q.add
      && (forall bit :: bit in q.add <==> LastMention(list, bit, false))
      && (forall bit :: bit in q.rem <==> LastMention(list, bit, true))
  {
    var q := AskAll(Request({}, {}, client, active), list).value;
    forall bit: nat
      ensures (bit in q.add <==> LastMention(list, bit, false)) && (bit in q.rem <==> LastMention(list, bit, true))
      ensures !(bit in q.add && bit in q.rem) && (bit in q.client <==> bit in (client - q.rem) + q.add)
    {
      AskAllMeans(Request({}, {}, client, active), list, bit);
      OneLastMention(list, bit);
    }
  }

  lemma {:induction false} RefusedStops(r: Request, list: seq<Element>)
    ensures AskAll(r, list) == None <==> exists i :: 0 <= i < |list| && Refused(list[i])
    decreases |list|
  {
    if list != [] && !Refused(list[0]) {
      RefusedStops(Ask(r, list[0]), list[1..]);
      if i: nat :| i < |list| && Refused(list[i]) { assert Refused(list[1..][i - 1]); }
      if i: nat :| i < |list[1..]| && Refused(list[1..][i]) { assert Refused(list[i + 1]); }
    }
  }

  // ---------------------------------------------------------------- the connection, over all runs

  /** What is sent back: a refusal with the list as it came, or an acknowledgement of the changes. */
  datatype Answer = Nak(list: string) | Ack(add: set<nat>, rem: set<nat>)

  /** Capabilities that need no acknowledgement are active exactly when set; prohibited ones are never set. */
  ghost predicate Settled(table: seq<Capability>, client: set<nat>, active: set<nat>) {
    forall i :: 0 <= i < |table| ==>
      && (!table[i].proto ==> (table[i].cap in client <==> table[i].cap in active))
      && (table[i].prohibit ==> table[i].cap !in client && table[i].cap !in active)
  }

  /** Sticky capabilities that were set stay set. */
  ghost predicate Sticks(table: seq<Capability>, client: set<nat>, active: set<nat>, client': set<nat>,
      active': set<nat>) {
    forall i :: 0 <= i < |table| && table[i].sticky ==>
      (table[i].cap in client ==> table[i].cap in client') && (table[i].cap in active ==> table[i].cap in active')
  }

  ghost predicate FromTable(table: seq<Capability>, list: seq<Element>) {
    forall i :: 0 <= i < |list| && list[i].cap.Some? ==> list[i].cap.value in table
  }

  lemma {:induction false} LookupInTable(table: seq<Capability>, name: string)
    ensures Lookup(table, name).Some? ==> Lookup(table, name).value in table
  {
    if table != [] { LookupInTable(table[1..], name); }
  }

  lemma {:induction false} ReadFromTable(table: seq<Capability>, words: seq<string>)
    ensures FromTable(table, ReadAll(table, words))
  {
    if words != [] {
      ReadFromTable(table, words[1..]);
      LookupInTable(table, words[0]);
      if words[0] != "" { LookupInTable(table, words[0][1..]); }
    }
  }

  lemma ElementsFromTable(table: seq<Capability>, list: string)
    ensures FromTable(table, Elements(table, list))
  {
    ReadFromTable(table, Tokens(list));
  }

  lemma SameBit(table: seq<Capability>, i: nat, c: Capability)
    requires TableOk(table) && i < |table| && c in table && table[i].cap == c.cap
    ensures c == table[i]
  {
  }

  lemma AskSettled(table: seq<Capability>, r: Request, e: Element)
    requires TableOk(table) && Settled(table, r.client, r.active) && !Refused(e) && e.cap.value in table
    ensures Settled(table, Ask(r, e).client, Ask(r, e).active)
    ensures Sticks(table, r.client, r.active, Ask(r, e).client, Ask(r, e).active)
  {
    forall i | 0 <= i < |table| && table[i].cap == e.cap.value.cap ensures table[i] == e.cap.value {
      SameBit(table, i, e.cap.value);
    }
  }

  lemma {:induction false} AskAllSettled(table: seq<Capability>, r: Request, list: seq<Element>)
    requires TableOk(table) && Settled(table, r.client, r.active) && FromTable(table, list) && AskAll(r, list).Some?
    ensures var q := AskAll(r, list).value;
      Settled(table, q.client, q.active) && Sticks(table, r.client, r.active, q.client, q.active)
    decreases |list|
  {
    hide TableOk;
    if list != [] {
      AskSettled(table, r, list[0]);
      AskAllSettled(table, Ask(r, list[0]), list[1..]);
    }
  }

  /** One element of an acknowledgement by the client. */
  function Confirm(client: set<nat>, active: set<nat>, e: Element): set<nat> {
    if e.cap.None? then active
    else
      var c := e.cap.value;
      if e.neg then (if c.cap in client || c.sticky then active else active - {c.cap})
      else if c.cap !in client || c.prohibit then active
      else active + {c.cap}
  }

  function ConfirmAll(client: set<nat>, active: set<nat>, list: seq<Element>): set<nat>
    decreases |list|
  {
    if list == [] then active else ConfirmAll(client, Confirm(client, active, list[0]), list[1..])
  }

  lemma {:induction false} ConfirmAllSettled(table: seq<Capability>, client: set<nat>, active: set<nat>,
      list: seq<Element>)
    requires TableOk(table) && Settled(table, client, active) && FromTable(table, list)
    ensures Settled(table, client, ConfirmAll(client, active, list))
    ensures Sticks(table, client, active, client, ConfirmAll(client, active, list))
    decreases |list|
  {
    if list != [] {
      var e, next := list[0], Confirm(client, active, list[0]);
      forall i | 0 <= i < |table| && e.cap.Some? && table[i].cap == e.cap.value.cap ensures table[i] == e.cap.value {
        SameBit(table, i, e.cap.value);
      }
      assert Settled(table, client, next);
      ConfirmAllSettled(table, client, next, list[1..]);
    }
  }

  /** What CLEAR clears: everything set that is not sticky. */
  function Clearable(table: seq<Capability>, client: set<nat>): set<nat> {
    set i | 0 <= i < |table| && table[i].cap in client && !table[i].sticky :: table[i].cap
  }

  class Connection {
    var capClient: set<nat>
    var capActive: set<nat>
    var answers: seq<Answer>

    constructor ()
      ensures capClient == capActive == {} && answers == []
      ensures forall table :: Settled(table, capClient, capActive)
    {
      capClient, capActive, answers := {}, {}, [];
    }

    /** cap_req: the whole list is accepted, or nothing changes. */
    method CapReq(table: seq<Capability>, caplist: Option<string>)
      requires TableOk(table) && (caplist.Some? ==> Plain(caplist.value)) && Settled(table, capClient, capActive)
      modifies this
      ensures Settled(table, capClient, capActive)
      ensures Sticks(table, old(capClient), old(capActive), capClient, capActive)
      ensures var list := if caplist.None? then [] else Elements(table, caplist.value);
        var q := AskAll(Request({}, {}, old(capClient), old(capActive)), list);
        if q.None? then
          capClient == old(capClient) && capActive == old(capActive) && answers == old(answers) + [Nak(caplist.value)]
        else
          capClient == q.value.client && capActive == q.value.active &&
            answers == old(answers) + [Ack(q.value.add, q.value.rem)]
    {
      hide TableOk, Elements, Settled, Sticks, FromTable, Ask;
      ghost var list := if caplist.None? then [] else Elements(table, caplist.value);
      ghost var start := Request({}, {}, capClient, capActive);
      if caplist.Some? { ElementsFromTable(table, caplist.value); } else { NothingFromTable(table); }
      StaysSettled(table, start, list);
      var cl, r := caplist, Request({}, {}, capClient, capActive);
      ghost var left := list;
      while cl.Some?
        invariant cl.Some? ==> Plain(cl.value) && left == Elements(table, cl.value) && caplist.Some?
        invariant cl.None? ==> left == []
        invariant AskAll(r, left) == AskAll(start, list)
        invariant capClient == old(capClient) && capActive == old(capActive) && answers == old(answers)
        decreases if cl.Some? then |cl.value| + 1 else 0
      {
        var e, rest := FindCap(table, cl.value);
        FirstOf(e, left);
        if Refused(e) {
          answers := answers + [Nak(caplist.value)];
          return;
        }
        r := Ask(r, e);
        cl := rest;
        left := left[1..];
      }
      answers := answers + [Ack(r.add, r.rem)];
      capClient, capActive := r.client, r.active;
    }

    /** cap_ack: the client confirms changes that it must confirm. */
    method CapAck(table: seq<Capability>, caplist: Option<string>)
      requires TableOk(table) && (caplist.Some? ==> Plain(caplist.value)) && Settled(table, capClient, capActive)
      modifies this`capActive
      ensures Settled(table, capClient, capActive)
      ensures Sticks(table, capClient, old(capActive), capClient, capActive)
      ensures capActive ==
        ConfirmAll(capClient, old(capActive), if caplist.None? then [] else Elements(table, caplist.value))
    {
      hide TableOk, Elements, Settled, Sticks, FromTable;
      ghost var list := if caplist.None? then [] else Elements(table, caplist.value);
      if caplist.Some? { ElementsFromTable(table, caplist.value); } else { NothingFromTable(table); }
      ConfirmAllSettled(table, capClient, capActive, list);
      var cl := caplist;
      ghost var left := list;
      while cl.Some?
        invariant cl.Some? ==> Plain(cl.value) && left == Elements(table, cl.value)
        invariant cl.None? ==> left == []
        invariant ConfirmAll(capClient, capActive, left) == ConfirmAll(capClient, old(capActive), list)
        decreases if cl.Some? then |cl.value| + 1 else 0
      {
        var e, rest := FindCap(table, cl.value);
        FirstOf(e, left);
        cl := rest;
        left := left[1..];
        if e.cap.None? || (if e.neg then e.cap.value.cap in capClient else e.cap.value.cap !in capClient) {
          continue;
        }
        if e.neg {
          if e.cap.value.sticky {
            continue;
          }
          capActive := capActive - {e.cap.value.cap};
        } else {
          if e.cap.value.prohibit {
            continue;
          }
          capActive := capActive + {e.cap.value.cap};
        }
      }
    }

    /** cap_clear */
    method CapClear(table: seq<Capability>)
      requires TableOk(table) && Settled(table, capClient, capActive)
      modifies this
      ensures Settled(table, capClient, capActive)
      ensures Sticks(table, old(capClient), old(capActive), capClient, capActive)
      ensures capClient == old(capClient) - Clearable(table, old(capClient))
      ensures answers == old(answers) + [Ack({}, Clearable(table, old(capClient)))]
    {
      var cleared := {};
      for i := 0 to |table|
        invariant cleared == Clearable(table[..i], old(capClient)) && capClient == old(capClient) - cleared
        invariant answers == old(answers)
        invariant Settled(table, capClient, capActive)
        invariant Sticks(table, old(capClient), old(capActive), capClient, capActive)
      {
        var c := table[i];
        assert table[..i + 1] == table[..i] + [c];
        ClearableSnoc(table[..i], c, old(capClient));
        if c.cap !in capClient || c.sticky {
          continue;
        }
        cleared := cleared + {c.cap};
        capClient := capClient - {c.cap};
        if !c.proto {
          capActive := capActive - {c.cap};
        }
      }
      assert table[..|table|] == table;
      answers := answers + [Ack({}, cleared)];
    }

    /** Any sequence of the three, from any point on: what is settled stays settled and what sticks stays set. */
    method Serve(table: seq<Capability>, commands: seq<Command>)
      requires TableOk(table) && Settled(table, capClient, capActive)
      requires forall i :: 0 <= i < |commands| ==> CommandOk(commands[i])
      modifies this
      ensures Settled(table, capClient, capActive)
      ensures Sticks(table, old(capClient), old(capActive), capClient, capActive)
    {
      for i := 0 to |commands|
        invariant Settled(table, capClient, capActive)
        invariant Sticks(table, old(capClient), old(capActive), capClient, capActive)
      {
        match commands[i] {
          case Req(list) => CapReq(table, list);
          case AckBy(list) => CapAck(table, list);
          case Clear => CapClear(table);
        }
      }
    }
  }

  /** The subcommands that change a connection. */
  datatype Command = Req(list: Option<string>) | AckBy(list: Option<string>) | Clear

  predicate CommandOk(c: Command) {
    c.Req? || c.AckBy? ==> c.list.Some? ==> Plain(c.list.value)
  }

  lemma ClearableSnoc(table: seq<Capability>, c: Capability, client: set<nat>)
    ensures Clearable(table + [c], client) ==
      Clearable(table, client) + if c.cap in client && !c.sticky then {c.cap} else {}
  {
    forall bit | bit in Clearable(table, client) ensures bit in Clearable(table + [c], client) {
      var i :| 0 <= i < |table| && table[i].cap == bit && table[i].cap in client && !table[i].sticky;
      assert (table + [c])[i] == table[i];
    }
    if c.cap in client && !c.sticky { assert (table + [c])[|table|] == c; }
  }

  lemma FirstOf(e: Element, left: seq<Element>)
    requires left != [] && e == left[0]
    ensures left == [e] + left[1..]
  {
  }

  lemma NothingFromTable(table: seq<Capability>)
    ensures FromTable(table, [])
  {
  }

  lemma StaysSettled(table: seq<Capability>, r: Request, list: seq<Element>)
    requires TableOk(table) && Settled(table, r.client, r.active) && FromTable(table, list)
    ensures AskAll(r, list).Some? ==>
      var q := AskAll(r, list).value;
      Settled(table, q.client, q.active) && Sticks(table, r.client, r.active, q.client, q.active)
    ensures Sticks(table, r.client, r.active, r.client, r.active)
  {
    if AskAll(r, list).Some? { AskAllSettled(table, r, list); }
  }

  // ---------------------------------------------------------------- send_caplist

  /** What a list shows: the bits asked for or, when none are given, everything that is not hidden. */
  predicate Shown(c: Capability, add: Option<set<nat>>, rem: Option<set<nat>>) {
    || (rem.Some? && c.cap in rem.value) || (add.Some? && c.cap in add.value)
    || (add.None? && rem.None? && !c.hidden)
  }

  function Word(c: Capability, rem: Option<set<nat>>): string {
    (if rem.Some? && c.cap in rem.value then "-"
     else (if c.proto then "~" else "") + (if c.sticky then "=" else "")) + c.name
  }

  /** The words of the list, in the order of the table. */
  function ShownWords(table: seq<Capability>, add: Option<set<nat>>, rem: Option<set<nat>>): seq<string> {
    if table == [] then []
    else
      var c := table[|table| - 1];
      ShownWords(table[..|table| - 1], add, rem) + if Shown(c, add, rem) then [Word(c, rem)] else []
  }

  function Together(parts: seq<string>): string {
    if parts == [] then "" else Together(parts[..|parts| - 1]) + parts[|parts| - 1]
  }

  lemma TogetherSnoc(parts: seq<string>, s: string)
    ensures Together(parts + [s]) == Together(parts) + s
  {
    assert (parts + [s])[..|parts|] == parts;
  }

  lemma ShownSnoc(table: seq<Capability>, i: nat, add: Option<set<nat>>, rem: Option<set<nat>>)
    requires i < |table|
    ensures ShownWords(table[..i + 1], add, rem) ==
      if Shown(table[i], add, rem) then ShownWords(table[..i], add, rem) + [Word(table[i], rem)]
      else ShownWords(table[..i], add, rem)
  {
    assert table[..i + 1][..i] == table[..i];
  }

  lemma JoinedSnoc(words: seq<string>, w: string)
    ensures Join(words + [w]) == if Join(words) == "" then w else Join(words) + " " + w
  {
    assert (words + [w])[..|words|] == words;
  }

  /** send_caplist: the texts of the lines, one after the other, are the list with single spaces, wherever it had to
      be broken; and every line leaves room for what is sent around it. `clen` is the length before the text. */
  method SendCaplist(table: seq<Capability>, clen: nat, add: Option<set<nat>>, rem: Option<set<nat>>)
    returns (texts: seq<string>)
    requires forall i :: 0 <= i < |table| ==> table[i].name != "" && clen + |table[i].name| + 18 <= 512
    requires clen + 15 <= 512
    ensures Together(texts) == Join(ShownWords(table, add, rem))
    ensures texts != [] && forall i :: 0 <= i < |texts| ==> clen + |texts[i]| + 15 <= 512
  {
    hide Join, Together, ShownWords, Shown;
    var capbuf := "";
    texts := [];
    ghost var words: seq<string> := [];
    NothingShown(add, rem);
    for i := 0 to |table|
      invariant words == ShownWords(table[..i], add, rem)
      invariant Together(texts) + capbuf == Join(words)
      invariant capbuf == "" ==> Join(words) == ""
      invariant clen + |capbuf| + 15 <= 512
      invariant forall k :: 0 <= k < |texts| ==> clen + |texts[k]| + 15 <= 512
    {
      ShownSnoc(table, i, add, rem);
      if !Shown(table[i], add, rem) {
        continue;
      }
      var piece := (if capbuf != "" then " " else "") + Word(table[i], rem);
      JoinedSnoc(words, Word(table[i], rem));
      words := words + [Word(table[i], rem)];
      if 512 < clen + |capbuf| + |piece| + 15 {
        TogetherSnoc(texts, capbuf);
        texts := texts + [capbuf];
        capbuf := "";
      }
      capbuf := capbuf + piece;
    }
    assert table[..|table|] == table;
    TogetherSnoc(texts, capbuf);
    texts := texts + [capbuf];
  }

  lemma NothingShown(add: Option<set<nat>>, rem: Option<set<nat>>)
    ensures ShownWords([], add, rem) == [] && Join([]) == "" && Together([]) == ""
  {
  }
}
