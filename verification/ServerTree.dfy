// The servers and users of the network as a tree, and what a netsplit takes out of it.
module ServerTree {
  import opened Lists
  import opened Entities

  /** The global lists, and for every server (this one included) who and what is directly on it. */
  datatype Network = Network(
    me: Client, clients: seq<Client>, servers: seq<Client>,
    users: map<Client, seq<Client>>, links: map<Client, seq<Client>>, dead: seq<Client>)

  ghost predicate Hangs(n: Network, x: Client) {
    && x.servptr != null && x.servptr.depth < x.depth
    && x.servptr in n.users && x.servptr in n.links
    && x in (if x.server then n.links[x.servptr] else n.users[x.servptr])
  }

  ghost predicate Holds(n: Network, s: Client)
    requires s in n.users && s in n.links
  {
    && Distinct(n.users[s]) && (forall u :: u in n.users[s] ==> u in n.clients && u.servptr == s)
    && Distinct(n.links[s]) && (forall t :: t in n.links[s] ==> t in n.servers && t.servptr == s)
  }

  /** Every user and server hangs once in the list of the server it is on, and is not dead. */
  ghost predicate Rooted(n: Network) {
    && Distinct(n.clients) && Distinct(n.servers) && Distinct(n.dead)
    && n.me !in n.servers && n.me.servptr == null && n.me !in n.dead
    && n.users.Keys == n.links.Keys == {n.me} + (set s | s in n.servers)
    && (forall u :: u in n.clients ==> !u.server && Hangs(n, u) && u !in n.dead)
    && (forall s :: s in n.servers ==> s.server && Hangs(n, s) && s !in n.dead)
    && (forall s :: s in n.users ==> Holds(n, s))
  }

  predicate Listed(n: Network, x: Client) {
    x in n.clients || x in n.servers
  }

  /** Is x the server s, or on it, or behind it? */
  predicate InSubtree(x: Client, s: Client)
    decreases x.depth
  {
    x == s || (x.servptr != null && x.servptr.depth < x.depth && InSubtree(x.servptr, s))
  }

  /** Everyone behind s. */
  ghost function Below(n: Network, s: Client): set<Client> {
    (set x | x in n.clients && x != s && InSubtree(x, s)) + (set x | x in n.servers && x != s && InSubtree(x, s))
  }

  // ---------------------------------------------------------------- taking some away

  ghost function TakeLists(lists: map<Client, seq<Client>>, gone: set<Client>): map<Client, seq<Client>> {
    map s | s in lists && s !in gone :: Without(lists[s], gone)
  }

  ghost function Take(n: Network, gone: set<Client>, dead: seq<Client>): Network {
    Network(n.me, Without(n.clients, gone), Without(n.servers, gone),
            TakeLists(n.users, gone), TakeLists(n.links, gone), dead)
  }

  lemma TakeListsTwice(lists: map<Client, seq<Client>>, a: set<Client>, b: set<Client>)
    ensures TakeLists(TakeLists(lists, a), b) == TakeLists(lists, a + b)
  {
    hide Without;
    forall s | s in lists ensures Without(Without(lists[s], a), b) == Without(lists[s], a + b) {
      WithoutTwice(lists[s], a, b);
    }
  }

  lemma TakeTwice(n: Network, a: set<Client>, b: set<Client>, dead: seq<Client>, dead': seq<Client>)
    ensures Take(Take(n, a, dead), b, dead') == Take(n, a + b, dead')
  {
    hide Without, TakeLists;
    WithoutTwice(n.clients, a, b);
    WithoutTwice(n.servers, a, b);
    TakeListsTwice(n.users, a, b);
    TakeListsTwice(n.links, a, b);
  }

  lemma TakeNothing(lists: map<Client, seq<Client>>)
    ensures TakeLists(lists, {}) == lists
  {
    forall s | s in lists ensures Without(lists[s], {}) == lists[s] { WithoutNone(lists[s], {}); }
  }

  lemma TakeNone(n: Network)
    ensures Take(n, {}, n.dead) == n
  {
    hide TakeLists;
    WithoutNone(n.clients, {});
    WithoutNone(n.servers, {});
    TakeNothing(n.users);
    TakeNothing(n.links);
  }

  /** Nobody is left on or behind the server x (vacuous for a user). */
  ghost predicate Leaf(n: Network, x: Client) {
    x != n.me && (x in n.users ==> n.users[x] == []) && (x in n.links ==> n.links[x] == [])
  }

  lemma TakeOneHangs(n: Network, x: Client, dead: seq<Client>, y: Client)
    requires Rooted(n) && Listed(n, x) && Leaf(n, x) && Listed(n, y) && y != x
    ensures Hangs(Take(n, {x}, dead), y)
  {
    assert Hangs(n, y);
    assert Holds(n, y.servptr);
  }

  lemma TakeOneHolds(n: Network, x: Client, dead: seq<Client>, s: Client)
    requires Rooted(n) && Listed(n, x) && Leaf(n, x) && s in n.users && s != x
    ensures s in Take(n, {x}, dead).users && s in Take(n, {x}, dead).links && Holds(Take(n, {x}, dead), s)
  {
    assert Holds(n, s);
    WithoutDistinct(n.users[s], {x});
    WithoutDistinct(n.links[s], {x});
  }

  /** Taking a user, or a server with nothing behind it, leaves a rooted tree. */
  lemma TakeOneRooted(n: Network, x: Client)
    requires Rooted(n) && Listed(n, x) && Leaf(n, x)
    ensures Rooted(Take(n, {x}, [x] + n.dead))
  {
    hide Hangs, Holds, Without;
    var m := Take(n, {x}, [x] + n.dead);
    WithoutDistinct(n.clients, {x});
    WithoutDistinct(n.servers, {x});
    forall u | u in m.clients ensures !u.server && Hangs(m, u) && u !in m.dead { TakeOneHangs(n, x, m.dead, u); }
    forall s | s in m.servers ensures s.server && Hangs(m, s) && s !in m.dead { TakeOneHangs(n, x, m.dead, s); }
    forall s | s in m.users ensures s in m.links && Holds(m, s) { TakeOneHolds(n, x, m.dead, s); }
    TakeKeys(n, x, m.dead);
  }

  lemma TakeKeys(n: Network, x: Client, dead: seq<Client>)
    requires n.users.Keys == n.links.Keys == {n.me} + (set s | s in n.servers) && x != n.me
    ensures var m := Take(n, {x}, dead); m.users.Keys == m.links.Keys == {m.me} + (set s | s in m.servers)
  {
  }

  // ---------------------------------------------------------------- who is behind a server

  /** Once nothing is directly on s, nothing is behind it. */
  lemma {:induction false} NothingBehind(n: Network, s: Client, x: Client)
    requires Rooted(n) && s in n.users && n.users[s] == [] && s in n.links && n.links[s] == []
    requires Listed(n, x) && x != s
    ensures !InSubtree(x, s)
    decreases x.depth
  {
    assert Hangs(n, x);
    if x.servptr != s {
      if x.servptr == n.me {
      } else {
        assert x.servptr in n.servers;
        NothingBehind(n, s, x.servptr);
      }
    }
  }

  lemma {:induction false} SubtreeTransitive(x: Client, t: Client, s: Client)
    requires InSubtree(x, t) && InSubtree(t, s)
    ensures InSubtree(x, s)
    decreases x.depth
  {
    if x != t { SubtreeTransitive(x.servptr, t, s); }
  }

  lemma {:induction false} SubtreeDeeper(x: Client, s: Client)
    requires InSubtree(x, s)
    ensures x == s || x.depth > s.depth
    decreases x.depth
  {
    if x != s { SubtreeDeeper(x.servptr, s); }
  }

  /** A direct connection is behind nothing but itself. */
  lemma DirectIsOwnSubtree(n: Network, x: Client, s: Client)
    requires Rooted(n) && x.servptr == n.me && s != n.me && InSubtree(x, s)
    ensures x == s
  {
  }

  /** If all that was taken was behind s, and nothing is left on s, then exactly what was behind s was taken. */
  lemma TakenIsBelow(n: Network, gone: set<Client>, dead: seq<Client>, s: Client)
    requires Rooted(n) && Rooted(Take(n, gone, dead)) && s in n.users && s !in gone
    requires gone <= Below(n, s)
    requires var m := Take(n, gone, dead); m.users[s] == [] && m.links[s] == []
    ensures gone == Below(n, s)
  {
    var m := Take(n, gone, dead);
    assert s in m.users && s in m.links;
    hide Rooted, InSubtree, TakeLists;
    forall x | x in Below(n, s) ensures x in gone {
      if x !in gone {
        assert Listed(m, x);
        NothingBehind(m, s, x);
      }
    }
  }
}
