// The DNS and ident lookups of a new connection: callbacks in any order, also synchronous ones, and a client
// that may exit at any time.
module AuthRelease {
  import opened Strings

  datatype Fd = Closed | Connecting | Reading

  /** A request, its client and what the daemon's resolver and sockets still owe it. `freed` and `released` count
      how often that happened. */
  datatype State = State(
    dnsPending: bool, identPending: bool, fd: Fd, dnsQuery: bool,
    linked: bool, freed: nat, released: nat, exited: bool)

  /** DNS answers, the connection to the ident server succeeds or fails or times out, it answers or times out,
      the client exits. */
  datatype Event = DnsAnswer | Connect(ok: bool) | IdentReply | ClientExit

  /** Callbacks arrive for what is outstanding only; a client exits once. */
  predicate Enabled(s: State, e: Event) {
    match e
    case DnsAnswer => s.dnsQuery
    case Connect(_) => s.fd.Connecting?
    case IdentReply => s.fd.Reading?
    case ClientExit => !s.exited
  }

  function Release(s: State): State {
    if s.identPending || s.dnsPending then s
    else s.(freed := s.freed + 1, linked := false, released := s.released + 1)
  }

  function IdentOver(s: State): State {
    Release(s.(fd := Closed, identPending := false))
  }

  function Step(s: State, e: Event): State {
    if !Enabled(s, e) then s
    else match e
      case DnsAnswer => Release(s.(dnsQuery := false, dnsPending := false))
      case Connect(ok) => if ok then s.(fd := Reading) else IdentOver(s)
      case IdentReply => IdentOver(s)
      case ClientExit =>
        if s.linked then
          s.(exited := true, fd := Closed, identPending := false, dnsQuery := false, dnsPending := false,
             freed := s.freed + 1, linked := false)
        else s.(exited := true)
  }

  function Run(s: State, events: seq<Event>): State {
    if events == [] then s else Step(Run(s, events[..|events| - 1]), events[|events| - 1])
  }

  /** What holds between events, from the end of auth_start on. */
  predicate Sound(s: State) {
    && s.released <= 1 && s.freed <= 1
    && (s.linked <==> s.freed == 0)
    && (s.freed == 1 <==> s.released == 1 || (s.exited && s.released == 0))
    && (s.released == 1 ==> !s.dnsPending && !s.identPending)
    && (!s.dnsPending && !s.identPending && !s.exited ==> s.released == 1)
    && (s.dnsQuery <==> s.dnsPending) && (s.fd.Closed? <==> !s.identPending)
    && (s.dnsQuery || !s.fd.Closed? ==> s.freed == 0)
  }

  lemma StepSound(s: State, e: Event)
    requires Sound(s)
    ensures Sound(Step(s, e))
    ensures Enabled(s, e) && !e.ClientExit? ==> s.freed == 0
  {
  }

  /** Over every run: released at most once and only with both lookups over, freed at most once, no callback for
      a freed request, and released as soon as both are over unless the client exits first. */
  lemma {:induction false} RunSound(s: State, events: seq<Event>)
    requires Sound(s)
    ensures Sound(Run(s, events))
  {
    if events != [] {
      RunSound(s, events[..|events| - 1]);
      StepSound(Run(s, events[..|events| - 1]), events[|events| - 1]);
    }
  }

  /** A request whose client exited or whose lookups are over has been freed: nothing leaks. */
  lemma EndsFreed(s: State, events: seq<Event>)
    requires Sound(s)
    ensures var t := Run(s, events); t.exited || (!t.dnsPending && !t.identPending) ==> t.freed == 1 && !t.linked
  {
    RunSound(s, events);
  }

  // ---------------------------------------------------------------- auth_start

  /** What happens while auth_start runs: whether ident is asked at all, whether there is a socket for it, the
      outcome of a connection that completes at once, and whether DNS answers at once. */
  datatype Start = Start(disableAuth: bool, socket: bool, connect: Option<bool>, dnsNow: bool)

  function Asked(o: Start): bool {
    !o.disableAuth && o.socket
  }

  function AfterIdent(o: Start): State {
    var s := State(true, false, Closed, false, true, 0, 0, false);
    if !Asked(o) then s
    else
      var t := s.(fd := Connecting, identPending := true);
      if o.connect.None? then t else Step(t, Connect(o.connect.value))
  }

  function Started(o: Start): State {
    var s := AfterIdent(o).(dnsQuery := true);
    if o.dnsNow then Step(s, DnsAnswer) else s
  }

  /** auth_start ends in a sound state whatever completes during it; the client is released there and then only
      if both lookups were over. */
  lemma StartSound(o: Start)
    ensures Sound(Started(o))
    ensures Started(o).released == 1 <==> o.dnsNow && (!Asked(o) || o.connect == Some(false))
    ensures AfterIdent(o).freed == 0
  {
  }

  // ---------------------------------------------------------------- the structures

  class Client {
    var auth: AuthRequest?
    var finishedAuth: nat  // how often the client was handed to the main loop
    var exited: bool

    constructor ()
      ensures auth == null && finishedAuth == 0 && !exited
    {
      auth, finishedAuth, exited := null, 0, false;
    }
  }

  class AuthRequest {
    const client: Client
    var dnsPending: bool
    var identPending: bool
    var fd: Fd
    var dnsQuery: bool  // the resolver has a query for it
    ghost var freed: nat

    constructor (client: Client)
      ensures this.client == client && !dnsPending && !identPending && fd == Closed && !dnsQuery && freed == 0
    {
      this.client := client;
      dnsPending, identPending, fd, dnsQuery, freed := false, false, Closed, false, 0;
    }

    ghost function Now(): State
      reads this, client
    {
      State(dnsPending, identPending, fd, dnsQuery, client.auth == this, freed, client.finishedAuth, client.exited)
    }

    /** xfree */
    method Free()
      requires freed == 0
      modifies this`freed
      ensures freed == 1
    {
      freed := freed + 1;
    }

    /** auth_release_client */
    method ReleaseClient()
      requires freed == 0 && client.auth == this
      modifies this`freed, client`auth, client`finishedAuth
      ensures Now() == Release(old(Now()))
      ensures client.auth == null || client.auth == this
    {
      if identPending || dnsPending {
        return;
      }
      var c := client;
      Free();
      c.auth := null;
      c.finishedAuth := c.finishedAuth + 1;
    }

    /** auth_dns_callback */
    method DnsCallback()
      requires freed == 0 && client.auth == this && dnsQuery
      modifies this, client`auth, client`finishedAuth
      ensures Now() == Step(old(Now()), DnsAnswer)
      ensures client.auth == null || client.auth == this
    {
      dnsQuery := false;
      dnsPending := false;
      ReleaseClient();
    }

    /** auth_error */
    method Error()
      requires freed == 0 && client.auth == this && fd != Closed
      modifies this, client`auth, client`finishedAuth
      ensures Now() == IdentOver(old(Now()))
      ensures client.auth == null || client.auth == this
    {
      fd := Closed;
      identPending := false;
      ReleaseClient();
    }

    /** auth_connect_callback; `ok` is false for an error, an unknown port, or a query that cannot be sent whole. */
    method ConnectCallback(ok: bool)
      requires freed == 0 && client.auth == this && fd == Connecting
      modifies this, client`auth, client`finishedAuth
      ensures Now() == Step(old(Now()), Connect(ok))
      ensures client.auth == null || client.auth == this
    {
      if !ok {
        Error();
        return;
      }
      fd := Reading;
    }

    /** auth_read_reply */
    method ReadReply()
      requires freed == 0 && client.auth == this && fd == Reading
      modifies this, client`auth, client`finishedAuth
      ensures Now() == Step(old(Now()), IdentReply)
      ensures client.auth == null || client.auth == this
    {
      fd := Closed;
      identPending := false;
      ReleaseClient();
    }

    /** auth_start_query */
    method StartQuery(o: Start)
      requires freed == 0 && client.auth == this && fd == Closed && !identPending && dnsPending
      modifies this, client`auth, client`finishedAuth
      ensures Now() == if !o.socket then old(Now()) else
        var t := old(Now()).(fd := Connecting, identPending := true);
        if o.connect.None? then t else Step(t, Connect(o.connect.value))
    {
      if !o.socket {
        return;
      }
      fd := Connecting;
      identPending := true;
      if o.connect.Some? {
        ConnectCallback(o.connect.value);
      }
    }

    /** auth_delete */
    method Delete()
      requires freed == 0
      modifies this
      ensures !dnsPending && !identPending && fd == Closed && !dnsQuery && freed == 1
    {
      fd := Closed;
      identPending := false;
      dnsQuery := false;
      dnsPending := false;
      Free();
    }
  }

  /** auth_start */
  method AuthStart(client: Client, o: Start) returns (auth: AuthRequest)
    requires client.auth == null && client.finishedAuth == 0 && !client.exited
    modifies client
    ensures fresh(auth) && auth.client == client && auth.Now() == Started(o)
  {
    auth := new AuthRequest(client);
    client.auth := auth;
    auth.dnsPending := true;
    if !o.disableAuth {
      auth.StartQuery(o);
    }
    StartSound(o);
    auth.dnsQuery := true;
    if o.dnsNow {
      auth.DnsCallback();
    }
  }

  /** The part of exit_client that deals with a pending request. */
  method ExitClient(client: Client, ghost auth: AuthRequest)
    requires auth.client == client && !client.exited && (client.auth == null || client.auth == auth)
    requires client.auth != null ==> auth.freed == 0
    modifies client, auth
    ensures auth.Now() == Step(old(auth.Now()), ClientExit) && client.auth == null
  {
    client.exited := true;
    if client.auth != null {
      client.auth.Delete();
      client.auth := null;
    }
  }

  /** Any sequence of events, of which those that are not due do not happen: no handler runs on a freed request,
      since each demands one that is not. */
  method Drive(auth: AuthRequest, events: seq<Event>)
    requires Sound(auth.Now()) && (auth.client.auth == null || auth.client.auth == auth)
    modifies auth, auth.client
    ensures auth.Now() == Run(old(auth.Now()), events) && Sound(auth.Now())
  {
    ghost var start := auth.Now();
    for i := 0 to |events|
      invariant auth.Now() == Run(start, events[..i]) && Sound(auth.Now())
      invariant auth.client.auth == null || auth.client.auth == auth
    {
      assert events[..i + 1][..i] == events[..i];
      StepSound(auth.Now(), events[i]);
      match events[i] {
        case DnsAnswer =>
          if auth.dnsQuery { auth.DnsCallback(); }
        case Connect(ok) =>
          if auth.fd == Connecting { auth.ConnectCallback(ok); }
        case IdentReply =>
          if auth.fd == Reading { auth.ReadReply(); }
        case ClientExit =>
          if !auth.client.exited { ExitClient(auth.client, auth); }
      }
    }
    assert events[..|events|] == events;
  }
}
