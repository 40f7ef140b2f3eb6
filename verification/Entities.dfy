// The structures of the daemon that its files share.
module Entities {

  /** A b, e or I list: the ban strings, newest first. */
  class MaskList {
    var masks: seq<string>

    constructor ()
      ensures masks == []
    {
      masks := [];
    }
  }

  /** struct Mode: the simple modes by letter, the user limit (0 for none) and the key ("" for none). */
  class Mode {
    var modes: set<char>
    var limit: int
    var key: string

    constructor ()
      ensures modes == {} && limit == 0 && key == ""
    {
      modes, limit, key := {}, 0, "";
    }
  }

  class ChannelMember {
    const client: Client
    const channel: Channel
    var status: set<char>     // which of o, h, v
    var banChecked: bool      // the ban cache: has is_banned been asked,
    var banSilenced: bool     // and what it said
    var muteChecked: bool

    constructor (client: Client, channel: Channel, status: set<char>)
      ensures this.client == client && this.channel == channel && this.status == status
      ensures !banChecked && !banSilenced && !muteChecked
    {
      this.client, this.channel, this.status := client, channel, status;
      banChecked, banSilenced, muteChecked := false, false, false;
    }

    /** Nothing has been asked for this member yet. */
    predicate Unasked()
      reads `banChecked, `banSilenced, `muteChecked
    {
      !banChecked && !banSilenced && !muteChecked
    }
  }

  class Channel {
    const name: string
    const mode: Mode
    const banlist: MaskList
    const exceptlist: MaskList
    const invexlist: MaskList
    var members: seq<ChannelMember>
    var membersLocal: seq<ChannelMember>
    var invites: seq<Invite>

    constructor (name: string)
      ensures this.name == name && members == [] && membersLocal == [] && invites == []
      ensures fresh(mode) && fresh(banlist) && fresh(exceptlist) && fresh(invexlist)
      ensures mode.modes == {} && mode.limit == 0 && mode.key == ""
      ensures banlist.masks == [] && exceptlist.masks == [] && invexlist.masks == []
      ensures SeparateLists()
    {
      this.name := name;
      members, membersLocal, invites := [], [], [];
      mode := new Mode();
      banlist := new MaskList();
      exceptlist := new MaskList();
      invexlist := new MaskList();
    }

    /** The three mask lists are embedded in the structure, so they are three different lists. */
    predicate SeparateLists() {
      banlist != exceptlist && banlist != invexlist && exceptlist != invexlist
    }
  }

  class Invite {
    const channel: Channel
    const client: Client
    const when: nat  // monotonic time

    constructor (channel: Channel, client: Client, when: nat)
      ensures this.channel == channel && this.client == client && this.when == when
    {
      this.channel, this.client, this.when := channel, client, when;
    }
  }

  /** A user or a server. */
  class Client {
    const id: string
    const local: bool        // has a connection of its own
    const server: bool
    const servptr: Client?   // the server it is on; null for this server itself
    const depth: nat         // hops from this server
    var name: string
    var umodes: set<char>
    var channel: seq<ChannelMember>
    var invited: seq<Invite>
    var clientList: seq<Client>  // for a server, the users on it
    var serverList: seq<Client>  // for a server, the servers behind it
    var mark: bool
    var dead: bool
    var closing: bool
    var killed: bool

    constructor (id: string, name: string, local: bool, server: bool, servptr: Client?)
      ensures this.id == id && this.name == name && this.local == local && this.server == server
      ensures this.servptr == servptr && this.depth == if servptr == null then 0 else servptr.depth + 1
      ensures umodes == {} && channel == [] && invited == [] && clientList == [] && serverList == []
      ensures !mark && !dead && !closing && !killed
    {
      this.id, this.name, this.local, this.server, this.servptr := id, name, local, server, servptr;
      depth := if servptr == null then 0 else servptr.depth + 1;
      umodes, channel, invited, clientList, serverList := {}, [], [], [], [];
      mark, dead, closing, killed := false, false, false, false;
    }
  }

  /** The global lists and counters. */
  class Ircd {
    const me: Client
    var channelList: seq<Channel>
    var globalClients: seq<Client>
    var globalServers: seq<Client>
    var localClients: seq<Client>
    var localServers: seq<Client>
    var operList: seq<Client>
    var deadList: seq<Client>
    var abortList: seq<Client>
    var eacNext: Client?
    var countOper: int
    var countInvisi: int
    ghost var lost: int  // by how much countInvisi is too high
    ghost const people: set<Client>  // every client there is

    constructor (me: Client, ghost people: set<Client>)
      ensures this.me == me && this.people == people && channelList == []
      ensures globalClients == globalServers == localClients == localServers == operList == []
      ensures deadList == abortList == [] && eacNext == null && countOper == countInvisi == lost == 0
    {
      this.me := me;
      channelList, globalClients, globalServers, localClients, localServers := [], [], [], [], [];
      operList, deadList, abortList, eacNext := [], [], [], null;
      countOper, countInvisi, lost := 0, 0, 0;
      this.people := people;
    }
  }

  function Channels(d: Ircd): set<Channel>
    reads d`channelList
  {
    set c | c in d.channelList
  }
}
