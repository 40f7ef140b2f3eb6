// What one run of the channel mode engine does to a channel, as a function on values.
module ModeSpec {
  import opened Strings

  const MAXMODEPARAMS := 6
  const BANSTRLEN := 199  // octets of a ban string, without the terminator

  datatype Dir = Query | Del | Add

  const NOTONCHAN := -1
  const PEON := 0
  const HALFOP := 1
  const CHANOP := 2
  const REMOTE := 3

  // ---------------------------------------------------------------- the mode table

  datatype Kind = Simple | Mask | Flag | Limit | Key

  datatype ModeInfo = ModeInfo(kind: Kind, level: int, onlyOpers: bool, onlyServers: bool)

  /** cmode_tab. */
  function ModeOf(c: char): Option<ModeInfo> {
    if c == 'b' || c == 'e' || c == 'I' then Some(ModeInfo(Mask, HALFOP, false, false))
    else if c == 'h' || c == 'o' then Some(ModeInfo(Flag, CHANOP, false, false))
    else if c == 'v' then Some(ModeInfo(Flag, HALFOP, false, false))
    else if c == 'k' then Some(ModeInfo(Key, HALFOP, false, false))
    else if c == 'l' then Some(ModeInfo(Limit, HALFOP, false, false))
    else if c == 'r' then Some(ModeInfo(Simple, REMOTE, false, true))
    else if c == 'L' || c == 'O' then Some(ModeInfo(Simple, HALFOP, true, false))
    else if c in "cimnpstuCMNRST" then Some(ModeInfo(Simple, HALFOP, false, false))
    else None
  }

  predicate IsSimple(c: char) {
    ModeOf(c).Some? && ModeOf(c).value.kind.Simple?
  }

  /** Does letter c take a parameter when changed in direction dir, if one is left? */
  predicate WantsArg(c: char, dir: Dir) {
    ModeOf(c).Some? && match ModeOf(c).value.kind {
      case Simple => false
      case Limit => dir.Add?
      case Mask => !dir.Query?
      case Flag => !dir.Query?
      case Key => !dir.Query?
    }
  }

  // ---------------------------------------------------------------- channel and engine state

  datatype Channel = Channel(
    modes: set<char>, key: string, limit: int,
    status: map<string, set<char>>,  // client id -> which of o, h, v the member has
    bans: seq<string>, excepts: seq<string>, invexes: seq<string>)
  {
    function Masks(c: char): seq<string> {
      if c == 'b' then bans else if c == 'e' then excepts else invexes
    }

    function WithMasks(c: char, m: seq<string>): Channel {
      if c == 'b' then this.(bans := m) else if c == 'e' then this.(excepts := m) else this.(invexes := m)
    }
  }

  /** One entry of mode_changes; a cancelled entry has letter NUL. */
  datatype Change = Change(letter: char, arg: Option<string>, id: Option<string>, dir: Dir, opsOnly: bool)

  const CANCELLED: char := '\0'

  datatype Err = NoOps | Unknown | ListB | ListE | ListI | NotOnChannel | NotOper | OnlyServer

  datatype Reply = Reply(err: Err, shown: seq<string>)

  datatype Engine = Engine(
    chan: Channel, log: seq<Change>, parn: nat, quota: nat, done: set<char>,
    errors: set<Err>, replies: seq<Reply>)

  function Fresh(chan: Channel): Engine {
    Engine(chan, [], 1, 0, {}, {}, [])
  }

  /** Who asks for the change: `local` when directly connected, `server` when not a user. */
  datatype Source = Source(local: bool, server: bool, service: bool, oper: bool) {
    predicate MyClient() { local && !server }

    /** How the same source looks to any other server. */
    function Remotely(): Source { this.(local := false) }
  }

  /** What the engine consults but does not own: the nick and id tables, the reformatting and
      validation of a mask given by a local user (None when refused), the test for a mask that
      is empty after its extended-ban prefix, and the configured list limits. */
  datatype Env = Env(
    resolve: string -> Option<string>,
    nameOf: string -> string,
    normalise: (char, string) -> Option<string>,
    emptyMask: string -> bool,
    maxBans: int, maxBansLarge: int)

  datatype Context = Context(env: Env, src: Source, access: int, parv: seq<string>)

  /** get_channel_access; `member` is the source's own status on the channel, if any. */
  function Access(src: Source, member: Option<set<char>>): int {
    if !src.MyClient() then REMOTE
    else if member.None? then NOTONCHAN
    else if 'o' in member.value then CHANOP
    else if 'h' in member.value then HALFOP
    else PEON
  }

  // ---------------------------------------------------------------- one letter

  /** An error numeric is sent once per call. */
  function Tell(e: Engine, err: Err, shown: seq<string>): Engine {
    if err in e.errors then e else e.(errors := e.errors + {err}, replies := e.replies + [Reply(err, shown)])
  }

  function Logged(e: Engine, ch: Change): Engine {
    e.(log := e.log + [ch])
  }

  function CancelOne(ch: Change, c: char): Change {
    if ch.letter == c && ch.dir.Add? then ch.(letter := CANCELLED) else ch
  }

  /** "accept latter": earlier additions of the same letter are struck from the log. */
  function Cancel(log: seq<Change>, c: char): (r: seq<Change>)
    ensures |r| == |log|
    ensures forall i :: 0 <= i < |log| ==> r[i] == CancelOne(log[i], c)
  {
    if log == [] then [] else Cancel(log[..|log| - 1], c) + [CancelOne(log[|log| - 1], c)]
  }

  function StepSimple(x: Context, dir: Dir, c: char, e: Engine): Engine
    requires IsSimple(c)
  {
    var info := ModeOf(c).value;
    if info.onlyOpers && x.src.MyClient() && !x.src.oper then Tell(e, NotOper, [])
    else if info.onlyServers && !x.src.server && !x.src.service then Tell(e, OnlyServer, [])
    else if x.access < info.level then Tell(e, NoOps, [])
    else if c in e.done then e
    else
      var e1 := e.(done := e.done + {c});
      var ch := Change(c, None, None, dir, false);
      match dir
      case Add =>
        if x.src.MyClient() && c in e.chan.modes then e1
        else Logged(e1.(chan := e.chan.(modes := e.chan.modes + {c})), ch)
      case Del =>
        if x.src.MyClient() && c !in e.chan.modes then e1
        else Logged(e1.(chan := e.chan.(modes := e.chan.modes - {c})), ch)
      case Query => Logged(e1, ch)
  }

  /** Index of the first listed mask that folds to m, or the length of the list. */
  function FindMask(list: seq<string>, m: string): (i: nat)
    ensures i <= |list|
    ensures i < |list| ==> SameFolded(m, list[i])
    ensures forall j :: 0 <= j < i ==> !SameFolded(m, list[j])
  {
    if list == [] then 0
    else if SameFolded(m, list[0]) then 0
    else 1 + FindMask(list[1..], m)
  }

  /** The ban string add_id stores, or None when the mask is refused before the list is searched. */
  function BanString(x: Context, c: char, chan: Channel, mask: string): Option<string> {
    var m := Truncate(mask, BANSTRLEN);
    if x.src.MyClient() then
      if |chan.bans| + |chan.excepts| + |chan.invexes| >=
           (if 'L' in chan.modes then x.env.maxBansLarge else x.env.maxBans) then None
      else x.env.normalise(c, m)
    else if x.env.emptyMask(m) then None
    else Some(m)
  }

  /** add_id: the new list and the stored string. */
  function AddId(x: Context, c: char, chan: Channel, mask: string): Option<(seq<string>, string)> {
    var b := BanString(x, c, chan, mask);
    if b.None? || FindMask(chan.Masks(c), b.value) < |chan.Masks(c)| then None
    else Some(([b.value] + chan.Masks(c), b.value))
  }

  /** del_id: the new list and the string that was listed (its case may differ from the one given). */
  function DelId(c: char, chan: Channel, mask: string): Option<(seq<string>, string)> {
    var list := chan.Masks(c);
    var i := FindMask(list, mask);
    if i == |list| then None else Some((list[..i] + list[i + 1..], list[i]))
  }

  function ListErr(c: char): Err {
    if c == 'b' then ListB else if c == 'e' then ListE else ListI
  }

  predicate BadMask(src: Source, mask: string) {
    (mask != "" && mask[0] == ':') || (!src.local && ' ' in mask)
  }

  /** A mask is added to or deleted from its list. */
  function MaskStep(x: Context, dir: Dir, c: char, e: Engine, mask: string): Engine {
    var r := if dir.Add? then AddId(x, c, e.chan, mask) else DelId(c, e.chan, mask);
    if r.None? then e
    else
      Logged(e.(chan := e.chan.WithMasks(c, r.value.0)),
             Change(c, Some(Truncate(r.value.1, BANSTRLEN)), None, dir, 'u' in e.chan.modes))
  }

  function StepMask(x: Context, dir: Dir, c: char, e: Engine): Engine
    requires ModeOf(c).Some?
  {
    var level := ModeOf(c).value.level;
    if dir.Query? || |x.parv| <= e.parn then
      Tell(e, ListErr(c), if 'u' !in e.chan.modes || x.access >= level then e.chan.Masks(c) else [])
    else if x.access < level then Tell(e, NoOps, [])
    else
      var e1 := if x.src.MyClient() then e.(quota := e.quota + 1) else e;
      if x.src.MyClient() && e1.quota > MAXMODEPARAMS then e1
      else
        var mask := x.parv[e.parn];
        var e2 := e1.(parn := e.parn + 1);
        if BadMask(x.src, mask) then e2 else MaskStep(x, dir, c, e2, mask)
  }

  /** A member gains or loses a status. */
  function FlagStep(e: Engine, dir: Dir, c: char, id: string, name: string): Engine
    requires id in e.chan.status
  {
    var has := e.chan.status[id];
    if (c in has) == dir.Add? then e
    else
      var now := if dir.Add? then has + {c} else has - {c};
      Logged(e.(chan := e.chan.(status := e.chan.status[id := now])), Change(c, Some(name), Some(id), dir, false))
  }

  /** The parameter named the client with this id. */
  function TargetStep(x: Context, dir: Dir, c: char, e: Engine, id: string): Engine {
    if id !in e.chan.status then Tell(e, NotOnChannel, [])
    else
      var e1 := if x.src.MyClient() then e.(quota := e.quota + 1) else e;
      if x.src.MyClient() && e1.quota > MAXMODEPARAMS then e1 else FlagStep(e1, dir, c, id, x.env.nameOf(id))
  }

  function StepFlag(x: Context, dir: Dir, c: char, e: Engine): Engine
    requires ModeOf(c).Some?
  {
    if x.access < ModeOf(c).value.level then Tell(e, NoOps, [])
    else if dir.Query? || |x.parv| <= e.parn then e
    else
      var target := x.env.resolve(x.parv[e.parn]);
      var e1 := e.(parn := e.parn + 1);
      if target.None? then e1 else TargetStep(x, dir, c, e1, target.value)
  }

  function StepLimit(x: Context, dir: Dir, c: char, e: Engine): Engine
    requires ModeOf(c).Some?
  {
    if x.access < ModeOf(c).value.level then Tell(e, NoOps, [])
    else if dir.Add? && e.parn < |x.parv| then
      var e1 := e.(parn := e.parn + 1);
      var n := Atoi(x.parv[e.parn]);
      if n <= 0 then e1
      else
        Logged(e1.(log := Cancel(e.log, c), chan := e.chan.(limit := n)),
               Change(c, Some(Itoa(n)), None, dir, false))
    else if dir.Del? && e.chan.limit != 0 then
      Logged(e.(chan := e.chan.(limit := 0)), Change(c, None, None, dir, false))
    else e
  }

  function StepKey(x: Context, dir: Dir, c: char, e: Engine): Engine
    requires ModeOf(c).Some?
  {
    if x.access < ModeOf(c).value.level then Tell(e, NoOps, [])
    else if dir.Add? && e.parn < |x.parv| then
      var e1 := e.(parn := e.parn + 1);
      var key := FixKey(x.parv[e.parn]);
      if key == "" then e1
      else
        Logged(e1.(log := Cancel(e.log, c), chan := e.chan.(key := key)),
               Change(c, Some(key), None, dir, false))
    else if dir.Del? then
      var e1 := if e.parn < |x.parv| then e.(parn := e.parn + 1) else e;
      if e.chan.key == "" then e1
      else Logged(e1.(chan := e.chan.(key := "")), Change(c, Some("*"), None, dir, false))
    else e
  }

  /** The handler of letter c. */
  function Step(x: Context, dir: Dir, c: char, e: Engine): Engine {
    if ModeOf(c).None? then Tell(e, Unknown, [])
    else match ModeOf(c).value.kind
      case Simple => StepSimple(x, dir, c, e)
      case Mask => StepMask(x, dir, c, e)
      case Flag => StepFlag(x, dir, c, e)
      case Limit => StepLimit(x, dir, c, e)
      case Key => StepKey(x, dir, c, e)
  }

  // ---------------------------------------------------------------- the whole mode string

  function Turn(c: char, dir: Dir): Dir {
    if c == '+' then Add else if c == '-' then Del else if c == '=' then Query else dir
  }

  predicate IsTurn(c: char) { c == '+' || c == '-' || c == '=' }

  function Run(x: Context, ml: string, dir: Dir, e: Engine): Engine {
    if ml == "" then e
    else if IsTurn(ml[0]) then Run(x, ml[1..], Turn(ml[0], dir), e)
    else Run(x, ml[1..], dir, Step(x, dir, ml[0], e))
  }

  /** channel_mode_set, up to the printing of the log; `member` is the source's own status. */
  function ModeSet(env: Env, src: Source, member: Option<set<char>>, chan: Channel, parv: seq<string>): Engine
    requires parv != []
  {
    Run(Context(env, src, Access(src, member), parv), parv[0], Add, Fresh(chan))
  }

  // ---------------------------------------------------------------- the shape of the log

  /** A step logs nothing, or one change of the letter and direction it was given. */
  ghost predicate LogStep(log: seq<Change>, log': seq<Change>, dir: Dir, c: char) {
    log' == log ||
    (|log'| == |log| + 1 && log'[|log|].letter == c && log'[|log|].dir == dir &&
     (log'[..|log|] == log || log'[..|log|] == Cancel(log, c)))
  }

  lemma StepShape(x: Context, dir: Dir, c: char, e: Engine)
    ensures LogStep(e.log, Step(x, dir, c, e).log, dir, c)
  {
    if ModeOf(c).Some? {
      match ModeOf(c).value.kind
      case Simple => SimpleShape(x, dir, c, e);
      case Mask => MaskShape(x, dir, c, e);
      case Flag => FlagShape(x, dir, c, e);
      case Limit => assert LogStep(e.log, StepLimit(x, dir, c, e).log, dir, c);
      case Key => assert LogStep(e.log, StepKey(x, dir, c, e).log, dir, c);
    }
  }

  lemma SimpleShape(x: Context, dir: Dir, c: char, e: Engine)
    requires IsSimple(c)
    ensures LogStep(e.log, StepSimple(x, dir, c, e).log, dir, c)
  {
  }

  lemma MaskShape(x: Context, dir: Dir, c: char, e: Engine)
    requires ModeOf(c).Some?
    ensures LogStep(e.log, StepMask(x, dir, c, e).log, dir, c)
  {
  }

  lemma FlagShape(x: Context, dir: Dir, c: char, e: Engine)
    requires ModeOf(c).Some?
    ensures LogStep(e.log, StepFlag(x, dir, c, e).log, dir, c)
  {
  }
}
