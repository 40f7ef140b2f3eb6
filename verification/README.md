# Verification model of ircd-hybrid 8.2.31

A Dafny model of the core of the IRC daemon: the engine that changes channel modes and tells other
servers, the graph of users and channels with its caches, the exit of clients and whole parts of the network, and
six smaller algorithms. Code that edits structures in place is modelled by classes and methods that edit the same
fields in the same order; each such method is proved against a function on values, and the properties are proved
about those functions and over runs.

`dafny verify dfyconfig.toml` checks everything.

## How the files fit together

| files | what they hold |
|---|---|
| Strings, Lists, Entities | C strings, the linked lists as sequences, the shared structures |
| ModeSpec, ModeEffects | one run of the mode engine as a function on values; what each letter does, said without the handlers |
| ModeLines, ModeReplay, ModeWire | printing and reading the change log, replaying it, the lines on the wire |
| SpacedMasks, Replication, ReplicationFits, ReplicationLimits, CutLines | the replication theorems and where they end |
| ModePrivilege, ModeLists | what a user may do with one mode string; what a run keeps in lists and log |
| ModeEngine, EngineReplication | the engine on its global variables, and replication from there |
| Membership, Invites, BanCache, ChannelCommands | users on channels, invitations, the ban cache, JOIN and PART |
| ServerTree, ClientExit, DeadLinks, Departures | the tree of servers, exits and netsplits, the abort list |
| OperCount | the counters and the list of operators over OPER and SVSMODE |
| Steps | each action of the daemon, keeping all invariants of the files above together |
| Runs | any sequence of joins, parts, invites, messages, MODE, SVSNICK, OPER, SVSMODE, exits, failing writes and passes over the abort list |
| KilledUser | a daemon with one user, as a starting point and for a finding below |
| CapNegotiation, ConfDatabase, AuthRelease, ServerMap, Who, SListSort | CAP, the ban database, DNS and ident, MAP, WHO, the libltdl merge sort |

Calls that send something are modelled by what they append to a queue; a write that fails, and so queues its
connection for exit, is a parameter of the operation that writes, and all statements hold for every choice of
failures. Matching of masks, the reformatting of ban strings and the nick table are parameters too (`Matcher`,
`Env`), with the assumptions stated where they are used (`EnvOk`, `Printable`, `Resolves`).

## What the proofs found

- A simple mode asked for with `=` is logged without being changed and printed without a sign, so every other
  server sets it (`ReplicationLimits.SingleQuery`).
- A directly connected server may add a mask with a space (src/channel_mode.c:517). It is stored and printed as it is,
  and every other server reads its first word only (`ReplicationLimits.SpacedBanDiverges`).
  `SpacedMasks.SpaceFreeIff` says from source and parameters exactly when that happens, and
  `Replication.ReplicationExact` exactly when peers agree.
- The test that starts a new line leaves out the sign, the letter and two separators: lines of up to 514 octets are
  printed (`ModeLines.LinesBounded`, `ModeLines.BoundReached`), and src/send.c:70-71 cuts them to 510. A remote user's
  MODE with three bans that fits into a message is replicated by a line of 513 octets, and the peers store a shorter
  third ban (`ReplicationLimits.CutRunDiverges`). `ModeWire.LineSurvivesIffNotCut` gives the exact condition for one
  line; `ReplicationFits` holds two that can be read off the arguments.
- KILL and SQUIT write to a connection and then exit it (modules/core/m_kill.c:114 and 150, modules/core/m_squit.c:115
  and 128). If the write fails, the connection is on the abort list when exit_client asserts that it is not
  (src/client.c:875). For a connection that is not closing yet the assertion holds if and only if it was not queued
  before and the write does not queue it (`Departures.WriteThenExit`); `KilledUser.Kill` is a run in which it fails.
  Without assertions no harm is done: the pass over the dead connections meets the connection again, passes it over
  (src/client.c:759-765), and still exits every other one once (`Departures.ExitAbortedClients`). The memory is released
  after that pass (src/ircd.c:154-155).
- Nothing clears a ban cache when user modes change, yet usermode and operclass extbans look at them
  (src/extban_usermode.c, src/extban_operclass.c). The caches stay right under OPER and SVSMODE, whatever is listed, if
  and only if no mask that counts tells user modes apart (`BanCache.KeptRightIff`); a user silenced by `$u:-o` stays
  silenced after OPER (`BanCache.SilencedOperator`).
- The silenced flag of the ban cache is also set by mute extbans. That the flag equals is_banned therefore holds for
  channels without mutes; what it means in general is `BanCache.CacheOk`, and that is what every action keeps.
- If `oper_only_umodes` includes invisible, which src/conf_parser.y:2702-2705 allows, taking an operator's status by
  SVSMODE leaves Count.invisi too high (`OperCount.CountersRightIff`).
- MAP below a server with a prompt of 60 characters loses the dash of the second and later children
  (`ServerMap.DrawnIsIdealIff`).
- The limit of 500 replies to WHO ends the walk over one channel only: the other channels and the list of all clients
  are then gone through without any limit. If the limit is reached in the second pass instead, exactly the invisible
  clients of the first pass that come later in the list stay marked (`Who.WhoGlobal`), and the next WHO leaves them out
  (`Who.NotReportedAgain`).
- A ban database that ends early still yields the number of records its header announces: the `break` of SAFE_READ
  leaves only its own loop (`ConfDatabase.LoadDatabase`).
- No local user changes the registered mode, services included: the access level the mode asks for is that of a
  remote source (`ModePrivilege.LocalUserRestrained`).

Where the code and its comments differ the model follows the code: include/irc_string.h:47-49 says that irccmp folds
by RFC 1459, but the tables of src/match.c fold the ASCII letters only; the comment at src/conf_db.c:279 speaks of a
2-byte string length, which is written with four.

## Model

| member | source | states |
|---|---|---|
| Replication.ReplicationHolds | ircd-hybrid-8.2.31/src/channel_mode.c:963-1009 | For a mode string without `=` whose lines are not cut on sending, and any source and parameters the message parser can give: a peer in the same channel state that obeys the printed TMODE lines ends with the sender's modes, key, limit, member statuses and b/e/I lists, if and only if the change brings no mask with a space, which source and parameters tell |
| Replication.OthersReplicate | ircd-hybrid-8.2.31/src/channel_mode.c:963-1009 | So the peer always agrees, whatever the parameters, if the source is a user or a server that is not directly connected |
| SpacedMasks.SpaceFreeIff | ircd-hybrid-8.2.31/src/channel_mode.c:514-530 | A mode change leaves a mask with a space on the channel if and only if a directly connected server asks for it and one of the changes its letters and parameters decode to adds a b, e or I mask that does not start with a colon, is not empty, and has a space in its first 199 octets |
| SpacedMasks.RunSpaced | ircd-hybrid-8.2.31/src/channel_mode.c:445-545 | The same for any run of a directly connected server from any point of its mode string |
| CutLines.ReplicationReceived | ircd-hybrid-8.2.31/src/send.c:53-75 | However long the lines are: a peer ends with the changes it reads from the lines as they were sent, applied in order, and the sender with those of the log |
| CutLines.CutOnce | ircd-hybrid-8.2.31/src/parse.c:394-422 | A line cut anywhere behind its header is read as a part of its letters in order, so no simple mode comes twice |
| Replication.ReplicationExact | ircd-hybrid-8.2.31/src/channel_mode.c:753-825 | With `=` allowed as well: the peer agrees if and only if the change brings no mask with a space and every entry logged under `=` happens to be printed with the sign the mode already has |
| Replication.PeerSpaceFree | ircd-hybrid-8.2.31/src/channel_mode.c:517-518 | Whatever lines a peer obeys, none brings it a mask with a space |
| ReplicationFits.ReplicationOfShortChanges | ircd-hybrid-8.2.31/src/channel_mode.c:963-1009 | Replication from what the caller passes alone, for any source: no `=`, and letters whose longest possible parameters fit into one line with the header; no line is then cut, and the peer agrees if and only if the change brings no mask with a space |
| ReplicationFits.ReplicationOfShortArguments | ircd-hybrid-8.2.31/src/channel_mode.c:963-1009 | The same for servers and users of other servers from the lengths of the parameters themselves, each cut to 199 octets, and a fixed part per letter |
| Replication.ShortNotCut | ircd-hybrid-8.2.31/src/channel_mode.c:786-804 | No line is cut when all live changes, with three octets each for sign, letter and separator, would fit into one line |
| ReplicationLimits.SingleQuery | ircd-hybrid-8.2.31/src/channel_mode.c:423-442 | A lone `=` with a simple mode changes nothing locally, is printed unsigned, and leaves a peer in agreement if and only if the mode was set: `=m` on a channel without it sets +m everywhere else |
| ReplicationLimits.CutIsShorter | ircd-hybrid-8.2.31/src/send.c:53-75 | A line cut inside its last parameter is the line with a shorter last parameter, so a peer cannot tell |
| ReplicationLimits.CutBanDiverges | ircd-hybrid-8.2.31/src/channel_mode.c:786-787 | A line that adds a ban last and is cut inside it leaves the peer with other bans than the whole line would have |
| ReplicationLimits.CutRunDiverges | ircd-hybrid-8.2.31/src/channel_mode.c:786-787 | A whole run: a remote user's `+bbb` with three different bans, in a MODE that fits into a message, leaves a new channel with the three bans and every peer with another list, because the replicating line is cut |
| ReplicationLimits.SpacedBanDiverges | ircd-hybrid-8.2.31/src/channel_mode.c:516-530 | A whole run: `+b :a b` from a directly connected server is stored as it is, and no peer gets that ban |
| EngineReplication.SetAndReplicate | ircd-hybrid-8.2.31/src/channel_mode.c:963-1009 | End to end on the heap, for what the running engine queued for other servers, cut as it is sent: if no queued line is too long and there is no `=`, a peer is brought from the old value of the channel to the new one if and only if the change brings no mask with a space; however long they are, the peer does what is left of them |
| ModeWire.LineObeyed | ircd-hybrid-8.2.31/src/parse.c:242-430 | A line that is not cut, split into parameters by the message parser and run by the engine for a remote source, does exactly the changes read from it, one after the other |
| ModeWire.LineParsed | ircd-hybrid-8.2.31/src/parse.c:394-422 | The parser finds in a printed line the timestamp, the channel, the mode letters and exactly the parameters that were joined |
| ModeWire.ParserLeavesSpacesLast | ircd-hybrid-8.2.31/src/parse.c:394-422 | Of the parameters the parser finds, only the last can hold a space |
| ModeWire.CutLineMisread | ircd-hybrid-8.2.31/src/send.c:70-71 | A line that loses any part of its parameters is read as something else |
| ModeWire.LineSurvivesIffNotCut | ircd-hybrid-8.2.31/src/send.c:70-71 | A received line reads as it was meant if and only if it was at most 510 octets |
| ModeReplay.RunInSync | ircd-hybrid-8.2.31/src/channel_mode.c:604-713 | For every run that leaves no mask with a space: the live log, replayed one entry at a time on the old channel, gives the new channel; cancelled +l and +k entries do not matter |
| ModeReplay.StepInSync | ircd-hybrid-8.2.31/src/channel_mode.c:376-713 | Every handler keeps the log and the channel in step, also when it strikes earlier entries, unless it adds a mask with a space |
| ModeReplay.SpacedIsLast | ircd-hybrid-8.2.31/src/channel_mode.c:514-530 | Only a directly connected server adds a mask with a space, and only with the last parameter |
| ModeReplay.RunIsApplyAll | ircd-hybrid-8.2.31/src/channel_mode.c:977-1001 | A run for a remote source equals its decoded changes applied one by one: parameters stay aligned with letters |
| ModeReplay.CancelAlike | ircd-hybrid-8.2.31/src/channel_mode.c:630-637 | Striking earlier limits or keys from the log changes the replayed channel in nothing but that limit or key |
| ModeReplay.ReplaceForgets | ircd-hybrid-8.2.31/src/channel_mode.c:639-644 | Setting a limit or key does not depend on the one before |
| ModeLines.LinesConcat | ircd-hybrid-8.2.31/src/channel_mode.c:770-824 | The printed lines, read in order, hold exactly the uncancelled entries, in order, and no line is empty |
| ModeLines.LinesBounded | ircd-hybrid-8.2.31/src/channel_mode.c:786-787 | With a header and parameter that fit together, a line has at most six parameters and 514 octets |
| ModeLines.BoundReached | ircd-hybrid-8.2.31/src/channel_mode.c:786-787 | The bound 514 is reached with a header of 79 octets, the longest of a server line: the flush test leaves out the sign, the letter and the two separators |
| ModeLines.SignFirst | ircd-hybrid-8.2.31/src/channel_mode.c:797-803 | A line starts with a sign if and only if its first entry was not logged under `=` |
| ModeLines.LinesStartWithSign | ircd-hybrid-8.2.31/src/channel_mode.c:786-803 | So every line of a log without such entries starts with a sign, also after a flush |
| ModeLines.PassesPartition | ircd-hybrid-8.2.31/src/channel_mode.c:837-914 | Of the two passes for local members, each live entry is shown in exactly one |
| ModeLines.VisibleMeans | ircd-hybrid-8.2.31/src/channel_mode.c:837-914 | A pass shows an item if and only if it is that of an entry of its visibility that was not struck |
| ModeLines.DecodeLine | ircd-hybrid-8.2.31/src/channel_mode.c:797-815 | The letters and parameters of a line decode to its changes; a change logged under `=` takes the sign in force |
| Strings.FixKeyIdempotent | ircd-hybrid-8.2.31/src/channel_mode.c:314-329 | Cleaning a cleaned key changes nothing, and a cleaned key is one parameter of at most 23 octets |
| Strings.FixKeySnoc | ircd-hybrid-8.2.31/src/channel_mode.c:314-329 | Of the first 23 octets a key keeps the low seven bits, in order, of those that are no blank, control, colon or comma, and nothing of the others |
| Strings.AtoiItoa | ircd-hybrid-8.2.31/src/channel_mode.c:616-624 | The limit a peer parses is the limit that was printed |
| Strings.JoinRoundTrip | ircd-hybrid-8.2.31/src/parse.c:394-422 | Parameters joined by single spaces are read back unchanged |
| ModePrivilege.PeonChangesNothing | ircd-hybrid-8.2.31/src/channel_mode.c:723-744 | For every mode string: a local user without channel status, or off the channel, changes nothing, has nothing logged, and is shown no hidden list |
| ModePrivilege.LocalUserRestrained | ircd-hybrid-8.2.31/src/channel_mode.c:547-602 | For every mode string, a self-deop in the middle included: no local user changes the registered mode, and a local half-operator changes nobody's operator or half-operator bit |
| ModePrivilege.RunLimits | ircd-hybrid-8.2.31/src/channel_mode.c:977-1001 | For every mode string: at most six mask and status changes for a local user, each simple mode logged and each error told at most once, cursor within the parameters, log within the mode string (so the log array is never overrun) |
| ModePrivilege.MasksHidden | ircd-hybrid-8.2.31/src/channel_mode.c:532-914 | For every mode string and source: only changes of masks are kept from members without status, and on a channel with +u none of them is shown to all members, unless the string itself touches u |
| ModeLists.RunListsOk | ircd-hybrid-8.2.31/src/channel_mode.c:103-232 | No run brings two masks that fold alike into a list, and no local user brings a channel beyond the configured number |
| ModeLists.ModeSetLists | ircd-hybrid-8.2.31/src/channel_mode.c:604-713 | "Accept latter": of several limits or keys of one run only the last is left in the log, with the value the channel has unless removed again; the lists stay free of twins |
| ModeSpec.StepShape | ircd-hybrid-8.2.31/src/channel_mode.c:376-713 | Every handler logs nothing, or one entry of its own letter and direction, after keeping or striking the earlier ones |
| ModeEffects.StatusMode | ircd-hybrid-8.2.31/src/channel_mode.c:547-602 | A mode string of + or - and o, h or v: if the source is an operator, a half-operator asking for v, or no local user, and the parameter resolves to a member, that member gains the status for + and loses it for -, and nothing else of the channel changes; otherwise nothing does |
| ModeEffects.StatusLetter | ircd-hybrid-8.2.31/src/channel_mode.c:547-602 | The same anywhere in a run, as long as a local user has a change left; the change is logged if it changes anything |
| ModeEffects.StatusLetterElse | ircd-hybrid-8.2.31/src/channel_mode.c:547-577 | In every other case the letters o, h and v change and log nothing; missing access is told once |
| ModeEffects.OthersKeepStatus | ircd-hybrid-8.2.31/src/channel_mode.c:376-713 | No other letter changes anybody's status |
| ModeEffects.AccessMeans | ircd-hybrid-8.2.31/src/channel_mode.c:723-744 | Who has the access of a half-operator, of an operator and of a remote source |
| ModeEffects.SimpleLetter | ircd-hybrid-8.2.31/src/channel_mode.c:376-443 | A simple mode that the source may switch is set by + and cleared by -, once in a run; L and O take an operator of the network, r a server or services |
| ModeEffects.SimpleLetterElse | ircd-hybrid-8.2.31/src/channel_mode.c:376-421 | Otherwise nothing changes, and the error that is told is the one for the first thing missing |
| ModeEffects.MaskAdded | ircd-hybrid-8.2.31/src/channel_mode.c:103-232 | What is stored of a mask heads the list, unless the list has it up to folding or a local user has no room, which is max_bans_large with +L and max_bans without; on a channel with +u only operators are shown the change |
| ModeEffects.MaskRemoved | ircd-hybrid-8.2.31/src/channel_mode.c:241-265 | The first entry that folds to the mask goes, the others stay in order, and the entry is logged as it was listed |
| ModeEffects.MaskNotRemoved | ircd-hybrid-8.2.31/src/channel_mode.c:241-265 | If none does, nothing changes |
| ModeEffects.MaskLetterElse | ircd-hybrid-8.2.31/src/channel_mode.c:445-530 | Without a parameter that may be used as a mask nothing changes; the list is shown, on a channel with +u to half-operators only |
| ModeEffects.LimitLetter | ircd-hybrid-8.2.31/src/channel_mode.c:604-657 | A positive number becomes the limit and strikes earlier ones from the log, anything else is ignored, and -l clears a limit |
| ModeEffects.KeyLetter | ircd-hybrid-8.2.31/src/channel_mode.c:659-713 | A key that is not empty once cleaned is set, and -k clears any key whatever the parameter, which is used up |
| ModeEffects.LimitOrKeyRefused | ircd-hybrid-8.2.31/src/channel_mode.c:604-669 | Without the access of a half-operator neither changes |
| ModeEffects.UnknownLetter | ircd-hybrid-8.2.31/src/channel_mode.c:365-374 | A letter that is no mode is told as unknown and changes nothing |
| ModeEffects.OneLetter | ircd-hybrid-8.2.31/src/channel_mode.c:977-1001 | A sign and a letter are one step of that letter in that direction |
| ModeEngine.ModeGlobals.ChannelModeSet | ircd-hybrid-8.2.31/src/channel_mode.c:963-1009 | The engine on its globals and an edited parameter vector: the channel, log, cursor, replies and quota end as the run says, and every member has the status it says; three batches of lines are queued; the ban caches are cleared whenever a mask list changed |
| ModeEngine.ModeGlobals.ReadLetters | ircd-hybrid-8.2.31/src/channel_mode.c:977-1001 | The loop over the mode string refines the recursive run, within the fixed log array |
| ModeEngine.ModeGlobals.ChmSimple | ircd-hybrid-8.2.31/src/channel_mode.c:376-443 | Refines the simple-mode step on global state |
| ModeEngine.ModeGlobals.ChmMask | ircd-hybrid-8.2.31/src/channel_mode.c:445-545 | Refines the mask step; ban caches are all cleared if a list changed and otherwise untouched |
| ModeEngine.ModeGlobals.ChmFlag | ircd-hybrid-8.2.31/src/channel_mode.c:547-602 | The member that the parameter names gains the status for + and loses it for -, if the source may change it and has a change left, and everybody else keeps theirs; the log, cursor and replies are those of the step |
| ModeEngine.ModeGlobals.ChmLimit | ircd-hybrid-8.2.31/src/channel_mode.c:604-657 | Refines the limit step, the parameter being rewritten in place |
| ModeEngine.ModeGlobals.ChmKey | ircd-hybrid-8.2.31/src/channel_mode.c:659-713 | Refines the key step, the parameter being cleaned in place |
| ModeEngine.ModeGlobals.AddId | ircd-hybrid-8.2.31/src/channel_mode.c:103-232 | The list gains the stored string at its head or nothing changes; ban caches are cleared exactly when it was added |
| ModeEngine.ModeGlobals.DelId | ircd-hybrid-8.2.31/src/channel_mode.c:241-265 | The first mask that folds alike goes and is returned as it was listed; ban caches are cleared exactly then |
| ModeEngine.ModeGlobals.CancelEarlier | ircd-hybrid-8.2.31/src/channel_mode.c:630-637 | The loop strikes exactly the earlier additions of the letter |
| ModeEngine.ModeGlobals.PrintChanges | ircd-hybrid-8.2.31/src/channel_mode.c:753-825 | The buffer loop of the server lines, and of each pass of the client lines (837-914), prints exactly the packing of the live entries |
| ModeEngine.ModeGlobals.SendModeChanges | ircd-hybrid-8.2.31/src/channel_mode.c:837-914 | All members are sent the lines of the open entries, operators and half-operators then those of the others; the servers get all |
| ModeEngine.ClearBanCacheList | ircd-hybrid-8.2.31/src/channel_mode.c:336-346 | All three cache flags of every member of the list are clear |
| ModeEngine.CleanUpKey | ircd-hybrid-8.2.31/src/channel_mode.c:314-329 | The in-place loop computes the cleaned key |
| BanCache.CanSend | ircd-hybrid-8.2.31/src/channel.c:735-796 | If the channel's caches are right, the cached verdict equals that of a version that searches the ban lists every time, for members and outsiders, they stay right, and each verdict is given if and only if its own conditions hold: o, h or v gets through whatever is set or banned once the reservation, control-code and CTCP checks pass, an outsider on +n and anybody else on +m never does |
| BanCache.UncachedJudges | ircd-hybrid-8.2.31/src/channel.c:735-796 | When each verdict is given, if and only if, said with the modes, the status, the message and the lists alone |
| BanCache.BanCheck | ircd-hybrid-8.2.31/src/channel.c:772-793 | The ban check through a right cache is exact, mutes included, and leaves a right cache behind |
| BanCache.MuteCanSend | ircd-hybrid-8.2.31/src/extban_mute.c:37-69 | The mute check, which shares the silenced flag, is exact after the ban check and keeps the cache right |
| BanCache.CheckedMeansBanned | ircd-hybrid-8.2.31/src/channel.c:772-793 | Checked implies silenced if and only if is_banned now, where no mute extban is listed; with mutes, silenced means banned or muted |
| BanCache.IsBanned | ircd-hybrid-8.2.31/src/channel.c:619-625 | Some ban that is not acting hits, and no such exception does |
| BanCache.FindBmask | ircd-hybrid-8.2.31/src/channel.c:579-612 | True if and only if some mask of the kind hunted for matches |
| BanCache.ChangeModes | ircd-hybrid-8.2.31/src/channel_mode.c:219-261 | Any mode change, whatever it does to the lists, keeps the caches of all channels right, and is the specified change |
| BanCache.Speak | ircd-hybrid-8.2.31/src/channel.c:735-796 | Speaking on one channel keeps the caches of all channels right, with the uncached verdict, which has its own conditions |
| BanCache.SvsNick | ircd-hybrid-8.2.31/modules/m_svsnick.c:122-146 | A forced nick change keeps every cache right although the nick is part of what was matched |
| BanCache.KeptRightIff | ircd-hybrid-8.2.31/src/extban_usermode.c:36-82 | For one client: every cache that was right stays right under every change of user modes, for all ban and exception lists, if and only if no mask that counts tells user modes apart |
| BanCache.GoesStale | ircd-hybrid-8.2.31/src/extban_usermode.c:36-82 | Where one does, a silenced client whose modes change so that the ban stops matching keeps a wrong cache |
| BanCache.SilencedOperator | ircd-hybrid-8.2.31/modules/m_oper.c:48-72 | A user silenced by `$u:-o` becomes an operator and stays silenced |
| BanCache.Enter | ircd-hybrid-8.2.31/src/channel.c:68-113 | Joining keeps every cache right |
| BanCache.Depart | ircd-hybrid-8.2.31/src/channel.c:122-139 | Leaving keeps every cache right, the freeing of an emptied channel included |
| BanCache.StillCoherentAll | ircd-hybrid-8.2.31/src/channel.c:122-139 | Whatever memberships and channels go at once, as in a netsplit, the caches of those that stay are right |
| Membership.JoinLinked | ircd-hybrid-8.2.31/src/channel.c:68-113 | Linking a new membership keeps both sides consistent, the local list the local part, and users on a channel once |
| Membership.LeaveLinked | ircd-hybrid-8.2.31/src/channel.c:122-139 | Unlinking keeps all that, and no channel without members stays listed |
| Membership.LeaveIsStrip | ircd-hybrid-8.2.31/src/channel.c:122-139 | Leaving removes that one membership from every list and changes nothing else |
| Membership.StripTwice | ircd-hybrid-8.2.31/src/channel.c:122-139 | Losing memberships one by one is losing them together |
| Membership.FindChannelLink | ircd-hybrid-8.2.31/src/channel.c:670-693 | Whichever list is scanned, the answer is the plain membership |
| Membership.AddUserToChannel | ircd-hybrid-8.2.31/src/channel.c:68-113 | The heap lists become those of the graph with the membership joined |
| Membership.RemoveUserFromChannel | ircd-hybrid-8.2.31/src/channel.c:122-139 | The heap lists become those of the graph without the membership; an emptied channel is freed; the channels that are left keep their invites |
| Membership.ChannelMake | ircd-hybrid-8.2.31/src/channel.c:330-350 | A new, empty channel heads the list and the graph stays linked |
| Membership.ChannelFree | ircd-hybrid-8.2.31/src/channel.c:355-398 | All lists of the freed channel are empty, as its asserts demand, and every other channel keeps its invites |
| Membership.QuitChannels | ircd-hybrid-8.2.31/src/client.c:671-672 | The loop that deletes what it stands on removes exactly the memberships of the user, and the channels that are left keep their invites |
| Invites.InviteFind | ircd-hybrid-8.2.31/src/channel_invite.c:42-66 | An unexpired invite is found if and only if there is one, whichever list is walked; only expired ones are deleted on the way |
| Invites.InviteAdd | ircd-hybrid-8.2.31/src/channel_invite.c:72-94 | Any invite of the pair is replaced, oldest invites make room, the client keeps at most max(1, max_invites), newest first, and both lists stay consistent; whatever goes had expired or was the client's own, so every unexpired invite of anybody else stays in both lists |
| Invites.EvictOldest | ircd-hybrid-8.2.31/src/channel_invite.c:82-84 | The loop drops invites from the old end of the client's list only, down to one less than allowed |
| Invites.OthersStay | ircd-hybrid-8.2.31/src/channel_invite.c:72-94 | Dropping expired invites and a client's own, and adding one of that client, leaves all unexpired invites of everybody else in both lists |
| Invites.OthersInvitesStay | ircd-hybrid-8.2.31/src/channel.c:355-398 | Dropping what one channel had leaves every other channel the invites it had |
| Invites.DropsOwn | ircd-hybrid-8.2.31/src/channel_invite.c:113-118 | Clearing a client's list takes exactly its invites out of every channel |
| Invites.InviteDel | ircd-hybrid-8.2.31/src/channel_invite.c:100-108 | The invite leaves both lists and nothing else changes |
| Invites.InviteClearList | ircd-hybrid-8.2.31/src/channel_invite.c:113-118 | Exactly the invites of the list go, from both sides |
| Invites.DropConsistent | ircd-hybrid-8.2.31/src/channel_invite.c:100-108 | Dropping any invites keeps the two families of lists consistent, newest first, one invite per pair |
| Invites.InsertConsistent | ircd-hybrid-8.2.31/src/channel_invite.c:86-93 | So does adding one for a pair that has none |
| ChannelCommands.ChannelDoJoin | ircd-hybrid-8.2.31/src/channel.c:873-1014 | A user enters an existing channel if and only if none of the checks fails, and a refusal names the first that does; a channel is founded, with its founder as operator, +nt, if and only if the name is allowed, there is room and none has that name; who enters has no invite left and an empty ban cache; the unexpired invites of everybody else stay; all invariants and the distinctness of names are kept |
| ChannelCommands.EnterNamed | ircd-hybrid-8.2.31/src/channel.c:924-970 | Admission is the verdict of can_join on the state before; the founder is operator of a +nt channel; anyone else enters without status, the graph changing by that membership alone; a refusal leaves it as it was; nobody else's unexpired invites go |
| ChannelCommands.CanJoin | ircd-hybrid-8.2.31/src/channel.c:634-662 | The verdict is that of the checks in their order on the state before, although looking for an invite deletes expired ones: it lets in exactly those who are secure, registered and operators where that is asked, invited by an invite or the invite list on +i, with the key, with room under the limit, and not banned, and otherwise names the first of these that fails; nobody else's unexpired invites go |
| ChannelCommands.VerdictAnswers | ircd-hybrid-8.2.31/src/channel.c:634-662 | When each verdict is given, if and only if, from the modes, lists and invites of the channel |
| ChannelCommands.GetsOn | ircd-hybrid-8.2.31/src/channel.c:873-1014 | What follows for JOIN: the user ends on a channel of that name if and only if it was on one, or the name is allowed, there is room under max_channels, and no check fails or no channel has the name |
| ChannelCommands.Found | ircd-hybrid-8.2.31/src/channel.c:944-970 | A new channel starts with its founder as operator, +nt, no key and no limit |
| ChannelCommands.UseInvite | ircd-hybrid-8.2.31/src/channel.c:996-1001 | After a join the user has no invite for the channel, and everybody else has what had not expired |
| ChannelCommands.ChannelPartOneClient | ircd-hybrid-8.2.31/src/channel.c:1021-1065 | A user is parted if and only if it was on a channel of that name, and is told that there is none if and only if there is none; exactly that membership goes, the user is then on no channel of that name, and the channels that are left keep their invites |
| ChannelCommands.PartedMeans | ircd-hybrid-8.2.31/src/channel.c:1021-1065 | Exactly the user's memberships on channels of that name go |
| ChannelCommands.JoinedMeans | ircd-hybrid-8.2.31/src/channel.c:873-1014 | Joining takes nobody's membership and adds none but the user's, on a channel of that name |
| ClientExit.UncountUser | ircd-hybrid-8.2.31/src/client.c:651-659 | A user leaves the two lists it hangs in and both counters stay equal to a count over the list |
| ClientExit.ExitOneClient | ircd-hybrid-8.2.31/src/client.c:643-709 | Exactly this client leaves the global lists, its server and its channels, heads the dead list once, and the counters stay exact |
| ClientExit.RecurseRemove | ircd-hybrid-8.2.31/src/client.c:717-730 | Exactly those behind the server go, each once onto the dead list; nothing outside changes; the recursion ends although it deletes the lists it walks |
| ClientExit.ExitedTwice | ircd-hybrid-8.2.31/src/client.c:717-730 | Exits compose: one after the other is both together |
| ServerTree.TakenIsBelow | ircd-hybrid-8.2.31/src/client.c:717-730 | If only those behind a server were taken and nothing is left on it, exactly those behind it were taken |
| ServerTree.TakeOneRooted | ircd-hybrid-8.2.31/src/client.c:643-709 | Taking a user or an empty server leaves a rooted tree |
| Departures.ExitClient | ircd-hybrid-8.2.31/src/client.c:749-878 | For any connection, on the abort list or not: one that is already closing is left alone; otherwise exactly the client and everyone behind it go, and the lists of local users, servers and operators stay exact; of the invites only the client's own go; whether it is on the abort list does not change |
| Departures.ExitMeans | ircd-hybrid-8.2.31/src/client.c:717-730 | Who goes, said without the subtree: the client goes, anybody else stays exactly if the server it is on is this one or stays, and a membership stays exactly if its client does |
| Departures.WriteThenExit | ircd-hybrid-8.2.31/src/client.c:757-877 | A message to a connection and then its exit: the assertion that it is not on the abort list is reached if and only if the connection was not closing, and then holds if and only if it was not queued before and the write does not queue it; a closing connection is left as it was |
| KilledUser.Kill | ircd-hybrid-8.2.31/modules/core/m_kill.c:113-150 | A KILL whose message cannot be written: the assertion is reached and does not hold |
| KilledUser.AloneIsRight | ircd-hybrid-8.2.31/src/client.c:749-878 | All the invariants hold of a daemon with one user, so that the runs have something to start from |
| Departures.CloseConnection | ircd-hybrid-8.2.31/src/client.c:757-812 | The connection leaves the local lists of its kind, and of a user exactly its own invites go |
| Departures.DirectoryAfter | ircd-hybrid-8.2.31/src/client.c:777-801 | Of a whole branch only its root can be connected here, so losing the root makes the local lists right again |
| Departures.ExitAbortedClients | ircd-hybrid-8.2.31/src/client.c:964-992 | The queue ends empty, also of what failing writes append on the way; those that had begun to exit are passed over, each other one goes once with everyone behind it, and nobody else; only the invites of those popped go; the loop ends |
| Departures.Pop | ircd-hybrid-8.2.31/src/client.c:970-975 | The saved iterator names the node after the one that is unlinked, and work decreases, closing or not |
| Departures.GoneAddNothing | ircd-hybrid-8.2.31/src/client.c:759-765 | A second exit of connections that have gone takes nobody with it |
| DeadLinks.DeadLinkOnWrite | ircd-hybrid-8.2.31/src/client.c:884-904 | A connection is queued the first time a write fails and never again; the iterator still names the next node; no work is created |
| DeadLinks.Broadcast | ircd-hybrid-8.2.31/src/client.c:884-904 | Over any failing writes exactly the connections that fail and are not dead, closing or killed become dead and are queued, each once, behind those that were; no work is created |
| Lists.NextIsNewHead | ircd-hybrid-8.2.31/include/list.h:47 | The node saved before the head is deleted is the new head |
| Lists.DeleteIsWithout | ircd-hybrid-8.2.31/src/list.c:117-146 | Deleting a node keeps the order of the others |
| Runs.Serve | ircd-hybrid-8.2.31/src/client.c:964-992 | Over every run of joins, parts, invites, messages, MODE, SVSNICK, OPER, SVSMODE, exits (of queued and of closing connections too), netsplits, failing writes, dead-link passes and waiting, in any order and for any masks: memberships linked, no empty channel, invites consistent, tree rooted, local lists and abort list exact, channel names distinct, operators counted exactly, and invisible users too but for what SVSMODE leaves uncounted, which is nothing unless invisible is in oper_only_umodes. If no action changes user modes that the bans look at, the ban caches stay right and every message gets the verdict that can_send without a cache would give |
| Runs.Act | ircd-hybrid-8.2.31/src/channel.c:873-1081 | Each of those actions keeps all of these invariants together, and does what it is for: JOIN brings the user onto a channel of that name if and only if the checks allow it and takes nobody else's membership or invite; PART takes exactly the user's memberships of that name; an invite is the user's newest and costs nobody else one; MODE leaves the channel as the run on values does; a message gets the uncached verdict, with its own conditions, if the caches were right; SVSNICK gives the nick or exits the user, OPER gives exactly the modes configured, SVSMODE leaves those of the run on values; an exit takes exactly those behind the client, and a pass over the abort list closes all that were on it |
| Steps.JoinStep | ircd-hybrid-8.2.31/src/channel.c:873-1014 | JOIN, founding a channel included, keeps all invariants: the ban cache of the new member is empty and the mask lists of a new channel are its own; who gets on is exactly who the checks let in, and nobody else's membership or invite changes |
| Steps.PartStep | ircd-hybrid-8.2.31/src/channel.c:1021-1081 | So does PART, and exactly the user's memberships on channels of that name go |
| Steps.InviteStep | ircd-hybrid-8.2.31/src/channel_invite.c:72-94 | So does an invite: if there is a channel of that name the user has a new invite to it at the head of at most max(1, max_invites), and every unexpired invite of anybody else stays; the graph does not change |
| Steps.SpeakStep | ircd-hybrid-8.2.31/src/channel.c:735-796 | A message to a channel gets the verdict without a cache if the caches were right, given exactly on the conditions of that verdict, and all invariants are kept |
| Steps.MaySayRightly | ircd-hybrid-8.2.31/src/channel.c:735-796 | The verdict for a name: there is one if and only if there is a channel of that name, and it is given on its own conditions for the status the user has there, or for an outsider |
| Steps.ModeOn | ircd-hybrid-8.2.31/src/channel_mode.c:963-1009 | MODE ends as the engine says for the ids and names the tables hold now, with all caches right and no negative limit |
| Steps.ModeStep | ircd-hybrid-8.2.31/src/channel_mode.c:963-1009 | MODE by anyone keeps all invariants and the graph; the channel of that name ends as the run on values says for the status the source had there, member statuses included |
| Steps.LimitStays | ircd-hybrid-8.2.31/src/channel_mode.c:604-657 | No mode string makes a limit negative |
| Steps.SvsNickStep | ircd-hybrid-8.2.31/modules/m_svsnick.c:103-146 | The user is exited if and only if anybody else listed has the nick up to folding, and has it otherwise; all invariants are kept |
| Steps.OperStep | ircd-hybrid-8.2.31/modules/m_oper.c:48-72 | OPER gives exactly o, the configured modes and, for an administrator, a; it keeps all invariants, and the ban caches if no mask that counts tells the user's modes apart |
| Steps.SvsmodeStep | ircd-hybrid-8.2.31/modules/m_svsmode.c:80-157 | So does SVSMODE, which moves what is uncounted as its run on values does |
| Steps.ExitStep | ircd-hybrid-8.2.31/src/client.c:749-878 | An exit, a whole netsplit included, keeps all invariants, the caches of those that stay too; exactly those behind the client go, and of the invites only the client's own |
| Steps.WorkOffStep | ircd-hybrid-8.2.31/src/client.c:964-992 | So does a pass over the abort list, which ends empty, everybody who was on it closing |
| Steps.StaysSane | ircd-hybrid-8.2.31/src/channel_invite.c:42-66 | Time passing breaks none of them |
| OperCount.CountersRightIff | ircd-hybrid-8.2.31/modules/m_svsmode.c:80-157 | SVSMODE moves Count.oper and Count.invisi as the modes move, for every client and mode string, if and only if oper_only_umodes does not include invisible |
| OperCount.InvisibleOperLost | ircd-hybrid-8.2.31/modules/m_svsmode.c:108-127 | Otherwise `-o` on a local invisible operator loses a count |
| OperCount.Svsmode | ircd-hybrid-8.2.31/modules/m_svsmode.c:80-157 | The loop refines the run on values, and the operator list loses the client exactly when a local operator is deopped |
| OperCount.SvsmodeLetter | ircd-hybrid-8.2.31/modules/m_svsmode.c:80-157 | + sets and - clears a user mode, except that d, x, S, W and unknown letters change nothing and o is only ever taken: with a, and from a local client with what only operators may have |
| OperCount.SvsmodeKeeps | ircd-hybrid-8.2.31/modules/m_svsmode.c:80-157 | oper_list is exactly the local operators and Count.oper a count over the global list, before and after; Count.invisi is one too, but for exactly what the run leaves uncounted |
| OperCount.SvsRunOpers | ircd-hybrid-8.2.31/modules/m_svsmode.c:108-127 | Count.oper moves as the mode does, whatever is configured |
| OperCount.NoneUncounted | ircd-hybrid-8.2.31/modules/m_svsmode.c:80-157 | Nothing is left uncounted if invisible is not in oper_only_umodes |
| OperCount.OperUp | ircd-hybrid-8.2.31/modules/m_oper.c:48-72 | So too for OPER; the user's modes are exactly those before, o, those of the operator block or, if it gives none, the configured ones, and a for an administrator |
| OperCount.CountIsCard | ircd-hybrid-8.2.31/src/client.c:651-656 | The count over the list is the number of listed clients with the mode |
| ServerMap.DrawnIsIdealIff | ircd-hybrid-8.2.31/modules/m_map.c:37-119 | What is drawn is the ideal drawing if and only if no server at the thirtieth level has two visible children |
| ServerMap.ShallowTreesDrawn | ircd-hybrid-8.2.31/modules/m_map.c:37-119 | Trees of at most thirty levels below this server are always drawn right |
| ServerMap.ChildLine | ircd-hybrid-8.2.31/modules/m_map.c:86-119 | In the ideal drawing every visible child has its line, behind a corner if no visible one comes after it and behind a bar otherwise |
| ServerMap.MapPrinter.DumpMap | ircd-hybrid-8.2.31/modules/m_map.c:37-119 | Recursion through the shared buffer prints the drawing and, before the last two characters of its prompt, leaves the buffer as it was |
| ServerMap.MapPrinter.DumpChildren | ircd-hybrid-8.2.31/modules/m_map.c:86-114 | The loop draws every visible child, the last behind a corner, and restores the prompt |
| Who.WhoGlobal | ircd-hybrid-8.2.31/modules/m_who.c:181-238 | Whatever marks there were: nobody is reported twice or wrongly; with fewer than 500 reportable everyone reportable is reported; an invisible client of the list is marked afterwards if and only if it was before or passes the filter and shares a channel, and the limit was reached by visible clients before it in the list; all other marks stay |
| Who.ReportableMeans | ircd-hybrid-8.2.31/modules/m_who.c:136-238 | Who is reportable, said with the modes and channels: with the operator filter only operators, hidden ones to operators alone, and the invisible only on a common channel |
| Who.NotReportedAgain | ircd-hybrid-8.2.31/modules/m_who.c:136-238 | Two WHOs: 499 visible clients before an invisible one on a common channel use up the limit, it keeps its mark, and the next WHO does not report it although it should |
| Who.MarksLeft | ircd-hybrid-8.2.31/modules/m_who.c:208-237 | Who is marked at the end, from the state before the call |
| Who.WhoCommonChannel | ircd-hybrid-8.2.31/modules/m_who.c:136-170 | The marked are the invisible who pass the filter and share a channel; of these the matching are reported, once |
| Who.SecondList | ircd-hybrid-8.2.31/modules/m_who.c:199-237 | The second pass unmarks what it sees and reports the visible; the limit applies only if the first pass did not reach it |
| SListSort.SortPermutes | ircd-hybrid-8.2.31/libltdl/slist.c:306-336 | The result holds the same nodes |
| SListSort.SortSorts | ircd-hybrid-8.2.31/libltdl/slist.c:306-336 | Sorted, for any total preorder |
| SListSort.SortIsStable | ircd-hybrid-8.2.31/libltdl/slist.c:306-336 | Items that rank alike keep their order |
| SListSort.MergeAlike | ircd-hybrid-8.2.31/libltdl/slist.c:272-297 | Merging keeps the order of items that rank alike, those of the left list first |
| SListSort.SListSort | ircd-hybrid-8.2.31/libltdl/slist.c:306-336 | The rewired nodes form an acyclic list that is the sorted sequence; both halves are smaller |
| SListSort.SListSortMerge | ircd-hybrid-8.2.31/libltdl/slist.c:272-297 | The rewired nodes form the merged list |
| SListSort.Split | ircd-hybrid-8.2.31/libltdl/slist.c:318-329 | The two-speed walk cuts the list exactly in the middle |
| CapNegotiation.SearchAgrees | ircd-hybrid-8.2.31/modules/m_cap.c:70-93 | The search order on the rest of the text agrees with the sorting order on its first word |
| CapNegotiation.BSearch | ircd-hybrid-8.2.31/modules/m_cap.c:95-139 | Binary search finds what a case-insensitive search of the whole table for the first word finds |
| CapNegotiation.FindCap | ircd-hybrid-8.2.31/modules/m_cap.c:95-139 | The elements found are those of splitting at white space and looking up each word; the rest of the text is shorter |
| CapNegotiation.RequestExact | ircd-hybrid-8.2.31/modules/m_cap.c:219-267 | An accepted request leaves (old minus removed) plus set, the two disjoint, the last mention of each capability deciding |
| CapNegotiation.RefusedStops | ircd-hybrid-8.2.31/modules/m_cap.c:232-239 | A request is refused if and only if some element is unknown, prohibited or a sticky removal |
| CapNegotiation.Connection.CapReq | ircd-hybrid-8.2.31/modules/m_cap.c:219-267 | The whole request is accepted or nothing changes; non-PROTO bits stay equal, prohibited ones unset, sticky ones set |
| CapNegotiation.Connection.CapAck | ircd-hybrid-8.2.31/modules/m_cap.c:269-305 | Only active bits change, by the confirmations of the list in order, and the invariants hold |
| CapNegotiation.Connection.CapClear | ircd-hybrid-8.2.31/modules/m_cap.c:307-328 | Exactly the set capabilities that are not sticky are cleared and reported |
| CapNegotiation.Connection.Serve | ircd-hybrid-8.2.31/modules/m_cap.c:219-328 | Over every sequence of REQ, ACK and CLEAR: the invariants hold and what was sticky and set stays set |
| CapNegotiation.SendCaplist | ircd-hybrid-8.2.31/modules/m_cap.c:149-208 | Wherever the list is broken into lines, the texts together are the shown words with single spaces, and every line leaves room for what surrounds it |
| ConfDatabase.SaveThenLoad | ircd-hybrid-8.2.31/src/conf_db.c:488-576 | Loading a saved file gives back the records that were in the lists and belonged in the file, in order, NULL and empty strings kept apart, times exact |
| ConfDatabase.SaveDatabase | ircd-hybrid-8.2.31/src/conf_db.c:488-530 | The stored count is the number of records the second pass writes |
| ConfDatabase.KeptPlaces | ircd-hybrid-8.2.31/src/conf_db.c:488-530 | The records in the file are those of the entries marked for it, each once, in the order they are listed, and no others |
| ConfDatabase.LoadDatabase | ircd-hybrid-8.2.31/src/conf_db.c:532-576 | A whole file gives back its records; any other file still gives as many records as its header says |
| ConfDatabase.NumberBytes | ircd-hybrid-8.2.31/src/conf_db.c:326-416 | A number is read back exactly if and only if it fits, and otherwise cut to its lowest octets |
| ConfDatabase.StringBack | ircd-hybrid-8.2.31/src/conf_db.c:424-472 | A NULL is read back as itself, and any string as what was written of it |
| ConfDatabase.Written | ircd-hybrid-8.2.31/src/conf_db.c:461-463 | That is a prefix, and the string itself if and only if it has fewer than 2^32 - 1 octets |
| ConfDatabase.DbFile.ReadUint64 | ircd-hybrid-8.2.31/src/conf_db.c:368-387 | Eight octets, most significant first, or failure |
| ConfDatabase.DbFile.WriteUint64 | ircd-hybrid-8.2.31/src/conf_db.c:396-416 | The stream grows by the eight octets of the number |
| ConfDatabase.DbFile.ReadUint32 | ircd-hybrid-8.2.31/src/conf_db.c:326-339 | Four octets, most significant first, or failure |
| ConfDatabase.DbFile.ReadUint16 | ircd-hybrid-8.2.31/src/conf_db.c:291-302 | Two octets, most significant first, or failure |
| ConfDatabase.DbFile.ReadString | ircd-hybrid-8.2.31/src/conf_db.c:424-447 | Length, then the octets up to the first NUL; length 0 is NULL |
| ConfDatabase.DbFile.WriteString | ircd-hybrid-8.2.31/src/conf_db.c:455-472 | Length with terminator, octets, terminator; the length is first taken modulo 2^32 and then cut |
| ConfDatabase.DbFile.ReadRecord | ircd-hybrid-8.2.31/src/conf_db.c:556-570 | A field that cannot be read keeps the value of the record before, and a record that lies ahead is read whole |
| AuthRelease.StepSound | ircd-hybrid-8.2.31/src/auth.c:116-358 | Every callback keeps the state sound, and none arrives for a freed request |
| AuthRelease.RunSound | ircd-hybrid-8.2.31/src/auth.c:116-511 | Over every interleaving: released at most once and only with both lookups over, freed at most once, and released as soon as both are over unless the client exits first |
| AuthRelease.EndsFreed | ircd-hybrid-8.2.31/src/auth.c:493-511 | When both lookups are over or the client has exited the request has been freed exactly once |
| AuthRelease.StartSound | ircd-hybrid-8.2.31/src/auth.c:472-488 | Whatever completes inside auth_start the state is sound, and the client is released there only if both lookups were over |
| AuthRelease.AuthStart | ircd-hybrid-8.2.31/src/auth.c:472-488 | The structures end in that state, synchronous callbacks included |
| AuthRelease.AuthRequest.ReleaseClient | ircd-hybrid-8.2.31/src/auth.c:116-147 | Frees and hands over the client if and only if nothing is pending |
| AuthRelease.AuthRequest.ConnectCallback | ircd-hybrid-8.2.31/src/auth.c:371-417 | An error ends ident; success waits for the reply |
| AuthRelease.Drive | ircd-hybrid-8.2.31/src/auth.c:116-511 | The handlers, run on any sequence of events, refine the state machine and are never run on a freed request |

## Left out

- Replication.ReplicationHolds: starts at channel_mode_set with equal channels; the timestamp comparison of the TMODE handler, SJOIN, BMASK and the introduction of clients are not modelled. What a cut line does is stated as what is left of it does (CutLines.ReplicationReceived), and as divergence for a cut ban (ReplicationLimits.CutBanDiverges); whether half a parameter still happens to have the same effect in other cases depends on the peer's tables.
- ReplicationFits.ReplicationOfShortChanges: a sufficient condition only, as is ReplicationFits.ReplicationOfShortArguments; the exact ones speak of the printed lines.
- EngineReplication.SetAndReplicate: the header of the lines is a parameter.
- ModeEngine.ModeGlobals.ChmMask: of a ban the string is kept, not who set it and when.
- ModeEngine.ModeGlobals.ChmFlag: find_chasing is a function from parameter to client; the numeric it sends itself when nobody is found is not among the replies.
- ModeEngine.ModeGlobals.ChannelModeSet: the mode string is shorter than the log array, as any received line is; strings kept in the log are values, so later edits of the buffer they point into are not modelled.
- ModeEngine.ModeGlobals.AddId: the formatting and validation of a mask, extended bans included, is a function of letter and mask.
- BanCache.CanSend: matching may depend on the client, its nick and its user modes. Extbans on other channels (src/extban_channel.c) and on the account (src/extban_account.c) look at what changes without any cache being cleared, so that what BanCache.GoesStale says of user modes would hold of them too; such masks are outside the model. The reserved-channel check is a fact about the message.
- ChannelCommands.ChannelDoJoin: one name at a time; the splitting of the list, `JOIN 0`, the checks of the name and of reserved channels (one boolean), join-flood control, spambot warnings, the topic and the numerics are left out.
- ChannelCommands.CanJoin: extended bans against joining are a boolean.
- Departures.ExitClient: clients that have not registered (unknown_list), the whowas, watch and accept lists, services tags and hash entries are left out; so are the pointers that may be null on the abort list and free_exited_clients, which releases the memory of what is on the dead list.
- Runs.Serve: registering users and servers is not an action; a run starts in any state in which the invariants hold. NICK, SJOIN, BMASK, umode changes by MODE and changes of host, which clear the caches themselves or not at all, are not among its actions. The caches are promised for runs that change no user modes that the bans look at (BanCache.KeptRightIff).
- Steps.SvsNickStep: a local user whose nick is valid; exits of clients that have not registered, timestamps, watch and whowas are left out, and so is the message to a remote user's server.
- OperCount.Svsmode: the mode letters as a set; host cloaking by +x, services stamps and the notices are left out.
- OperCount.OperUp: operator flags and the notices are left out.
- ServerMap.MapPrinter.DumpMap: of each line the drawing, the name and the note that there is more; user counts and padding are left out. Deeper prompts than the buffer holds do not occur since the recursion stops.
- Who.WhoGlobal: whether names match is a function of the client; throttling and the format of the reply are left out.
- CapNegotiation.Connection.CapReq: LS, LIST, END and the registration state are left out; answers are the sets they report, whose text is CapNegotiation.SendCaplist.
- CapNegotiation.SendCaplist: the text of the list; the header around it is a length.
- ConfDatabase.SaveThenLoad: the four kinds of bans differ in the number of their strings only, so one pair of methods with that number as a parameter stands for the four; files, renaming and write errors are left out.
- AuthRelease.Drive: the parsing of the ident reply, verification of the host name and its length, and the notices are left out.
- Hash tables are searches, linked lists are sequences (deletion of a node is deletion of what it holds), 32-bit counters do not wrap.
- Join-flood control uses floating point and only drives notices.
- STATS, WHOIS, TRACE, LINKS, MOTD, HELP, the K/D/X-line commands, TLS, sockets and buffers: reporting and I/O.
- The rest of libltdl: foreign calls and the file system.
- That ids are distinct is assumed of the state, as the id table gives it.
