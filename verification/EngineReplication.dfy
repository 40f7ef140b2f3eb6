// Replication from the running engine: a peer that obeys the lines it queued has the sender's channel.
module EngineReplication {
  import opened Strings
  import opened ModeSpec
  import opened ModeLines
  import opened ModeWire
  import E = Entities
  import M = Membership
  import G = ModeEngine
  import P = SpacedMasks
  import A = ModeReplay
  import K = CutLines
  import R = Replication

  /** What is sent of each queued text. */
  function Sent(texts: seq<string>): seq<string> {
    seq(|texts|, i requires 0 <= i < |texts| => Cut(texts[i]))
  }

  lemma SentIsTexts(h: Header, lines: seq<seq<Item>>)
    ensures Sent(G.Rendered(h.Text(), lines)) == Texts(h, lines)
  {
    forall i | 0 <= i < |lines| ensures Cut(G.Rendered(h.Text(), lines)[i]) == Cut(Text(h, lines[i])) {
      assert h.Text() + Body(lines[i]) == Text(h, lines[i]);
    }
  }

  lemma NoneLong(h: Header, lines: seq<seq<Item>>)
    requires forall t :: t in G.Rendered(h.Text(), lines) ==> |t| <= LINE_MAX
    ensures R.NoneCut(h, lines)
  {
    forall i | 0 <= i < |lines| ensures |Text(h, lines[i])| <= LINE_MAX {
      assert G.Rendered(h.Text(), lines)[i] == h.Text() + Body(lines[i]);
    }
  }

  /** What is known of the lines of a run. */
  lemma LinesReplicate(env: Env, peer: Env, src: Source, member: Option<set<char>>, chan: Channel, parv: seq<string>,
                       h: Header, texts: seq<string>)
    requires R.Preconditions(env, peer, src, chan, parv, h)
    requires texts == G.Rendered(h.Text(), Lines(|h.Text()|, Live(ModeSet(env, src, member, chan, parv).log)))
    ensures '=' !in parv[0] && (forall t :: t in texts ==> |t| <= LINE_MAX) ==>
      (DeliverAll(peer, src, chan, Sent(texts)) == ModeSet(env, src, member, chan, parv).chan <==>
        !P.BringsSpaces(env, src, parv))
    ensures |h.Text()| <= LINE_MAX && !P.BringsSpaces(env, src, parv) ==>
      DeliverAll(peer, src, chan, Sent(texts)) == A.ApplyAll(peer, src, chan, K.ReceivedAll(Sent(texts)))
  {
    assert parv != [];
    hide R.Preconditions, R.NoneCut, ModeSet, Lines, Live, DeliverAll, G.Rendered, Texts, Sent, P.BringsSpaces;
    var lines := Lines(|h.Text()|, Live(ModeSet(env, src, member, chan, parv).log));
    SentIsTexts(h, lines);
    if '=' !in parv[0] && forall t :: t in texts ==> |t| <= LINE_MAX {
      NoneLong(h, lines);
      R.ReplicationHolds(env, peer, src, member, chan, parv, h);
    }
    if |h.Text()| <= LINE_MAX && !P.BringsSpaces(env, src, parv) {
      K.ReplicationReceived(env, peer, src, member, chan, parv, h);
    }
  }

  /** channel_mode_set, and a peer that had the channel as it was and obeys the lines queued for the other servers, cut
      as they are sent. For a mode string without "=" and lines that are not too long the peer ends with the channel as
      it is, if and only if the change brings no mask with a space, as only a directly connected server's can. However
      long the lines are, the peer does what is left of them. */
  method SetAndReplicate(g: G.ModeGlobals, env: Env, src: Source, ghost d: E.Ircd, chase: string -> E.Client?,
                         channel: E.Channel, member: E.ChannelMember?, parv: array<string>, clientHead: string,
                         h: Header, ghost peer: Env)
    returns (ghost texts: seq<string>)
    requires G.DistinctIds(channel.members) && channel.SeparateLists()
    requires parv.Length > 0 && |parv[0]| < IRCD_BUFSIZE == g.changes.Length
    requires M.Linked(M.View(d)) && channel in d.channelList && G.Resolves(env, chase, d.people)
    requires R.Preconditions(env, peer, src, G.Value(channel), parv[..], h)
    modifies g`count, g`quota, g`simple, g`parn, g`errors, g`replies, g.changes, parv, g`toServers, g`toMembers
    modifies channel.mode, channel.banlist, channel.exceptlist, channel.invexlist, (set m | m in channel.members)`status
    modifies (set m | m in channel.membersLocal)`banChecked, (set m | m in channel.membersLocal)`banSilenced
    modifies (set m | m in channel.membersLocal)`muteChecked
    ensures G.DistinctIds(channel.members) && g.toServers == old(g.toServers) + texts
    ensures '=' !in old(parv[0]) && (forall t :: t in texts ==> |t| <= LINE_MAX) ==>
      (DeliverAll(peer, src, old(G.Value(channel)), Sent(texts)) == G.Value(channel) <==>
        !P.BringsSpaces(env, src, old(parv[..])))
    ensures |h.Text()| <= LINE_MAX && !P.BringsSpaces(env, src, old(parv[..])) ==>
      DeliverAll(peer, src, old(G.Value(channel)), Sent(texts)) ==
        A.ApplyAll(peer, src, old(G.Value(channel)), K.ReceivedAll(Sent(texts)))
  {
    hide G.DistinctIds, M.Linked, G.Resolves, R.Preconditions, R.NoneCut, ModeSet, Lines, Live, Visible, DeliverAll,
      G.Rendered, Texts, Sent, P.BringsSpaces, A.ApplyAll, K.ReceivedAll;
    ghost var chan, args, status := G.Value(channel), parv[..], if member == null then None else Some(member.status);
    texts := G.Rendered(h.Text(), Lines(|h.Text()|, Live(ModeSet(env, src, status, chan, args).log)));
    LinesReplicate(env, peer, src, status, chan, args, h, texts);
    g.ChannelModeSet(env, src, d, chase, channel, member, parv, clientHead, h.Text());
  }
}
