/**
 The hub over its channel mixers: clients that bind, go, and send packets, as operations on the objects.
 */
module RelayHubs {
  import opened Packets
  import opened RelayModel
  import C = ChannelMixers
  import U = UdpCodec

  class Hub {
    const book: C.RelayHub
    const settings: Settings
    var channels: map<string, C.ChannelMixer>

    /** Every channel's mixer knows its own name, this hub's clients and its settings; so no two names share one. */
    ghost predicate Valid()
      reads this, channels.Values
    {
      forall n :: n in channels ==>
        channels[n].name == n && channels[n].hub == book && channels[n].settings == settings
    }

    ghost function View(): Relay
      reads this, book, channels.Values
    {
      Relay(book.clients, map n | n in channels :: channels[n].View())
    }

    constructor (hubSettings: Settings)
      ensures Valid() && View() == EMPTY && fresh(book)
    {
      book := new C.RelayHub();
      settings := hubSettings;
      channels := map[];
    }

    method AddClient(session: uint32)
      requires Valid()
      modifies book
      ensures Valid() && View() == Added(old(View()), session)
    {
      book.clients := book.clients[session := Client("", false, false, [], [])];
    }

    /** The mixer of a channel, made if need be; no name means the default channel. */
    method GetOrCreateChannel(channelName: string) returns (m: C.ChannelMixer)
      requires Valid()
      modifies this
      ensures Valid()
      ensures var name := if channelName == "" then "default" else channelName;
              && name in channels && channels[name] == m
              && (name in old(channels) ==> channels == old(channels))
              && (name !in old(channels) ==> fresh(m) && channels == old(channels)[name := m])
              && View() == SetMixer(old(View()), name, MixerAt(old(View()), name))
    {
      hide C.ChannelMixer.View;
      var name := if channelName == "" then "default" else channelName;
      if name in channels {
        m := channels[name];
        assert old(View()).channels[name := MixerAt(old(View()), name)] == old(View()).channels;
        return;
      }
      m := new C.ChannelMixer(name, book, settings);
      channels := channels[name := m];
      assert View().channels == old(View()).channels[name := NEW_MIXER];
    }

    /** One mixer's change is one channel's change. */
    twostate lemma OneChannelChanged(name: string, new m: C.ChannelMixer)
      requires Valid() && old(Valid()) && name in channels && channels[name] == m
      requires channels == old(channels)
      requires forall n :: n in channels && n != name ==> unchanged(channels[n])
      ensures View().channels == old(View()).channels[name := m.View()]
    {
    }

    method RemoveClient(session: uint32)
      requires Valid()
      modifies book, channels.Values
      ensures Valid() && View() == RelayModel.RemoveClient(old(View()), session)
    {
      hide RemoveParticipant, C.ChannelMixer.View;
      if session !in book.clients {
        return;
      }
      book.clients := book.clients - {session};
      RemoveFromAll(session);
    }

    /** Takes the session out of every channel, one after the other. */
    method RemoveFromAll(session: uint32)
      requires Valid()
      modifies channels.Values
      ensures Valid()
      ensures forall n :: n in channels ==> channels[n].View() == RemoveParticipant(old(channels[n].View()), session)
    {
      hide RemoveParticipant, C.ChannelMixer.View;
      var rest := channels.Keys;
      while rest != {}
        invariant rest <= channels.Keys && Valid()
        invariant forall n :: n in rest ==> channels[n].View() == old(channels[n].View())
        invariant forall n :: n in channels && n !in rest ==>
                    channels[n].View() == RemoveParticipant(old(channels[n].View()), session)
        decreases rest
      {
        var n :| n in rest;
        rest := rest - {n};
        channels[n].Remove(session);
        assert forall k :: k in channels && k != n ==> channels[k] != channels[n];
      }
    }

    /** Only the last change of a channel counts. */
    static lemma MadeAndPut(r: Relay, name: string, m: Mixer, local: Local)
      ensures Put(SetMixer(r, name, m), name, local) == Put(r, name, local)
      ensures name in SetMixer(r, name, m).channels && SetMixer(r, name, m).channels[name] == m
    {
    }

    method JoinIn(name: string, session: uint32, now: int)
      requires Valid() && name in channels
      modifies book, channels[name]
      ensures Valid()
      ensures var r := old(View());
              var m := AddParticipant(r.channels[name], session);
              View() == Put(r, name, (m, SendLatest(settings, m, r.clients, session, now)))
    {
      hide SendLatest, AddParticipant, C.ChannelMixer.View;
      assert View().channels[name] == channels[name].View();
      channels[name].Add(session);
      channels[name].SendLatestTo(session, now);
      OneChannelChanged(name, channels[name]);
    }

    /** Takes the session into a channel and sends it the latest frame there. */
    method Enter(session: uint32, name: string, now: int)
      requires Valid() && name != ""
      modifies this, book, channels.Values
      ensures Valid() && View() == RelayModel.Enter(settings, old(View()), session, name, now)
    {
      hide SendLatest, AddParticipant, MixerAt, SetMixer, Put, View;
      var m := GetOrCreateChannel(name);
      JoinIn(name, session, now);
      ghost var joined := AddParticipant(MixerAt(old(View()), name), session);
      MadeAndPut(old(View()), name, MixerAt(old(View()), name),
                 (joined, SendLatest(settings, joined, old(View()).clients, session, now)));
      ClientsOfSet(old(View()), name);
    }

    static lemma ClientsOfSet(r: Relay, name: string)
      ensures SetMixer(r, name, MixerAt(r, name)).clients == r.clients
    {
    }

    method RemoveIn(name: string, session: uint32)
      requires Valid() && name in channels
      modifies channels[name]
      ensures Valid()
      ensures var r := old(View());
              View() == Put(r, name, (RemoveParticipant(r.channels[name], session), r.clients))
    {
      hide RemoveParticipant, C.ChannelMixer.View;
      assert View().channels[name] == channels[name].View();
      channels[name].Remove(session);
      OneChannelChanged(name, channels[name]);
    }

    method Quit(session: uint32, name: string)
      requires Valid() && name != ""
      modifies this, channels.Values
      ensures Valid() && View() == RelayModel.Quit(old(View()), session, name)
      ensures forall n :: n in channels ==>
                (n in old(channels) && channels[n] == old(channels)[n]) || fresh(channels[n])
    {
      hide RemoveParticipant, MixerAt, View;
      var m := GetOrCreateChannel(name);
      RemoveIn(name, session);
    }

    method AdmitIn(name: string, session: uint32, now: int) returns (accept: bool)
      requires Valid() && name in channels
      modifies book, channels[name]
      ensures Valid()
      ensures var r := old(View());
              View() == Put(r, name, Admit(settings, r.channels[name], r.clients, session, now))
    {
      hide Admit, C.ChannelMixer.View;
      assert View().channels[name] == channels[name].View();
      accept := channels[name].CanAcceptTxPacket(session, now);
      OneChannelChanged(name, channels[name]);
    }

    /** A voice packet for a channel, up to its mixer's queue. */
    method Route(name: string, session: uint32, now: int) returns (accept: bool)
      requires Valid() && name != ""
      modifies this, book, channels.Values
      ensures Valid()
      ensures var r := old(View());
              View() == Put(r, name, Admit(settings, MixerAt(r, name), r.clients, session, now))
    {
      hide Admit, MixerAt, SetMixer, Put, View;
      var m := GetOrCreateChannel(name);
      accept := AdmitIn(name, session, now);
      MadeAndPut(old(View()), name, MixerAt(old(View()), name),
                 Admit(settings, MixerAt(old(View()), name), old(View()).clients, session, now));
      ClientsOfSet(old(View()), name);
    }

    method MarkIn(name: string, session: uint32, now: int)
      requires Valid() && name in channels
      modifies channels[name]
      ensures Valid()
      ensures var r := old(View());
              View() == Put(r, name, (RelayModel.MarkEof(settings, r.channels[name], session, now), r.clients))
    {
      hide RelayModel.MarkEof, C.ChannelMixer.View;
      assert View().channels[name] == channels[name].View();
      channels[name].MarkEof(session, now);
      OneChannelChanged(name, channels[name]);
    }

    /** An end marker of a session, if it is connected. */
    method MarkTxEof(session: uint32, now: int)
      requires Valid()
      modifies this, channels.Values
      ensures Valid()
      ensures var r := old(View());
              View() == if session in r.clients then RelayModel.RouteEof(settings, r, session, now) else r
    {
      hide RelayModel.MarkEof, MixerAt, C.ChannelMixer.View;
      if session !in book.clients {
        return;
      }
      var name := book.clients[session].channel;
      if name == "" {
        return;
      }
      var m := GetOrCreateChannel(name);
      MarkIn(name, session, now);
    }

    method SwitchChannel(session: uint32, newChannel: string, now: int)
      requires Valid() && session in book.clients
      modifies this, book, channels.Values
      ensures Valid() && View() == RelayModel.SwitchChannel(settings, old(View()), session, newChannel, now)
    {
      hide RelayModel.Enter, RemoveParticipant, C.ChannelMixer.View;
      var oldChannel := book.clients[session].channel;
      if oldChannel == newChannel {
        if newChannel != "" {
          Enter(session, newChannel, now);
        }
        return;
      }
      if oldChannel != "" {
        Quit(session, oldChannel);
        assert forall m :: m in channels.Values ==> m in old(channels.Values) || fresh(m);
      }
      SetChannel(session, newChannel);
      Enter(session, if newChannel == "" then "default" else newChannel, now);
    }

    method SetChannel(session: uint32, newChannel: string)
      requires Valid() && session in book.clients
      modifies book
      ensures Valid()
      ensures var r := old(View());
              View() == r.(clients := r.clients[session := r.clients[session].(channel := newChannel)])
    {
      book.clients := book.clients[session := book.clients[session].(channel := newChannel)];
    }

    /** What goes on in the client's channel, to a client that has just joined it. */
    method SyncChannelWsSessionToClient(session: uint32)
      requires Valid() && session in book.clients
      modifies book
      ensures Valid() && View() == Sync(settings, old(View()), session)
    {
      hide SyncMessages, C.ChannelMixer.View;
      var name := book.clients[session].channel;
      if name == "" || name !in channels {
        return;
      }
      assert View().channels[name] == channels[name].View();
      ghost var before := book.clients;
      channels[name].SyncSessionStateTo(session);
      ghost var messages := SyncMessages(settings, old(View()).channels[name]);
      assert book.clients == before[session := Told(before[session], messages)];
    }

    /** One tick of one channel's mixer. */
    method Tick(name: string, now: int, f: Frame, emits: bool, dropped: set<uint32>)
      requires Valid() && name in channels
      modifies book, channels[name]
      ensures Valid()
      ensures var r := old(View());
              View() == Put(r, name, MixTick(settings, r.channels[name], r.clients, name, now, f, emits, dropped))
    {
      hide MixTick, C.ChannelMixer.View;
      assert View().channels[name] == channels[name].View();
      channels[name].Tick(now, f, emits, dropped);
      OneChannelChanged(name, channels[name]);
    }

    method GreetIn(name: string, session: uint32, now: int)
      requires Valid() && name in channels
      modifies book
      ensures Valid()
      ensures var r := old(View());
              var m := r.channels[name];
              View() == Put(r, name, (m, SendLatest(settings, m, r.clients, session, now)))
    {
      hide SendLatest, C.ChannelMixer.View;
      assert View().channels[name] == channels[name].View();
      channels[name].SendLatestTo(session, now);
      OneChannelChanged(name, channels[name]);
    }

    /** The last mixed frame of a channel, to a client whose address has become known. */
    method SendLatestFrame(name: string, session: uint32, now: int)
      requires Valid() && name != ""
      modifies this, book, channels.Values
      ensures Valid()
      ensures var r := old(View());
              var m := MixerAt(r, name);
              View() == Put(r, name, (m, SendLatest(settings, m, r.clients, session, now)))
    {
      hide SendLatest, MixerAt, SetMixer, Put, View;
      var m := GetOrCreateChannel(name);
      GreetIn(name, session, now);
      ghost var m0 := MixerAt(old(View()), name);
      MadeAndPut(old(View()), name, m0, (m0, SendLatest(settings, m0, old(View()).clients, session, now)));
      ClientsOfSet(old(View()), name);
    }

    /** A datagram of any kind, from any address: one step of the relay. */
    method RoutePacket(p: AudioPacket, now: int)
      requires Valid()
      modifies this, book, channels.Values
      ensures Valid() && View() == Step(settings, old(View()), Datagram(p, now))
    {
      hide SendLatest, Admit, RouteEof, MixerAt, Put, C.ChannelMixer.View;
      if p.sessionId !in book.clients {
        return;
      }
      SetUdpAddr(p.sessionId);
      if U.IsUdpEofMarker(p) {
        MarkTxEof(p.sessionId, now);
        return;
      }
      var channelName := book.clients[p.sessionId].channel;
      if |p.opus| == 0 {
        if p.sequence == 0 && p.signal == U.KEEPALIVE_SIGNAL && channelName != "" {
          SendLatestFrame(channelName, p.sessionId, now);
        }
        return;
      }
      if channelName == "" {
        return;
      }
      var accept := Route(channelName, p.sessionId, now);
    }

    method SetUdpAddr(session: uint32)
      requires Valid() && session in book.clients
      modifies book
      ensures Valid() && View() == Punched(old(View()), session)
    {
      book.clients := book.clients[session := book.clients[session].(hasUdp := true)];
    }
  }
}
