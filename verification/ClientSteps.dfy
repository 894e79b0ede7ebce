/** The steps of the system, as one client sees them. */
module ClientSteps {
  import opened Client
  import opened Deck
  import opened Defines
  import opened Invariant
  import opened Membership
  import opened Relay
  import opened World
  import opened Wrappers

  /** What a client sends for a line is a well-formed line, and a quit exactly for `/quit`. */
  lemma LineMsgIsLine(line: string)
    requires Typeable(line)
    ensures IsLine(LineMsg(line))
    ensures IsQuit(LineMsg(line)) <==> line == "/quit"
  {
    if StartsWithJoin(line) {
      assert line[1] == line[..5][1] == 'j';
    }
  }

  /** The deck's parse of a client's messages. */
  lemma RequestOfLine(s: string, c: string, m: Frames)
    requires IsLine(m)
    ensures var request := CrewRequest(Prefixed(s, Prefixed(c, m)));
            !request.Malformed? && !request.Login? && (request.Quit? <==> IsQuit(m))
  {
    var input := Prefixed(s, Prefixed(c, m));
    assert input[2] == m[0] && input[3] == m[1] && input[4] == m[2];
    assert |m| >= 4 ==> input[5] == m[3];
  }

  lemma RequestOfLogin(s: string, c: string, username: string, password: string)
    ensures CrewRequest(Prefixed(s, Prefixed(c, LoginMsg(username, password)))) == Login(username, password)
    ensures !IsQuit(LoginMsg(username, password))
  {
    assert Prefixed(s, Prefixed(c, LoginMsg(username, password)))
        == [s, c, "CREW", "LOGIN", username, password];
  }

  lemma ClientSaysOk(d: Deck, serverId: string, up: seq<Frames>, down: seq<Frames>, c: string, p: ClientProc,
                     line: string, accepted: bool)
    requires ClientOk(d, serverId, up, down, c, p) && p.phase.Active? && Typeable(line)
    requires IsCommand(line) && line != "/quit" ==> accepted
    ensures ClientOk(d, serverId, up, down, c, ClientSays(p, line, accepted))
  {
    var q := ClientSays(p, line, accepted);
    LineMsgIsLine(line);
    assert forall i :: 0 <= i < |p.submitted| ==> q.submitted[i] == p.submitted[i] && !IsQuit(p.submitted[i]);
  }

  /** The client's first message is the ACK, and no later one stops it. */
  lemma ClientTurnOk(d: Deck, serverId: string, up: seq<Frames>, down: seq<Frames>, c: string, p: ClientProc)
    requires ClientOk(d, serverId, up, down, c, p) && p.inbox != [] && !p.phase.Stopped?
    ensures ClientOk(d, serverId, up, down, c, ClientNext(p))
    ensures ClientNext(p).phase.Active?
  {
    var q := ClientNext(p);
    var n := |p.received|;
    assert FramesOfAll(p.emitted)[n] == p.inbox[0];
    assert p.emitted[n].frames == p.inbox[0];
    assert q.received + q.inbox == p.received + p.inbox;
  }

  lemma RelayUpOk(d: Deck, serverId: string, up: seq<Frames>, down: seq<Frames>, c: string, p: ClientProc,
                  from: string, m: Frames)
    requires ClientOk(d, serverId, up, down, c, p)
    requires c == from ==> p.outbox != [] && p.outbox[0] == m
    ensures ClientOk(d, serverId, up + [Prefixed(from, m)], down, c,
                     if c == from then p.(outbox := p.outbox[1..]) else p)
  {
    if c == from {
      var q := p.(outbox := p.outbox[1..]);
      assert Disciplined(q) && Downstream(down, c, q) && Recorded(d, serverId, c, q) && Greeted(q);
    }
    RelayUpStream(up, c, p, from, m);
    hide Disciplined, Upstream, Downstream, Recorded, Greeted;
  }

  lemma RelayUpStream(up: seq<Frames>, c: string, p: ClientProc, from: string, m: Frames)
    requires Upstream(up, c, p)
    requires c == from ==> p.outbox != [] && p.outbox[0] == m
    ensures Upstream(up + [Prefixed(from, m)], c, if c == from then p.(outbox := p.outbox[1..]) else p)
  {
    RoutedConcat(up, [Prefixed(from, m)], c);
    RoutedPrefixed(from, m, c);
    hide Routed, Prefixed;
    assert Routed(up, c) + [] == Routed(up, c);
    if c == from {
      assert p.outbox == [m] + p.outbox[1..];
      assert p.consumed + Routed(up, c) + ([m] + p.outbox[1..]) == p.consumed + (Routed(up, c) + [m]) + p.outbox[1..];
    }
  }

  lemma RelayDownOk(d: Deck, serverId: string, up: seq<Frames>, down: seq<Frames>, c: string, p: ClientProc)
    requires ClientOk(d, serverId, up, down, c, p) && down != []
    ensures ClientOk(d, serverId, up, down[1..], c, p.(inbox := p.inbox + Routed([down[0]], c)))
  {
    var q := p.(inbox := p.inbox + Routed([down[0]], c));
    assert Disciplined(q) && Upstream(up, c, q) && Recorded(d, serverId, c, q) && Greeted(q);
    RelayDownStream(down, c, p);
    hide Disciplined, Upstream, Downstream, Recorded, Greeted;
  }

  lemma RelayDownStream(down: seq<Frames>, c: string, p: ClientProc)
    requires Downstream(down, c, p) && down != []
    ensures Downstream(down[1..], c, p.(inbox := p.inbox + Routed([down[0]], c)))
  {
    hide FramesOfAll, Routed;
    assert down == [down[0]] + down[1..];
    RoutedConcat([down[0]], down[1..], c);
    assert p.received + (p.inbox + Routed([down[0]], c)) + Routed(down[1..], c)
        == p.received + p.inbox + (Routed([down[0]], c) + Routed(down[1..], c));
  }

  // ----- The deck handles the first message of the relay -----

  /** The message the deck is about to handle is the client's next one. */
  lemma HeadIsNext(up: seq<Frames>, c: string, p: ClientProc)
    requires Upstream(up, c, p)
    requires up != [] && up[0] != [] && up[0][0] == c
    ensures |p.consumed| < |p.submitted| && up[0][1..] == p.submitted[|p.consumed|]
    ensures p.consumed == p.submitted[..|p.consumed|]
    ensures p.consumed + [up[0][1..]] + Routed(up[1..], c) + p.outbox == p.submitted
  {
    assert up == [up[0]] + up[1..];
    RoutedConcat([up[0]], up[1..], c);
    RoutedOne(up[0], c);
  }

  /** So its request is served: the client has not quit, and logs in exactly with its first message. */
  lemma HeadMessage(d: Deck, serverId: string, up: seq<Frames>, c: string, p: ClientProc)
    requires Disciplined(p) && Upstream(up, c, p) && Recorded(d, serverId, c, p)
    requires up != [] && up[0] != [] && up[0][0] == c
    ensures |p.consumed| < |p.submitted| && up[0] == Prefixed(c, p.submitted[|p.consumed|])
    ensures up[0][1..] == p.submitted[|p.consumed|]
    ensures NoQuit(p.consumed)
    ensures c in d.clients ==> d.clients[c].online
    ensures var request := CrewRequest(Prefixed(serverId, up[0]));
            && (request.Login? <==> c !in d.clients)
            && (request.Login? ==> request.username == p.username)
            && (request.Quit? <==> IsQuit(up[0][1..]))
            && !request.Malformed?
  {
    var m := up[0][1..];
    var n := |p.consumed|;
    HeadIsNext(up, c, p);
    assert up[0] == Prefixed(c, m);
    forall i | 0 <= i < n
      ensures !IsQuit(p.consumed[i])
    {
      assert p.consumed[i] == p.submitted[i];
    }
    if n == 0 {
      RequestOfLogin(serverId, c, p.username, p.password);
    } else {
      RequestOfLine(serverId, c, m);
    }
  }

  /** One reply of the deck reaches its client, and nobody else. */
  lemma ReplyReaches(messages: seq<Frames>, s: string, c: string, k: string)
    requires OneReply(messages, s, c)
    ensures ToClient(s, messages, k) == if messages != [] && k == c then [messages[0][2..]] else []
  {
    if messages != [] {
      var m := messages[0];
      assert messages == [m];
      RoutedOne(m, s);
      RoutedOne(m[1..], k);
      assert m[1..][1..] == m[2..];
    } else {
      assert Routed(messages, s) == [];
    }
  }

  /** The deck's record of the client whose message was handled. */
  lemma SenderRecorded(d: Deck, serverId: string, up: seq<Frames>, c: string, p: ClientProc, r: Reaction,
                       request: Request)
    requires Disciplined(p) && Upstream(up, c, p) && Recorded(d, serverId, c, p)
    requires up != [] && up[0] != [] && up[0][0] == c
    requires request == CrewRequest(Prefixed(serverId, up[0]))
    requires Affects(d, r, serverId, c, request)
    ensures var q := ClientAfterCrew(p, c, serverId, r, up[0]);
            Recorded(r.deck, serverId, c, q) && Upstream(up[1..], c, q) && Disciplined(q)
  {
    var q := ClientAfterCrew(p, c, serverId, r, up[0]);
    var m := up[0][1..];
    assert Disciplined(q);
    HeadMessage(d, serverId, up, c, p);
    HeadIsNext(up, c, p);
    hide Disciplined, Routed, CrewRequest;
    RoutedOne(up[0], c);
    assert q.consumed == p.consumed + [m];
    NoQuitOfMore(p.consumed, m);
  }

  lemma NoQuitOfMore(ms: seq<Frames>, m: Frames)
    ensures NoQuit(ms + [m]) <==> NoQuit(ms) && !IsQuit(m)
  {
    assert (ms + [m])[|ms|] == m;
    assert forall i :: 0 <= i < |ms| ==> (ms + [m])[i] == ms[i];
  }

  /** A client can read the deck's replies, and none of them kills it. */
  lemma RepliesReadable(messages: seq<Frames>, s: string, c: string)
    requires OneReply(messages, s, c)
    ensures |ToClient(s, messages, c)| <= 1
    ensures forall i :: 0 <= i < |ToClient(s, messages, c)| ==>
              Readable(ToClient(s, messages, c)[i]) && !KillsClient(ToClient(s, messages, c)[i])
  {
    ReplyReaches(messages, s, c, c);
    hide ToClient;
    if messages != [] {
      var m := messages[0][2..];
      assert m[0] == "SHIP" && (m[1] == "ACK" || m[1] == "INFO");
      assert Readable(m) && !KillsClient(m);
    }
  }

  /** The replies join the client's stream, which begins with the ACK. */
  lemma SenderGreeted(serverId: string, down: seq<Frames>, c: string, p: ClientProc, r: Reaction, m: Frames)
    requires Downstream(down, c, p) && Greeted(p)
    requires OneReply(r.toServer, serverId, c)
    requires p.consumed == [] ==> r.toServer == [[serverId, c, "SHIP", "ACK"]]
    requires m != [] && m[0] == c
    ensures var q := ClientAfterCrew(p, c, serverId, r, m);
            Downstream(down + Routed(r.toServer, serverId), c, q) && Greeted(q)
  {
    var q := ClientAfterCrew(p, c, serverId, r, m);
    var replies := ToClient(serverId, r.toServer, c);
    ReplyReaches(r.toServer, serverId, c, c);
    RoutedOne(m, c);
    RepliesReadable(r.toServer, serverId, c);
    DownstreamGrows(down, Routed(r.toServer, serverId), c, p, replies, None);
    assert q.consumed != [];
    hide Downstream, Routed, OneReply, Readable, KillsClient;
    if p.consumed == [] {
      assert replies == [ACK];
      assert q.emitted == [Emission(ACK, None)];
    } else {
      GreetedGrows(p, replies, None);
    }
  }

  /** The client whose message was handled. */
  lemma SenderAfterCrewOk(d: Deck, serverId: string, up: seq<Frames>, down: seq<Frames>, c: string, p: ClientProc,
                          r: Reaction, request: Request)
    requires ClientOk(d, serverId, up, down, c, p)
    requires up != [] && up[0] != [] && up[0][0] == c
    requires request == CrewRequest(Prefixed(serverId, up[0]))
    requires Affects(d, r, serverId, c, request)
    ensures ClientOk(r.deck, serverId, up[1..], down + Routed(r.toServer, serverId), c,
                     ClientAfterCrew(p, c, serverId, r, up[0]))
  {
    hide Disciplined, Upstream, Downstream, Greeted, Routed, CrewRequest, ClientAfterCrew;
    SenderRecorded(d, serverId, up, c, p, r, request);
    HeadMessage(d, serverId, up, c, p);
    SenderGreeted(serverId, down, c, p, r, up[0]);
  }

  /** Any other client. */
  lemma OtherAfterCrewOk(d: Deck, serverId: string, up: seq<Frames>, down: seq<Frames>, c: string, k: string,
                         p: ClientProc, r: Reaction, request: Request)
    requires ClientOk(d, serverId, up, down, k, p)
    requires up != [] && up[0] != [] && up[0][0] == c && k != c
    requires Affects(d, r, serverId, c, request)
    ensures ClientAfterCrew(p, k, serverId, r, up[0]) == p
    ensures ClientOk(r.deck, serverId, up[1..], down + Routed(r.toServer, serverId), k, p)
  {
    OtherStreams(serverId, up, down, c, k, r.toServer);
    OtherRecorded(d, serverId, c, k, p, r, request);
    hide Disciplined, Greeted, Recorded, Affects, OneReply, Routed, ToClient;
    assert p.consumed + [] == p.consumed;
    assert p.emitted + [] == p.emitted;
  }

  lemma OtherRecorded(d: Deck, serverId: string, c: string, k: string, p: ClientProc, r: Reaction, request: Request)
    requires Affects(d, r, serverId, c, request) && k != c && Recorded(d, serverId, k, p)
    ensures Recorded(r.deck, serverId, k, p)
  {
    hide OneReply, NoQuit;
  }

  lemma OtherStreams(serverId: string, up: seq<Frames>, down: seq<Frames>, c: string, k: string, replies: seq<Frames>)
    requires up != [] && up[0] != [] && up[0][0] == c && k != c
    requires OneReply(replies, serverId, c)
    ensures Routed([up[0]], k) == [] && Routed(up[1..], k) == Routed(up, k)
    ensures ToClient(serverId, replies, k) == []
    ensures Routed(down + Routed(replies, serverId), k) == Routed(down, k)
  {
    RoutedOne(up[0], k);
    assert up == [up[0]] + up[1..];
    RoutedConcat([up[0]], up[1..], k);
    ReplyReaches(replies, serverId, c, k);
    hide OneReply, Routed;
    RoutedConcat(down, Routed(replies, serverId), k);
    assert Routed(down, k) + [] == Routed(down, k);
  }

  // ----- The deck passes on a SEND -----

  /** A delivery reaches the addressee as the four frames of a cabin text, and nobody else. */
  lemma DeliveryReaches(d: Deck, serverId: string, cab: string, username: string, sender: string, text: string,
                        k: string)
    requires Directory(d) && username in d.crewIds
    requires d.clients[d.crewIds[username]].serverId == serverId
    ensures var r := PassOn(d, cab, Send("TEXT", username, sender, [text]));
            && ToClient(serverId, r.toServer, k)
               == if Admits(d, cab, username) && k == d.crewIds[username] then [["CABIN", "TEXT", sender, text]] else []
  {
    var r := PassOn(d, cab, Send("TEXT", username, sender, [text]));
    if Admits(d, cab, username) {
      var m := [serverId, d.crewIds[username], "CABIN", "TEXT", sender] + [text];
      assert r.toServer == [m];
      RoutedOne(m, serverId);
      RoutedOne(m[1..], k);
      assert m[1..][1..] == ["CABIN", "TEXT", sender, text];
    }
  }

  lemma ClientAfterSendOk(d: Deck, serverId: string, up: seq<Frames>, down: seq<Frames>, k: string, p: ClientProc,
                          toServer: seq<Frames>, origin: Option<Origin>)
    requires ClientOk(d, serverId, up, down, k, p)
    requires ToClient(serverId, toServer, k) != [] ==> k in d.clients
    requires forall i :: 0 <= i < |ToClient(serverId, toServer, k)| ==>
               Readable(ToClient(serverId, toServer, k)[i]) && !KillsClient(ToClient(serverId, toServer, k)[i])
    ensures ClientOk(d, serverId, up, down + Routed(toServer, serverId), k,
                     p.(emitted := p.emitted + Emissions(ToClient(serverId, toServer, k), origin)))
  {
    var arrivals := ToClient(serverId, toServer, k);
    DownstreamGrows(down, Routed(toServer, serverId), k, p, arrivals, origin);
    if arrivals == [] {
      assert p.emitted + Emissions(arrivals, origin) == p.emitted;
    } else {
      GreetedGrows(p, arrivals, origin);
    }
  }

  lemma DownstreamGrows(down: seq<Frames>, more: seq<Frames>, c: string, p: ClientProc, arrivals: seq<Frames>,
                        origin: Option<Origin>)
    requires Downstream(down, c, p) && Routed(more, c) == arrivals
    ensures Downstream(down + more, c, p.(emitted := p.emitted + Emissions(arrivals, origin)))
  {
    RoutedConcat(down, more, c);
    FramesOfMore(p.emitted, arrivals, origin);
    hide FramesOfAll, Routed;
    var received, under := p.received + p.inbox, Routed(down, c);
    assert (received + under) + arrivals == received + (under + arrivals);
  }

  lemma FramesOfMore(emitted: seq<Emission>, arrivals: seq<Frames>, origin: Option<Origin>)
    ensures FramesOfAll(emitted + Emissions(arrivals, origin)) == FramesOfAll(emitted) + arrivals
  {
  }

  lemma GreetedGrows(p: ClientProc, arrivals: seq<Frames>, origin: Option<Origin>)
    requires Greeted(p) && p.consumed != []
    requires forall i :: 0 <= i < |arrivals| ==> Readable(arrivals[i]) && !KillsClient(arrivals[i])
    ensures Greeted(p.(emitted := p.emitted + Emissions(arrivals, origin)))
  {
    var emitted := p.emitted + Emissions(arrivals, origin);
    forall i | 0 <= i < |emitted|
      ensures Readable(emitted[i].frames) && !KillsClient(emitted[i].frames)
    {
      if i < |p.emitted| {
        assert emitted[i] == p.emitted[i];
      } else {
        assert emitted[i].frames == arrivals[i - |p.emitted|];
      }
    }
  }
}
