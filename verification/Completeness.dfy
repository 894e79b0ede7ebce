/** When the membership of a cabin does not change while its queues drain, every member gets exactly one copy of
    a text, and nobody else gets any. */
module Completeness {
  import opened Broadcasting
  import opened Client
  import opened Deck
  import opened Defines
  import opened History
  import opened Invariant
  import opened Ledger
  import opened Lobby
  import opened Membership
  import opened Relay
  import opened Rosters
  import opened World

  // ----- What a client's stream ends with -----

  /** The last `m` numbers are `k`, `k + 1` and so on, and all others are below `k`. */
  ghost predicate EndsWith(numbers: seq<nat>, k: nat, m: nat) {
    && m <= |numbers|
    && (forall i :: 0 <= i < |numbers| - m ==> numbers[i] < k)
    && (forall i :: |numbers| - m <= i < |numbers| ==> numbers[i] == k + i - (|numbers| - m))
  }

  /** The last `m` messages of the stream are the texts number `k`, `k + 1` and so on of the cabin, one message each;
      the messages before them are texts below number `k`. */
  ghost predicate StreamEnds(p: CabinProc, stream: seq<Frames>, k: nat, m: nat) {
    exists numbers :: Numbers(numbers, p, stream) && EndsWith(numbers, k, m)
  }

  lemma {:induction false} FullTail(numbers: seq<nat>, k: nat, n: nat)
    requires k <= n
    requires forall i, j :: 0 <= i < j < |numbers| ==> numbers[i] < numbers[j]
    requires forall i :: 0 <= i < |numbers| ==> numbers[i] < n
    requires forall j :: k <= j < n ==> j in numbers
    ensures EndsWith(numbers, k, n - k)
    decreases n
  {
    if n == k {
    } else {
      var last := |numbers| - 1;
      assert n - 1 in numbers;
      assert numbers[last] == n - 1;
      forall j | k <= j < n - 1
        ensures j in numbers[..last]
      {
        assert j in numbers;
        var at :| 0 <= at < |numbers| && numbers[at] == j;
        assert numbers[..last][at] == j;
      }
      FullTail(numbers[..last], k, n - 1);
      assert forall j :: 0 <= j < last ==> numbers[..last][j] == numbers[j];
    }
  }

  /** A cabin with empty queues has broadcast everything, and the deck has handled all of it. */
  lemma DrainedIsSettled(p: CabinProc)
    requires AllAnswer(p.broadcasts, p.notices) && Snapshot(p) && Ledgered(p) && p.inbox == [] && p.outbox == []
    ensures |p.broadcasts| == |p.notices| && |p.settled| == |Copies(p.broadcasts)|
  {
    assert |p.notices[|p.broadcasts|..]| == 0;
  }

  lemma MemberGetsText(d: Deck, cab: string, p: CabinProc, k: nat, c: string)
    requires Unique(d) && Snapshot(p) && Ledgered(p) && Stable(d, cab, p) && Known(d, p)
    requires p.inbox == [] && p.outbox == [] && p.stableFrom <= k < |p.notices|
    requires c in Members(d, cab)
    ensures k in TextNumbers(p, c)
  {
    DrainedIsSettled(p);
    var username := d.clients[c].username;
    assert username in Names(d, cab);
    assert Answers(p.broadcasts[k], p.notices[k]);
    var n := CopyExists(p.broadcasts, k, username);
    assert p.settled[n].delivered && p.settled[n].client in Members(d, cab);
    assert d.clients[p.settled[n].client].username == username;
    assert At(d.crewIds, username) == c && p.settled[n].client == c;
    DeliveredToIsComplete(p.settled, c, n);
    var ns := DeliveredTo(p.settled, c);
    var i :| 0 <= i < |ns| && ns[i] == n;
    assert TextNumbers(p, c)[i] == k;
  }

  lemma OthersGetNothing(d: Deck, cab: string, p: CabinProc, k: nat, c: string)
    requires Ledgered(p) && Stable(d, cab, p)
    requires p.stableFrom <= k && c !in Members(d, cab)
    ensures k !in TextNumbers(p, c)
  {
    DeliveredToIsSorted(p.settled, c);
    var ns := DeliveredTo(p.settled, c);
    forall i | 0 <= i < |ns|
      ensures TextNumbers(p, c)[i] != k
    {
      assert p.settled[ns[i]].client == c;
    }
  }

  /** The state-level form: of every text since the last change of its membership, a drained cabin has sent every
      member exactly one copy, in order, and nobody else any. */
  lemma StableTextsDelivered(w: World, cab: string, k: nat, c: string)
    requires ReachableUnshared(w) && cab in w.cabins && cab in w.deck.cabins && c in w.clients
    requires w.cabins[cab].inbox == [] && w.cabins[cab].outbox == []
    requires w.cabins[cab].stableFrom <= k <= |w.cabins[cab].notices|
    ensures StreamEnds(w.cabins[cab], TextsFrom(w.clients[c].emitted, cab), k,
                       if c in Members(w.deck, cab) then |w.cabins[cab].notices| - k else 0)
  {
    var p := w.cabins[cab];
    var numbers := TextNumbers(p, c);
    hide ReachableUnshared, DeckInv, Forwarded, Ledgered, Known, Roster, Stable, Snapshot, TextNumbers, TextsFrom,
      Members, Unique;
    ReachableInStepCabin(w, cab);
    UnsharedIsReachable(w);
    CommonOrder(w, cab, c);
    if c in Members(w.deck, cab) {
      forall j | k <= j < |p.notices|
        ensures j in numbers
      {
        MemberGetsText(w.deck, cab, p, j, c);
      }
      FullTail(numbers, k, |p.notices|);
    } else {
      forall i | 0 <= i < |numbers|
        ensures numbers[i] < k
      {
        if numbers[i] >= k {
          OthersGetNothing(w.deck, cab, p, numbers[i], c);
        }
      }
    }
  }

  // ----- Over a run -----

  /** Throughout the run, the members of the cabin are these. */
  ghost predicate Steady(w: World, actions: seq<Action>, cab: string, members: set<string>)
    requires Runs(w, actions)
    decreases |actions|
  {
    && Members(w.deck, cab) == members
    && (actions != [] ==> Steady(Next(w, actions[0]), actions[1..], cab, members))
  }

  ghost predicate SameStableFrom(w: World, v: World, cab: string) {
    cab in w.cabins && cab in v.cabins && v.cabins[cab].stableFrom == w.cabins[cab].stableFrom
  }

  lemma StepKeepsStableFrom(w: World, a: Action, cab: string)
    requires Enabled(w, a) && cab in w.cabins
    requires Members(Next(w, a).deck, cab) == Members(w.deck, cab)
    ensures SameStableFrom(w, Next(w, a), cab)
  {
    hide Members, PassOn, Routed, Enter, ServiceOf, Addressee, Admits, ToClient, OrderOf, UsersAfter, SendAll, Accepts,
      LineMsg, RunsAfter, OnServerInput, CrewRequest, NoticesOf;
  }

  lemma {:induction false} SteadyRun(w: World, actions: seq<Action>, cab: string, members: set<string>)
    requires Runs(w, actions) && cab in w.cabins && Steady(w, actions, cab, members)
    ensures SameStableFrom(w, After(w, actions), cab)
    ensures Members(After(w, actions).deck, cab) == members
    decreases |actions|
  {
    hide Enabled, Next, Members;
    if actions == [] {
    } else {
      var v := Next(w, actions[0]);
      assert Members(v.deck, cab) == members;
      StepKeepsStableFrom(w, actions[0], cab);
      SteadyRun(v, actions[1..], cab, members);
    }
  }

  lemma SeatedCabinRegistered(w: World, cab: string)
    requires Inv(w) && cab in w.cabins && Members(w.deck, cab) != {}
    ensures cab in w.deck.cabins
  {
    hide Inv;
    InvParts(w, cab);
  }

  lemma StableFromBounded(w: World, cab: string)
    requires Inv(w) && cab in w.cabins
    ensures w.cabins[cab].stableFrom <= |w.cabins[cab].notices|
  {
    assert CabinOk(w.deck, w.awaiting, cab, w.cabins[cab]);
  }

  /** Everything sent to the client has arrived. */
  ghost predicate Arrived(w: World, c: string)
    requires c in w.clients
  {
    w.clients[c].inbox == [] && Routed(w.down, c) == []
  }

  lemma ArrivedIsReceived(w: World, c: string)
    requires Reachable(w) && c in w.clients && Arrived(w, c)
    ensures w.clients[c].received == FramesOfAll(w.clients[c].emitted)
  {
    hide Reachable, Disciplined, Upstream, Recorded, Greeted, Routed;
    ReachableClient(w, c);
    assert w.clients[c].received + [] + [] == w.clients[c].received;
  }

  /** For every member, the texts it was sent from the cabin end with the texts from number `k` on, each once and in
      order; nobody else was sent any of them; and a client whose own queues are empty has received all it was sent. */
  ghost predicate DeliveredSince(w: World, cab: string, k: nat)
    requires cab in w.cabins && k <= |w.cabins[cab].notices|
  {
    forall c :: c in w.clients ==>
      && StreamEnds(w.cabins[cab], TextsFrom(w.clients[c].emitted, cab), k,
                    if c in Members(w.deck, cab) then |w.cabins[cab].notices| - k else 0)
      && (Arrived(w, c) ==> w.clients[c].received == FramesOfAll(w.clients[c].emitted))
  }

  lemma DrainedIsDelivered(w: World, cab: string, k: nat)
    requires ReachableUnshared(w) && cab in w.cabins && cab in w.deck.cabins
    requires w.cabins[cab].inbox == [] && w.cabins[cab].outbox == []
    requires w.cabins[cab].stableFrom <= k <= |w.cabins[cab].notices|
    ensures DeliveredSince(w, cab, k)
  {
    hide ReachableUnshared, Reachable, StreamEnds, TextsFrom, Arrived, Members;
    UnsharedIsReachable(w);
    forall c | c in w.clients
      ensures StreamEnds(w.cabins[cab], TextsFrom(w.clients[c].emitted, cab), k,
                         if c in Members(w.deck, cab) then |w.cabins[cab].notices| - k else 0)
      ensures Arrived(w, c) ==> w.clients[c].received == FramesOfAll(w.clients[c].emitted)
    {
      StableTextsDelivered(w, cab, k, c);
      if Arrived(w, c) {
        ArrivedIsReceived(w, c);
      }
    }
  }

  /** A run whose first action forwards a text to the cabin, during which nobody joins, leaves or quits the cabin, and
      which drains the cabin's queues: this text and the ones forwarded after it have been delivered to every member,
      the author included, and to nobody else. */
  lemma ExactlyOneCopy(w: World, actions: seq<Action>, cab: string)
    requires ReachableUnshared(w) && Runs(w, actions) && Unshared(w, actions) && actions != [] && cab in w.cabins
    requires Forwards(w, Next(w, actions[0]), cab)
    requires Steady(w, actions, cab, Members(w.deck, cab))
    requires cab in After(w, actions).cabins
    requires var p := After(w, actions).cabins[cab]; p.inbox == [] && p.outbox == []
    ensures var v := After(w, actions);
            var p, k := v.cabins[cab], |w.cabins[cab].notices|;
            && Sender(w) in Members(v.deck, cab)
            && k < |p.notices|
            && p.notices[k] == Notice(w.deck.clients[Sender(w)].username, RequestAt(w).text, Names(w.deck, cab))
            && DeliveredSince(v, cab, k)
  {
    hide ReachableUnshared, Reachable, Enabled, Next, Runs, After, Unshared, Steady, Members, Names, Forwards,
      CrewRequest, DeliveredSince;
    UnsharedIsReachable(w);
    TextInSteadyRun(w, actions, cab);
    ReachableUnsharedAfter(w, actions);
    DrainedIsDelivered(After(w, actions), cab, |w.cabins[cab].notices|);
  }

  lemma TextInSteadyRun(w: World, actions: seq<Action>, cab: string)
    requires Reachable(w) && Runs(w, actions) && actions != [] && cab in w.cabins
    requires Forwards(w, Next(w, actions[0]), cab)
    requires Steady(w, actions, cab, Members(w.deck, cab))
    ensures var v := After(w, actions);
            && cab in v.cabins && cab in v.deck.cabins
            && Members(v.deck, cab) == Members(w.deck, cab) && Sender(w) in Members(v.deck, cab)
            && var p, k := v.cabins[cab], |w.cabins[cab].notices|;
               && p.stableFrom <= k < |p.notices|
               && p.notices[k] == Notice(w.deck.clients[Sender(w)].username, RequestAt(w).text, Names(w.deck, cab))
  {
    var v, next := After(w, actions), Next(w, actions[0]);
    ForwardedNotice(w, next, cab);
    hide Reachable, Enabled, Next, Inv, Members, Names, Forwards, CrewRequest;
    ReachableInv(w);
    ReachableAfter(w, actions);
    ReachableInv(v);
    SteadyRun(w, actions, cab, Members(w.deck, cab));
    SeatedCabinRegistered(v, cab);
    StableFromBounded(w, cab);
    RunGrows(next, actions[1..]);
    assert CabinHistoryGrows(next.cabins[cab], v.cabins[cab]);
  }

  lemma ForwardedNotice(w: World, v: World, cab: string)
    requires Forwards(w, v, cab)
    ensures Sender(w) in Members(w.deck, cab)
    ensures v.cabins[cab].notices
         == w.cabins[cab].notices
            + [Notice(w.deck.clients[Sender(w)].username, RequestAt(w).text, Names(w.deck, cab))]
  {
    hide Members, Names, CrewRequest;
  }
}
