/** The invariant of the ship deck alone: its directories, the head counts and the default cabin, and how the
    membership of every cabin changes with each crew message. */
module Membership {
  import opened Deck
  import opened Defines
  import opened Lobby
  import opened Relay
  import opened Words

  /** The online clients recorded in a cabin. */
  ghost function Members(d: Deck, cab: string): set<string> {
    set c | c in d.clients && d.clients[c].online && d.clients[c].cabin == cab
  }

  /** Their usernames. */
  ghost function Names(d: Deck, cab: string): set<string> {
    set c | c in Members(d, cab) :: d.clients[c].username
  }

  /** Every record refers to something known. */
  ghost predicate Directory(d: Deck) {
    && "" !in d.cabins
    && (forall c :: c in d.clients ==> d.clients[c].cabin == "" || d.clients[c].cabin in d.cabins)
    && (forall name :: name in d.cabinIds ==> d.cabinIds[name] == "" || d.cabinIds[name] in d.cabins)
    && (forall name :: name in d.crewIds ==>
          d.crewIds[name] in d.clients && d.clients[d.crewIds[name]].username == name)
    && (forall c :: c in d.clients ==> d.clients[c].username in d.crewIds)
  }

  /** The 32-bit counts are the head counts. */
  ghost predicate Headcount(d: Deck) {
    forall cab :: cab in d.cabins ==> d.cabins[cab].playing == |Members(d, cab)| % U32_RANGE
  }

  /** The default cabin is set as soon as there is a cabin, and then resolves to a registered one. */
  ghost predicate Defaulted(d: Deck) {
    && (d.defaultCabin == "" ==> d.cabins.Keys == {})
    && (d.defaultCabin != "" ==> At(d.cabinIds, d.defaultCabin) in d.cabins)
  }

  ghost predicate DeckInv(d: Deck) {
    Directory(d) && Headcount(d) && Defaulted(d)
  }

  /** Every online client is the addressee of its own name. */
  ghost predicate Unique(d: Deck) {
    forall c :: c in d.clients && d.clients[c].online ==> At(d.crewIds, d.clients[c].username) == c
  }

  /** Nobody else in the client's cabin bears its name. */
  ghost predicate NoNamesake(d: Deck, c: string)
    requires c in d.clients
  {
    var me := d.clients[c];
    me.cabin != "" ==> forall x :: x in Members(d, me.cabin) && x != c ==> d.clients[x].username != me.username
  }

  /** No online client has this name. */
  ghost predicate NameFree(d: Deck, username: string) {
    forall c :: c in d.clients && d.clients[c].online ==> d.clients[c].username != username
  }

  /** What no handler takes back. */
  ghost predicate Extends(d: Deck, e: Deck) {
    && d.cabins.Keys <= e.cabins.Keys
    && d.crewIds.Keys <= e.crewIds.Keys
    && d.clients.Keys <= e.clients.Keys
    && (forall c :: c in d.clients ==>
          && e.clients[c].username == d.clients[c].username
          && e.clients[c].serverId == d.clients[c].serverId)
    && (d.defaultCabin != "" ==> e.defaultCabin == d.defaultCabin)
  }

  /** The names a cabin arrives at by handling the deck's messages are the names of its members. */
  ghost predicate Tracks(d: Deck, r: Reaction) {
    forall cab :: cab != "" ==> FinalUsers(Names(d, cab), Routed(r.toCabins, cab)) == Names(r.deck, cab)
  }

  /** No cabin is sent a text. */
  ghost predicate Silent(d: Deck, r: Reaction) {
    forall cab :: cab != "" ==> Replay(Names(d, cab), Routed(r.toCabins, cab)) == []
  }

  /** The text a crew message makes the deck forward to a cabin. */
  ghost function NoticesOf(d: Deck, c: string, request: Request, cab: string): seq<Notice> {
    if request.Say? && c in d.clients && d.clients[c].cabin == cab
    then [Notice(d.clients[c].username, request.text, Names(d, cab))]
    else []
  }

  // ----- Counting -----

  lemma CountOfLeaver(count: nat)
    requires count > 0
    ensures (count - 1) % U32_RANGE == Dec32(count % U32_RANGE)
  {
  }

  lemma CountOfJoiner(count: nat)
    ensures (count + 1) % U32_RANGE == Inc32(count % U32_RANGE)
  {
  }

  /** With fewer than 2^32 clients on record every count is exact, so no decrement meets a zero. */
  lemma CountIsExact(d: Deck, cab: string)
    requires Headcount(d) && cab in d.cabins
    requires |d.clients| < U32_RANGE
    ensures d.cabins[cab].playing == |Members(d, cab)|
  {
    SubsetSize(Members(d, cab), d.clients.Keys);
  }

  lemma SubsetSize<T>(a: set<T>, b: set<T>)
    requires a <= b
    ensures |a| <= |b|
  {
    assert b == a + (b - a);
  }

  // ----- Messages of a move -----

  lemma RoutedTwo(a: Frames, b: Frames, id: string)
    ensures Routed([a, b], id) == Routed([a], id) + Routed([b], id)
  {
    assert [a, b] == [a] + [b];
    RoutedConcat([a], [b], id);
  }

  lemma OneMessage(users: set<string>, m: Frames)
    ensures FinalUsers(users, [m]) == UsersAfter(users, m)
    ensures Replay(users, [m]) == NoticesAt(users, m)
  {
    assert [m][1..] == [];
  }

  /** A DISCONNECT to one cabin, as any cabin sees it. */
  lemma ByeSeen(users: set<string>, from: string, username: string, cab: string)
    ensures var queue := Routed([[from, "DISCONNECT", username]], cab);
            && FinalUsers(users, queue) == (if cab == from then users - {username} else users)
            && Replay(users, queue) == []
  {
    var m := ["DISCONNECT", username];
    assert [from, "DISCONNECT", username] == Prefixed(from, m);
    RoutedPrefixed(from, m, cab);
    OneMessage(users, m);
  }

  /** A DISCONNECT and a JOIN, as any cabin sees them. */
  lemma MoveSeen(users: set<string>, from: string, to: string, username: string, cab: string)
    requires from != to
    ensures var queue := Routed([[from, "DISCONNECT", username], [to, "JOIN", username]], cab);
            && FinalUsers(users, queue) == (if cab == from then users - {username}
                                            else if cab == to then users + {username} else users)
            && Replay(users, queue) == []
  {
    var bye, join := [from, "DISCONNECT", username], [to, "JOIN", username];
    var m := ["JOIN", username];
    assert join == Prefixed(to, m);
    RoutedTwo(bye, join, cab);
    RoutedPrefixed(to, m, cab);
    ByeSeen(users, from, username, cab);
    OneMessage(users, m);
    FinalUsersConcat(users, Routed([bye], cab), Routed([join], cab));
    ReplayConcat(users, Routed([bye], cab), Routed([join], cab));
  }

  lemma TextSeen(users: set<string>, at: string, username: string, text: string, cab: string)
    ensures var queue := Routed([[at, "TEXT", username, text]], cab);
            && FinalUsers(users, queue) == users
            && Replay(users, queue) == if cab == at then [Notice(username, text, users)] else []
  {
    var m := ["TEXT", username, text];
    assert [at, "TEXT", username, text] == Prefixed(at, m);
    RoutedPrefixed(at, m, cab);
    OneMessage(users, m);
  }

  /** A handler that sends no cabin anything and moves nobody. */
  lemma NothingSent(d: Deck, r: Reaction)
    requires r.toCabins == []
    requires forall cab :: cab != "" ==> Names(r.deck, cab) == Names(d, cab)
    ensures Tracks(d, r) && Silent(d, r)
  {
  }

  // ----- A move between cabins -----

  /** `e` is `d` with the client `c` recorded in `to`, or in no cabin at all if `to` is empty. */
  ghost predicate MembersMoved(d: Deck, e: Deck, c: string, to: string) {
    forall cab :: cab != "" ==>
      Members(e, cab) == Members(d, cab) - {c} + if cab == to then {c} else {}
  }

  /** The names of a cabin after such a move: the client's own name is added where it goes, and is taken away where
      it was if nobody else there bears it. */
  lemma NamesAfterMove(d: Deck, e: Deck, c: string, to: string, k: string)
    requires c in d.clients && d.clients[c].online && k != ""
    requires to != d.clients[c].cabin || to == ""
    requires d.clients.Keys == e.clients.Keys
    requires forall x :: x in d.clients ==> e.clients[x].username == d.clients[x].username
    requires MembersMoved(d, e, c, to)
    ensures var u := d.clients[c].username;
            && (k == to ==> Names(e, k) == Names(d, k) + {u})
            && (k == d.clients[c].cabin ==> (Names(e, k) == Names(d, k) - {u} <==> NoNamesake(d, c)))
            && (k != to && k != d.clients[c].cabin ==> Names(e, k) == Names(d, k))
  {
    var u := d.clients[c].username;
    assert Members(e, k) == Members(d, k) - {c} + if k == to then {c} else {};
    if k == d.clients[c].cabin {
      assert Members(e, k) == Members(d, k) - {c};
      forall x | x in Members(d, k) && x != c
        ensures d.clients[x].username in Names(e, k)
      {
        assert x in Members(e, k);
      }
    } else if k == to {
      assert c in Members(e, k);
      assert Members(e, k) == Members(d, k) + {c};
    } else {
      assert Members(e, k) == Members(d, k);
    }
  }

  /** The count of a cabin after the client `c` moved from `from` to `to`. */
  function Recount(count: u32, cab: string, from: string, to: string): u32 {
    if cab == from then Dec32(count) else if cab == to then Inc32(count) else count
  }

  lemma RecountIsHeadcount(was: set<string>, c: string, cab: string, from: string, to: string)
    requires c in was <==> cab == from
    requires from != to
    ensures var now := was - {c} + if cab == to then {c} else {};
            |now| % U32_RANGE == Recount(|was| % U32_RANGE, cab, from, to)
  {
    if cab == from {
      assert was - {c} + {} == was - {c};
      CountOfLeaver(|was|);
    } else if cab == to {
      assert was - {c} + {c} == was + {c};
      CountOfJoiner(|was|);
    } else {
      assert was - {c} + {} == was;
    }
  }

  ghost predicate Recounted(d: Deck, e: Deck, from: string, to: string) {
    && e.cabins.Keys == d.cabins.Keys
    && forall cab :: cab in d.cabins ==> e.cabins[cab].playing == Recount(d.cabins[cab].playing, cab, from, to)
  }

  lemma CountsFollowMembers(d: Deck, e: Deck, c: string, to: string)
    requires "" !in d.cabins && Headcount(d)
    requires c in d.clients && d.clients[c].online
    requires d.clients[c].cabin != to
    requires Recounted(d, e, d.clients[c].cabin, to)
    requires MembersMoved(d, e, c, to)
    ensures Headcount(e)
  {
    forall cab | cab in e.cabins
      ensures e.cabins[cab].playing == |Members(e, cab)| % U32_RANGE
    {
      RecountIsHeadcount(Members(d, cab), c, cab, d.clients[c].cabin, to);
    }
  }

  /** What a move does to the records, and what it sends. */
  ghost predicate Moved(d: Deck, r: Reaction, c: string, cab: string)
    requires c in d.clients
  {
    var me := d.clients[c];
    && r.deck == d.(cabins := r.deck.cabins, clients := d.clients[c := me.(cabin := cab)])
    && Recounted(d, r.deck, me.cabin, cab)
    && r.toServer == []
    && r.toCabins == [[me.cabin, "DISCONNECT", me.username], [cab, "JOIN", me.username]]
  }

  lemma ChangeCabinMoves(d: Deck, c: string, cab: string)
    requires Directory(d) && c in d.clients && d.clients[c].online
    requires cab in d.cabins && cab != d.clients[c].cabin
    ensures Moved(d, ChangeCabin(d, c, cab), c, cab)
  {
    var from := d.clients[c].cabin;
    assert from != "" ==> from in d.cabins;
  }

  /** A deck that differs from a sound one in one client's cabin and in the counts. */
  lemma RecordsMoved(d: Deck, e: Deck, c: string, cab: string)
    requires Directory(d) && Defaulted(d) && c in d.clients && d.clients[c].online
    requires cab in d.cabins && cab != d.clients[c].cabin
    requires e == d.(cabins := e.cabins, clients := d.clients[c := d.clients[c].(cabin := cab)])
    requires e.cabins.Keys == d.cabins.Keys
    ensures Directory(e) && Defaulted(e) && Extends(d, e) && MembersMoved(d, e, c, cab)
  {
    assert MembersMoved(d, e, c, cab);
    hide MembersMoved, Members;
    DirectoryOfMove(d, e, c);
  }

  /** The directories stay sound if one client's record gets another registered cabin or goes offline. */
  lemma DirectoryOfMove(d: Deck, e: Deck, c: string)
    requires Directory(d) && c in d.clients && d.clients[c].online
    requires c in e.clients && (e.clients[c].cabin == d.clients[c].cabin || e.clients[c].cabin in d.cabins)
    requires e == d.(cabins := e.cabins, clients := d.clients[c := d.clients[c].(cabin := e.clients[c].cabin,
                                                                                 online := e.clients[c].online)])
    requires e.cabins.Keys == d.cabins.Keys
    ensures Directory(e)
  {
    assert forall x :: x in d.clients ==> e.clients[x].username == d.clients[x].username;
  }

  lemma MembersQuit(d: Deck, e: Deck, c: string)
    requires c in d.clients
    requires e.clients == d.clients[c := d.clients[c].(online := false)]
    ensures MembersMoved(d, e, c, "")
  {
  }

  /** A deck that differs from a sound one in that client `c` is offline, and in the counts. */
  lemma RecordsQuit(d: Deck, e: Deck, c: string)
    requires Directory(d) && Defaulted(d) && c in d.clients && d.clients[c].online
    requires e == d.(cabins := e.cabins, clients := d.clients[c := d.clients[c].(online := false)])
    requires e.cabins.Keys == d.cabins.Keys
    ensures Directory(e) && Defaulted(e) && Extends(d, e) && MembersMoved(d, e, c, "")
  {
    MembersQuit(d, e, c);
    hide MembersMoved, Members;
    DirectoryOfMove(d, e, c);
  }

  /** The messages of a move, as a cabin with the given users sees them. */
  lemma MoveMessagesSeen(users: set<string>, r: Reaction, from: string, to: string, username: string, k: string)
    requires from != to || to == ""
    requires r.toCabins == if to == "" then [[from, "DISCONNECT", username]]
                           else [[from, "DISCONNECT", username], [to, "JOIN", username]]
    requires k != ""
    ensures FinalUsers(users, Routed(r.toCabins, k))
         == if k == from then users - {username} else if k == to then users + {username} else users
    ensures Replay(users, Routed(r.toCabins, k)) == []
  {
    if to == "" {
      ByeSeen(users, from, username, k);
    } else {
      MoveSeen(users, from, to, username, k);
    }
  }

  /** The client's record leaves one cabin for another, or for none, and the messages say so: the cabins can follow
      exactly if nobody else in the cabin it leaves bears its name. */
  lemma MembersMovedTracks(d: Deck, r: Reaction, c: string, to: string)
    requires c in d.clients && d.clients[c].online
    requires to != d.clients[c].cabin || to == ""
    requires Extends(d, r.deck) && r.deck.clients.Keys == d.clients.Keys
    requires MembersMoved(d, r.deck, c, to)
    requires var bye := [d.clients[c].cabin, "DISCONNECT", d.clients[c].username];
             r.toCabins == if to == "" then [bye] else [bye, [to, "JOIN", d.clients[c].username]]
    ensures Silent(d, r) && (Tracks(d, r) <==> NoNamesake(d, c))
  {
    var me := d.clients[c];
    assert forall x :: x in d.clients ==> r.deck.clients[x].username == d.clients[x].username;
    hide Extends, MembersMoved, Members, Names, FinalUsers, Replay, Routed, NoNamesake;
    forall k | k != ""
      ensures Replay(Names(d, k), Routed(r.toCabins, k)) == []
      ensures k == me.cabin ==>
                (FinalUsers(Names(d, k), Routed(r.toCabins, k)) == Names(r.deck, k) <==> NoNamesake(d, c))
      ensures k != me.cabin ==> FinalUsers(Names(d, k), Routed(r.toCabins, k)) == Names(r.deck, k)
    {
      MoveMessagesSeen(Names(d, k), r, me.cabin, to, me.username, k);
      NamesAfterMove(d, r.deck, c, to, k);
    }
    if me.cabin == "" {
      UnseatedHasNoNamesake(d, c);
    } else {
      var home := FinalUsers(Names(d, me.cabin), Routed(r.toCabins, me.cabin));
      assert home == Names(r.deck, me.cabin) <==> NoNamesake(d, c);
    }
  }

  lemma UnseatedHasNoNamesake(d: Deck, c: string)
    requires c in d.clients && d.clients[c].cabin == ""
    ensures NoNamesake(d, c)
  {
  }

  lemma UniqueHasNoNamesake(d: Deck, c: string)
    requires Unique(d) && c in d.clients && d.clients[c].online
    ensures NoNamesake(d, c)
  {
    forall x | x in Members(d, d.clients[c].cabin) && x != c
      ensures d.clients[x].username != d.clients[c].username
    {
      assert At(d.crewIds, d.clients[x].username) == x;
    }
  }

  lemma MembersMovedCounts(d: Deck, e: Deck, c: string, to: string)
    requires Directory(d) && Headcount(d) && c in d.clients && d.clients[c].online
    requires to != d.clients[c].cabin || to == ""
    requires Recounted(d, e, d.clients[c].cabin, to)
    requires MembersMoved(d, e, c, to)
    ensures Headcount(e)
  {
    if d.clients[c].cabin == "" && to == "" {
      HeadcountOfUnseated(d, e, c);
    } else {
      CountsFollowMembers(d, e, c, to);
    }
  }

  lemma DeckInvFrom(d: Deck)
    requires Directory(d) && Headcount(d) && Defaulted(d)
    ensures DeckInv(d)
  {
  }

  lemma MovedIsSound(d: Deck, r: Reaction, c: string, cab: string)
    requires DeckInv(d) && c in d.clients && d.clients[c].online
    requires cab in d.cabins && cab != d.clients[c].cabin
    requires Moved(d, r, c, cab)
    ensures DeckInv(r.deck) && Extends(d, r.deck) && Silent(d, r) && (Tracks(d, r) <==> NoNamesake(d, c))
  {
    assert cab != "" && r.deck.cabins.Keys == d.cabins.Keys && r.deck.clients.Keys == d.clients.Keys;
    assert Directory(d) && Headcount(d) && Defaulted(d);
    hide DeckInv, Recounted, Directory, Headcount, Defaulted, Extends, Tracks, Silent, MembersMoved, NoNamesake;
    RecordsMoved(d, r.deck, c, cab);
    MembersMovedCounts(d, r.deck, c, cab);
    MembersMovedTracks(d, r, c, cab);
    DeckInvFrom(r.deck);
  }

  lemma ChangeCabinSound(d: Deck, c: string, cab: string)
    requires DeckInv(d) && c in d.clients && d.clients[c].online
    requires cab == "" || cab != d.clients[c].cabin
    ensures var r := ChangeCabin(d, c, cab);
            && DeckInv(r.deck) && Extends(d, r.deck) && Silent(d, r)
            && (Tracks(d, r) <==> (cab in d.cabins ==> NoNamesake(d, c)))
            && (cab !in d.cabins ==> r == Reaction(d, [], []))
            && r.deck.clients == (if cab in d.cabins then d.clients[c := d.clients[c].(cabin := cab)] else d.clients)
            && r.deck.defaultCabin == d.defaultCabin && r.deck.crewIds == d.crewIds && r.toServer == []
  {
    var r := ChangeCabin(d, c, cab);
    hide NoNamesake;
    if cab in d.cabins {
      ChangeCabinMoves(d, c, cab);
      MovedIsSound(d, r, c, cab);
    } else {
      NothingSent(d, r);
    }
  }

  lemma QuitRecords(d: Deck, c: string)
    requires Directory(d) && c in d.clients && d.clients[c].online
    ensures var r := QuitShip(d, c);
            && r.deck == d.(cabins := r.deck.cabins, clients := d.clients[c := d.clients[c].(online := false)])
            && Recounted(d, r.deck, d.clients[c].cabin, "")
            && r.toCabins == [[d.clients[c].cabin, "DISCONNECT", d.clients[c].username]]
  {
    var from := d.clients[c].cabin;
    assert from != "" ==> from in d.cabins;
  }

  lemma QuitSound(d: Deck, c: string)
    requires DeckInv(d) && c in d.clients && d.clients[c].online
    ensures var r := QuitShip(d, c);
            && DeckInv(r.deck) && Extends(d, r.deck) && Silent(d, r) && (Tracks(d, r) <==> NoNamesake(d, c))
            && r.deck.clients == d.clients[c := d.clients[c].(online := false)]
            && r.deck.defaultCabin == d.defaultCabin && r.deck.crewIds == d.crewIds && r.toServer == []
  {
    var r := QuitShip(d, c);
    hide NoNamesake, Tracks, Silent;
    QuitRecords(d, c);
    RecordsQuit(d, r.deck, c);
    MembersMovedCounts(d, r.deck, c, "");
    MembersMovedTracks(d, r, c, "");
  }

  /** A client that is recorded in no cabin counts nowhere. */
  lemma HeadcountOfUnseated(d: Deck, e: Deck, c: string)
    requires "" !in d.cabins && Headcount(d)
    requires c in d.clients && d.clients[c].cabin == ""
    requires Recounted(d, e, "", "")
    requires MembersMoved(d, e, c, "")
    ensures Headcount(e)
  {
    forall cab | cab in e.cabins
      ensures Members(e, cab) == Members(d, cab)
    {
    }
  }

  /** The record a login writes, before the new client is seated. */
  ghost function Named(d: Deck, s: string, c: string, username: string, password: string): Deck {
    d.(clients := d.clients[c := ClientInfo(c, s, "", username, password, true)],
       crewIds := d.crewIds[username := c],
       cabinIds := With(d.cabinIds, d.defaultCabin))
  }

  lemma NamedDirectory(d: Deck, s: string, c: string, username: string, password: string)
    requires Directory(d) && c !in d.clients
    ensures Directory(Named(d, s, c, username, password))
  {
    var e := Named(d, s, c, username, password);
    forall x | x in e.clients
      ensures e.clients[x].username in e.crewIds
      ensures e.clients[x].cabin == "" || e.clients[x].cabin in e.cabins
    {
      if x != c {
        assert e.clients[x] == d.clients[x];
      }
    }
    forall name | name in e.crewIds
      ensures e.crewIds[name] in e.clients && e.clients[e.crewIds[name]].username == name
    {
      if name != username {
        assert e.crewIds[name] == d.crewIds[name];
      }
    }
  }

  /** Every cabin has the same members, under the same names. */
  ghost predicate SameSeating(d: Deck, e: Deck) {
    forall k :: k != "" ==> Members(e, k) == Members(d, k) && Names(e, k) == Names(d, k)
  }

  lemma NamedMembers(d: Deck, s: string, c: string, username: string, password: string)
    requires c !in d.clients
    ensures var e := Named(d, s, c, username, password);
            SameSeating(d, e)
  {
    var e := Named(d, s, c, username, password);
    forall k | k != ""
      ensures Members(e, k) == Members(d, k) && Names(e, k) == Names(d, k)
    {
      assert Members(e, k) == Members(d, k);
    }
  }

  lemma SameHeadcount(d: Deck, e: Deck)
    requires "" !in d.cabins && Headcount(d) && e.cabins == d.cabins
    requires SameSeating(d, e)
    ensures Headcount(e)
  {
    hide Members, Names;
  }

  lemma NamedExtends(d: Deck, s: string, c: string, username: string, password: string)
    requires c !in d.clients && Defaulted(d)
    ensures var e := Named(d, s, c, username, password); Defaulted(e) && Extends(d, e)
  {
  }

  lemma NamedSound(d: Deck, s: string, c: string, username: string, password: string)
    requires DeckInv(d) && c !in d.clients
    ensures var e := Named(d, s, c, username, password);
            DeckInv(e) && Extends(d, e) && SameSeating(d, e)
  {
    var e := Named(d, s, c, username, password);
    assert "" !in d.cabins && Headcount(d) && Defaulted(d) && Directory(d) && e.cabins == d.cabins;
    hide *;
    NamedExtends(d, s, c, username, password);
    NamedMembers(d, s, c, username, password);
    SameHeadcount(d, e);
    NamedDirectory(d, s, c, username, password);
    DeckInvFrom(e);
  }

  lemma ExtendsItself(d: Deck)
    ensures Extends(d, d)
  {
  }

  lemma ExtendsTransitive(d: Deck, e: Deck, f: Deck)
    requires Extends(d, e) && Extends(e, f)
    ensures Extends(d, f)
  {
  }

  /** Handlers that start from a deck with the same memberships track them equally. */
  lemma TracksFrom(d: Deck, e: Deck, r: Reaction, s: Reaction)
    requires SameSeating(d, e)
    requires Tracks(e, r) && Silent(e, r)
    requires s.deck == r.deck && s.toCabins == r.toCabins
    ensures Tracks(d, s) && Silent(d, s)
  {
    hide Names, Members, FinalUsers, Replay, Routed;
  }

  lemma EnrollIsMove(d: Deck, s: string, c: string, username: string, password: string)
    requires Directory(d)
    ensures var e := Named(d, s, c, username, password);
            var target := At(d.cabinIds, d.defaultCabin);
            && (target == "" || target in d.cabins)
            && Enroll(d, s, c, username, password) == ChangeCabin(e, c, target).(toServer := [[s, c, "SHIP", "ACK"]])
            && e.clients == d.clients[c := ClientInfo(c, s, "", username, password, true)]
            && e.cabins == d.cabins && e.defaultCabin == d.defaultCabin && e.crewIds == d.crewIds[username := c]
  {
    hide ChangeCabin;
  }

  lemma SeatNamed(d: Deck, e: Deck, c: string, target: string)
    requires DeckInv(e) && c in e.clients && e.clients[c].online && e.clients[c].cabin == ""
    requires e.cabins == d.cabins && e.defaultCabin == d.defaultCabin
    requires target == "" || target in d.cabins
    requires e.clients == d.clients[c := e.clients[c]]
    ensures var r := ChangeCabin(e, c, target);
            && DeckInv(r.deck) && Extends(e, r.deck) && Tracks(e, r) && Silent(e, r)
            && r.deck.clients == d.clients[c := e.clients[c].(cabin := target)]
            && r.deck.defaultCabin == d.defaultCabin && r.deck.crewIds == e.crewIds && r.toServer == []
  {
    assert "" !in e.cabins;
    assert d.clients[c := e.clients[c]][c := e.clients[c].(cabin := target)]
        == d.clients[c := e.clients[c].(cabin := target)];
    hide *;
    UnseatedHasNoNamesake(e, c);
    ChangeCabinSound(e, c, target);
  }

  lemma EnrollSound(d: Deck, s: string, c: string, username: string, password: string)
    requires DeckInv(d) && c !in d.clients
    ensures var r := Enroll(d, s, c, username, password);
            && DeckInv(r.deck) && Extends(d, r.deck) && Tracks(d, r) && Silent(d, r)
            && r.deck.clients
               == d.clients[c := ClientInfo(c, s, At(d.cabinIds, d.defaultCabin), username, password, true)]
            && r.deck.defaultCabin == d.defaultCabin && r.deck.crewIds == d.crewIds[username := c]
            && r.toServer == [[s, c, "SHIP", "ACK"]]
  {
    var e := Named(d, s, c, username, password);
    var target := At(d.cabinIds, d.defaultCabin);
    var moved := ChangeCabin(e, c, target);
    hide *;
    EnrollIsMove(d, s, c, username, password);
    NamedSound(d, s, c, username, password);
    SeatNamed(d, e, c, target);
    ExtendsTransitive(d, e, moved.deck);
    TracksFrom(d, e, moved, Enroll(d, s, c, username, password));
  }

  /** Looking a name up changes nothing but the table of names. */
  lemma LookupSound(d: Deck, name: string)
    requires DeckInv(d)
    ensures var e := d.(cabinIds := With(d.cabinIds, name));
            && DeckInv(e) && Extends(d, e)
            && (forall k :: Members(e, k) == Members(d, k) && Names(e, k) == Names(d, k))
  {
    var e := d.(cabinIds := With(d.cabinIds, name));
    assert forall k :: Members(e, k) == Members(d, k);
  }

  // ----- Every crew message -----

  /** A look-up of a cabin name followed by a move, as in `/leave` and `/join`. */
  lemma LookupAndChangeSound(d: Deck, c: string, name: string)
    requires DeckInv(d) && c in d.clients && d.clients[c].online
    ensures var target := At(d.cabinIds, name);
            var r := JoinCabin(d, c, name);
            && DeckInv(r.deck) && Extends(d, r.deck) && Silent(d, r)
            && (Tracks(d, r) <==> (target in d.cabins && target != d.clients[c].cabin ==> NoNamesake(d, c)))
            && (target in d.cabins ==> r.deck.clients == d.clients[c := d.clients[c].(cabin := target)])
            && (target !in d.cabins ==> r.deck.clients == d.clients)
            && r.deck.defaultCabin == d.defaultCabin && r.deck.crewIds == d.crewIds && r.toServer == []
  {
    var e := d.(cabinIds := With(d.cabinIds, name));
    var target := At(d.cabinIds, name);
    LookupSound(d, name);
    assert NoNamesake(e, c) == NoNamesake(d, c);
    assert target == "" || target in d.cabins;
    hide NoNamesake;
    if d.clients[c].cabin != target {
      ChangeCabinSound(e, c, target);
    } else {
      NothingSent(d, Reaction(e, [], []));
    }
  }

  lemma SaySound(d: Deck, c: string, text: string)
    requires c in d.clients
    ensures var r := ForwardText(d, c, text);
            && Tracks(d, r)
            && (forall k :: k != "" ==> Replay(Names(d, k), Routed(r.toCabins, k)) == NoticesOf(d, c, Say(text), k))
  {
    var me := d.clients[c];
    var r := ForwardText(d, c, text);
    forall k | k != ""
      ensures FinalUsers(Names(d, k), Routed(r.toCabins, k)) == Names(d, k)
      ensures Replay(Names(d, k), Routed(r.toCabins, k)) == NoticesOf(d, c, Say(text), k)
    {
      TextSeen(Names(d, k), me.cabin, me.username, text, k);
    }
  }

  /** The client has not quit. */
  ghost predicate Serviceable(d: Deck, c: string) {
    c in d.clients ==> d.clients[c].online
  }

  /** The request takes the client out of the cabin it is recorded in. */
  predicate Departs(d: Deck, c: string, request: Request) {
    c in d.clients
    && match request
       case Leave => At(d.cabinIds, d.defaultCabin) in d.cabins && At(d.cabinIds, d.defaultCabin) != d.clients[c].cabin
       case Join(name) => At(d.cabinIds, name) in d.cabins && At(d.cabinIds, name) != d.clients[c].cabin
       case Quit => true
       case _ => false
  }

  /** At most one reply, addressed to the client and from the ship. */
  ghost predicate OneReply(messages: seq<Frames>, s: string, c: string) {
    && |messages| <= 1
    && forall i :: 0 <= i < |messages| ==>
         && |messages[i]| >= 4 && messages[i][0] == s && messages[i][1] == c && messages[i][2] == "SHIP"
         && (messages[i][3] == "ACK" || messages[i][3] == "INFO")
  }

  /** Only the client's own record changes: a login creates it, `/quit` takes it offline, and nothing else
      touches its name or whether it is online. */
  ghost predicate Affects(d: Deck, r: Reaction, s: string, c: string, request: Request) {
    && OneReply(r.toServer, s, c)
    && r.deck.clients.Keys == d.clients.Keys + (if request.Login? then {c} else {})
    && (forall k :: k in d.clients && k != c ==> r.deck.clients[k] == d.clients[k])
    && (c in d.clients ==>
          r.deck.clients[c] == d.clients[c].(online := d.clients[c].online && !request.Quit?,
                                             cabin := r.deck.clients[c].cabin))
    && (c !in d.clients && request.Login? ==>
          && r.toServer == [[s, c, "SHIP", "ACK"]]
          && r.deck.clients[c].username == request.username
          && r.deck.clients[c].serverId == s
          && r.deck.clients[c].online)
  }

  lemma EnrollAffects(d: Deck, s: string, c: string, request: Request)
    requires DeckInv(d) && c !in d.clients && request.Login?
    ensures Affects(d, Enroll(d, s, c, request.username, request.password), s, c, request)
  {
    hide DeckInv, Extends, Tracks, Silent, Enroll;
    EnrollSound(d, s, c, request.username, request.password);
  }

  lemma LookupAffects(d: Deck, r: Reaction, s: string, c: string, request: Request, target: string)
    requires c in d.clients && !request.Login? && !request.Quit?
    requires r.toServer == []
    requires r.deck.clients == d.clients || r.deck.clients == d.clients[c := d.clients[c].(cabin := target)]
    ensures Affects(d, r, s, c, request)
  {
  }

  lemma QuitAffects(d: Deck, s: string, c: string, request: Request)
    requires DeckInv(d) && c in d.clients && d.clients[c].online && request.Quit?
    ensures Affects(d, QuitShip(d, c), s, c, request)
  {
    QuitSound(d, c);
  }

  /** The requests that are answered, forwarded or ignored without touching a record. */
  lemma ReplyAffects(d: Deck, s: string, c: string, request: Request, order: seq<string>)
    requires Enumerates(order, d.cabins.Keys)
    requires c in d.clients ==> d.clients[c].online
    requires !request.Leave? && !request.Join? && !request.Quit? && (request.Login? ==> c in d.clients)
    ensures var r := OnRequest(d, s, c, request, order);
            r.deck == d && Affects(d, r, s, c, request)
  {
    if c in d.clients && request.Show? && d.clients[c].cabin in d.cabins {
      var info := ZmqInfo(d.cabins[d.clients[c].cabin]);
      assert (CrewHeader(s, c, "SHIP", "INFO") + info)[..4] == CrewHeader(s, c, "SHIP", "INFO");
    } else if c in d.clients && request.ShowAll? {
      var report := Report(order, d.cabins);
      assert (CrewHeader(s, c, "SHIP", "INFO") + report)[..4] == CrewHeader(s, c, "SHIP", "INFO");
    }
  }

  lemma OnRequestAffects(d: Deck, s: string, c: string, request: Request, order: seq<string>)
    requires DeckInv(d) && Enumerates(order, d.cabins.Keys) && Serviceable(d, c)
    ensures Affects(d, OnRequest(d, s, c, request, order), s, c, request)
  {
    if request.Login? && c !in d.clients {
      EnrollAffects(d, s, c, request);
    } else if c in d.clients && request.Leave? {
      LeaveIsJoin(d, c);
      LookupAndChangeSound(d, c, d.defaultCabin);
      LookupAffects(d, LeaveCabin(d, c), s, c, request, At(d.cabinIds, d.defaultCabin));
    } else if c in d.clients && request.Join? {
      LookupAndChangeSound(d, c, request.cabinName);
      LookupAffects(d, JoinCabin(d, c, request.cabinName), s, c, request, At(d.cabinIds, request.cabinName));
    } else if c in d.clients && request.Quit? {
      QuitAffects(d, s, c, request);
    } else if c in d.clients {
      ReplyAffects(d, s, c, request, order);
    }
  }

  /** A message to a cabin has the frames its handler indexes, goes to a registered cabin or to nobody, and
      seats only a known name. */
  ghost predicate Proper(d: Deck, m: Frames) {
    && m != []
    && (m[0] == "" || m[0] in d.cabins)
    && !OrderOf(m[1..]).Short?
    && (OrderOf(m[1..]).Seat? ==> OrderOf(m[1..]).username in d.crewIds)
  }

  ghost predicate AllProper(d: Deck, messages: seq<Frames>) {
    forall i :: 0 <= i < |messages| ==> Proper(d, messages[i])
  }

  lemma ByeProper(d: Deck, from: string, username: string)
    requires from == "" || from in d.cabins
    ensures Proper(d, [from, "DISCONNECT", username])
  {
    assert [from, "DISCONNECT", username][1..] == ["DISCONNECT", username];
    assert OrderOf(["DISCONNECT", username]) == Unseat(username);
  }

  lemma JoinProper(d: Deck, to: string, username: string)
    requires to in d.cabins && username in d.crewIds
    ensures Proper(d, [to, "JOIN", username])
  {
    assert [to, "JOIN", username][1..] == ["JOIN", username];
    assert OrderOf(["JOIN", username]) == Seat(username);
  }

  lemma TextProper(d: Deck, at: string, username: string, text: string)
    requires at == "" || at in d.cabins
    ensures Proper(d, [at, "TEXT", username, text])
  {
    assert [at, "TEXT", username, text][1..] == ["TEXT", username, text];
    assert OrderOf(["TEXT", username, text]) == Tell(username, text);
  }

  /** `e` is the deck after the move, whose directories are at least those of `d`. */
  lemma ChangeCabinProper(d: Deck, e: Deck, c: string, cab: string)
    requires Directory(d) && c in d.clients
    requires d.cabins.Keys <= e.cabins.Keys && d.crewIds.Keys <= e.crewIds.Keys
    ensures AllProper(e, ChangeCabin(d, c, cab).toCabins)
  {
    hide Proper;
    var me := d.clients[c];
    ByeProper(e, me.cabin, me.username);
    assert me.cabin != "" ==> me.cabin in d.cabins;
    if cab in d.cabins {
      JoinProper(e, cab, me.username);
    }
  }

  lemma JoinCabinProper(d: Deck, c: string, name: string)
    requires DeckInv(d) && c in d.clients && d.clients[c].online
    ensures var r := JoinCabin(d, c, name); AllProper(r.deck, r.toCabins)
  {
    var known := d.(cabinIds := With(d.cabinIds, name));
    assert Directory(known);
    assert Extends(known, JoinCabin(d, c, name).deck) by {
      LookupAndChangeSound(d, c, name);
    }
    hide Proper, Directory;
    ChangeCabinProper(known, JoinCabin(d, c, name).deck, c, At(d.cabinIds, name));
  }

  lemma QuitProper(d: Deck, c: string)
    requires DeckInv(d) && c in d.clients && d.clients[c].online
    ensures var r := QuitShip(d, c); AllProper(r.deck, r.toCabins)
  {
    QuitRecords(d, c);
    var cab := d.clients[c].cabin;
    assert cab == "" || cab in d.cabins;
    hide Proper, Directory, Headcount, QuitShip;
    ByeProper(QuitShip(d, c).deck, cab, d.clients[c].username);
  }

  lemma SayProper(d: Deck, c: string, text: string)
    requires Directory(d) && c in d.clients
    ensures AllProper(d, ForwardText(d, c, text).toCabins)
  {
    hide Proper;
    TextProper(d, d.clients[c].cabin, d.clients[c].username, text);
  }

  lemma OnRequestProper(d: Deck, s: string, c: string, request: Request, order: seq<string>)
    requires DeckInv(d) && Enumerates(order, d.cabins.Keys) && Serviceable(d, c)
    ensures var r := OnRequest(d, s, c, request, order); AllProper(r.deck, r.toCabins)
  {
    assert Directory(d);
    hide DeckInv, Directory, Proper, ChangeCabin, Enroll, LeaveCabin, JoinCabin, QuitShip;
    if request.Login? && c !in d.clients {
      EnrollProper(d, s, c, request.username, request.password);
    } else if c in d.clients && request.Leave? {
      LeaveIsJoin(d, c);
      JoinCabinProper(d, c, d.defaultCabin);
    } else if c in d.clients && request.Join? {
      JoinCabinProper(d, c, request.cabinName);
    } else if c in d.clients && request.Quit? {
      QuitProper(d, c);
    } else if c in d.clients && request.Say? {
      SayProper(d, c, request.text);
    }
  }

  lemma EnrollProper(d: Deck, s: string, c: string, username: string, password: string)
    requires DeckInv(d) && c !in d.clients
    ensures var r := Enroll(d, s, c, username, password); AllProper(r.deck, r.toCabins)
  {
    var e := Named(d, s, c, username, password);
    var target := At(d.cabinIds, d.defaultCabin);
    NamedSound(d, s, c, username, password);
    ChangeCabinSound(e, c, target);
    ChangeCabinProper(e, ChangeCabin(e, c, target).deck, c, target);
  }

  /** Every message of a queue has the frames its handler indexes and seats only known names. */
  ghost predicate AllHandled(known: set<string>, queue: seq<Frames>) {
    forall i :: 0 <= i < |queue| ==>
      !OrderOf(queue[i]).Short? && (OrderOf(queue[i]).Seat? ==> OrderOf(queue[i]).username in known)
  }

  /** What one cabin receives of proper messages. */
  lemma {:induction false} RoutedProper(d: Deck, messages: seq<Frames>, cab: string)
    requires AllProper(d, messages) && cab != ""
    ensures AllHandled(d.crewIds.Keys, Routed(messages, cab))
    ensures cab !in d.cabins ==> Routed(messages, cab) == []
    decreases |messages|
  {
    if messages == [] {
    } else {
      var m := messages[0];
      var rest := Routed(messages[1..], cab);
      assert Proper(d, m);
      RoutedProper(d, messages[1..], cab);
      assert AllHandled(d.crewIds.Keys, [m[1..]] + rest);
      assert [] + rest == rest;
    }
  }

  /** Handling a message of a client that has not quit keeps the deck's invariant; every cabin is sent exactly the
      text forwarded to it; and the cabins can follow the change of their membership from the messages they are sent
      exactly if the client leaves no namesake behind. */
  lemma OnRequestSound(d: Deck, s: string, c: string, request: Request, order: seq<string>)
    requires DeckInv(d) && Enumerates(order, d.cabins.Keys) && Serviceable(d, c)
    ensures var r := OnRequest(d, s, c, request, order);
            && DeckInv(r.deck) && Extends(d, r.deck)
            && (forall k :: k != "" ==> Replay(Names(d, k), Routed(r.toCabins, k)) == NoticesOf(d, c, request, k))
            && (Tracks(d, r) <==> (Departs(d, c, request) ==> NoNamesake(d, c)))
  {
    hide DeckInv, Extends, Tracks, ChangeCabin, Enroll, QuitShip, Routed, Replay, NoNamesake, JoinCabin;
    if request.Login? && c !in d.clients {
      EnrollSound(d, s, c, request.username, request.password);
    } else if c !in d.clients {
      NothingSent(d, OnRequest(d, s, c, request, order));
      ExtendsItself(d);
    } else {
      ExtendsItself(d);
      match request
      case Leave =>
        LeaveIsJoin(d, c);
        LookupAndChangeSound(d, c, d.defaultCabin);
      case Join(name) => LookupAndChangeSound(d, c, name);
      case Quit => QuitSound(d, c);
      case Say(text) => SaySound(d, c, text);
      case _ => NothingSent(d, OnRequest(d, s, c, request, order));
    }
  }

  /** `/leave` is a `/join` of the default cabin. */
  lemma LeaveIsJoin(d: Deck, c: string)
    requires c in d.clients
    ensures LeaveCabin(d, c) == JoinCabin(d, c, d.defaultCabin)
  {
  }

  lemma UniqueKept(d: Deck, e: Deck, c: string)
    requires Unique(d) && c in d.clients && e.crewIds == d.crewIds
    requires c in e.clients && e.clients == d.clients[c := e.clients[c]]
    requires e.clients[c].username == d.clients[c].username && (e.clients[c].online ==> d.clients[c].online)
    ensures Unique(e)
  {
  }

  /** Handling a message keeps every online client the addressee of its name exactly if it is no login under the name
      of an online client. */
  lemma OnRequestUnique(d: Deck, s: string, c: string, request: Request, order: seq<string>)
    requires DeckInv(d) && Enumerates(order, d.cabins.Keys) && Serviceable(d, c) && Unique(d)
    ensures Unique(OnRequest(d, s, c, request, order).deck)
       <==> (request.Login? && c !in d.clients ==> NameFree(d, request.username))
  {
    hide DeckInv, Enroll, QuitShip, JoinCabin, LeaveCabin, Unique, NameFree;
    if request.Login? && c !in d.clients {
      EnrollUnique(d, s, c, request.username, request.password);
    } else if c in d.clients && request.Leave? {
      LeaveIsJoin(d, c);
      JoinUnique(d, c, d.defaultCabin);
    } else if c in d.clients && request.Join? {
      JoinUnique(d, c, request.cabinName);
    } else if c in d.clients && request.Quit? {
      QuitUnique(d, c);
    }
  }

  lemma JoinUnique(d: Deck, c: string, name: string)
    requires DeckInv(d) && c in d.clients && d.clients[c].online && Unique(d)
    ensures Unique(JoinCabin(d, c, name).deck)
  {
    hide DeckInv, Extends, Tracks, Silent, NoNamesake, JoinCabin, Unique;
    LookupAndChangeSound(d, c, name);
    UniqueKept(d, JoinCabin(d, c, name).deck, c);
  }

  lemma QuitUnique(d: Deck, c: string)
    requires DeckInv(d) && c in d.clients && d.clients[c].online && Unique(d)
    ensures Unique(QuitShip(d, c).deck)
  {
    hide DeckInv, Extends, Tracks, Silent, NoNamesake, QuitShip, Unique;
    QuitSound(d, c);
    UniqueKept(d, QuitShip(d, c).deck, c);
  }

  /** A login takes its name over: everybody online is still the addressee of its name exactly if nobody online bore
      this one. */
  lemma EnrollUnique(d: Deck, s: string, c: string, username: string, password: string)
    requires DeckInv(d) && c !in d.clients && Unique(d)
    ensures var e := Enroll(d, s, c, username, password).deck;
            && (Unique(e) <==> NameFree(d, username))
            && Addressee(e, username) == c
  {
    var e := Enroll(d, s, c, username, password).deck;
    hide DeckInv, Extends, Tracks, Silent, Enroll;
    EnrollSound(d, s, c, username, password);
    hide Unique, NameFree;
    NameTaken(d, e, c, username);
  }

  lemma NameTaken(d: Deck, e: Deck, c: string, username: string)
    requires Unique(d) && c !in d.clients && c in e.clients
    requires e.clients == d.clients[c := e.clients[c]] && e.clients[c].username == username
    requires e.crewIds == d.crewIds[username := c]
    ensures Unique(e) <==> NameFree(d, username)
  {
    forall x | x in d.clients && x != c
      ensures At(e.crewIds, e.clients[x].username)
           == if d.clients[x].username == username then c else At(d.crewIds, d.clients[x].username)
    {
    }
    if !NameFree(d, username) {
      var x :| x in d.clients && d.clients[x].online && d.clients[x].username == username;
      assert At(e.crewIds, e.clients[x].username) == c;
    }
  }

  // ----- Cabin messages -----

  lemma SameClients(d: Deck, e: Deck)
    requires e.clients == d.clients
    ensures forall k :: Members(e, k) == Members(d, k) && Names(e, k) == Names(d, k)
  {
    forall k
      ensures Members(e, k) == Members(d, k) && Names(e, k) == Names(d, k)
    {
      assert Members(e, k) == Members(d, k);
    }
  }

  /** Registering a new cabin under a non-empty title keeps the invariant and everybody's membership. */
  lemma EnterSound(d: Deck, info: Frames)
    requires DeckInv(d) && |info| >= 3
    requires info[0] != "" && info[0] !in d.cabins && info[1] != ""
    ensures var e := Enter(d, info);
            && DeckInv(e) && Extends(d, e)
            && (forall k :: Members(e, k) == Members(d, k) && Names(e, k) == Names(d, k))
  {
    var e := Enter(d, info);
    assert Members(d, info[0]) == {};
    assert Extends(d, e) && Defaulted(e);
    hide Members, Names, Directory, Extends, Defaulted;
    SameClients(d, e);
    EnterHeadcount(d, info);
    EnterDirectory(d, info);
  }

  lemma EnterHeadcount(d: Deck, info: Frames)
    requires Headcount(d) && |info| >= 3
    requires Members(d, info[0]) == {}
    ensures Headcount(Enter(d, info))
  {
    hide Members;
    SameClients(d, Enter(d, info));
  }

  lemma EnterDirectory(d: Deck, info: Frames)
    requires Directory(d) && |info| >= 3 && info[0] != ""
    ensures Directory(Enter(d, info))
  {
  }

  /** The inner receive takes the next frame of any cabin. Taking one of a registered cabin keeps the head
      counts exactly if that cabin is empty (modulo 2^32). */
  lemma EnterResetsCount(d: Deck, info: Frames)
    requires Headcount(d) && |info| >= 3
    ensures info[0] in d.cabins ==>
              (Headcount(Enter(d, info)) <==> |Members(d, info[0])| % U32_RANGE == 0)
  {
    var e := Enter(d, info);
    assert forall k :: Members(e, k) == Members(d, k);
    assert e.cabins[info[0]].playing == 0;
  }

  /** Passing on a SEND to a known name changes none of the maps: no lookup inserts a default entry. */
  lemma PassOnSound(d: Deck, cab: string, send: Service)
    requires Directory(d) && send.Send? && send.username in d.crewIds
    ensures var r := PassOn(d, cab, send);
            && r.deck == d
            && Addressee(d, send.username) in d.clients
            && d.clients[Addressee(d, send.username)].username == send.username
            && r.toCabins == []
  {
  }
}
