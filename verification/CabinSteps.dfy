/** The deck's handling of cabin messages, as the cabin concerned sees it. */
module CabinSteps {
  import opened Deck
  import opened Defines
  import opened Invariant
  import opened Ledger
  import opened Lobby
  import opened Membership
  import opened Relay
  import opened World
  import opened Wrappers

  lemma ServiceOfSend(cab: string, username: string, sender: string, text: string)
    ensures ServiceOf(Prefixed(cab, SendMsg(username, sender, text))) == Send("TEXT", username, sender, [text])
  {
    var input := Prefixed(cab, SendMsg(username, sender, text));
    assert input == [cab, "SEND", "TEXT", username, sender, text];
    assert input[5..] == [text];
  }

  lemma ServiceOfRegistration(cab: string)
    ensures ServiceOf(Prefixed(cab, REGISTRATION)) == Register
  {
    assert Prefixed(cab, REGISTRATION) == [cab, "REGISTRATION", "JOIN"];
  }

  /** What the outer loop makes of an info message that comes after the registration handler gave up: it has all
      the frames the handler indexes exactly if the title is not the word SEND, and is ignored if the title is not
      a command word at all. */
  lemma LateInfo(cab: string, title: string, description: string)
    ensures var service := ServiceOf(Prefixed(cab, InfoMsg(title, description)));
            && (service.Underflow? <==> title == "SEND")
            && (service.Register? <==> title == "REGISTRATION" && description == "JOIN")
            && (service.Unserved? <==> title != "SEND" && !(title == "REGISTRATION" && description == "JOIN"))
  {
    assert Prefixed(cab, InfoMsg(title, description)) == [cab, title, description, Decimal(0)];
  }

  /** The first pending SEND is the first copy the deck has not handled. */
  lemma PendingSend(p: CabinProc) returns (copy: Copy)
    requires Ledgered(p) && p.outbox != []
    ensures |p.settled| < |Copies(p.broadcasts)| && copy == Copies(p.broadcasts)[|p.settled|]
    ensures p.outbox[0] == SendMsg(copy.username, copy.sender, copy.text)
  {
    copy := Copies(p.broadcasts)[|p.settled|];
  }

  /** A copy carries the text of its notice, for a user its broadcast visited. */
  lemma CopyCarries(p: CabinProc, i: nat)
    requires AllCarry(p.broadcasts, p.notices) && i < |Copies(p.broadcasts)|
    ensures var copy := Copies(p.broadcasts)[i];
            && copy.index < |p.broadcasts|
            && copy.username in p.broadcasts[copy.index].order
            && copy.sender == p.notices[copy.index].sender && copy.text == p.notices[copy.index].text
  {
    CopyBelongs(p.broadcasts, i);
    var copy := Copies(p.broadcasts)[i];
    assert Carries(p.broadcasts[copy.index], p.notices[copy.index]);
  }

  /** The cabin after the deck handled its first pending SEND. */
  ghost function SettledBy(d: Deck, cab: string, p: CabinProc, username: string): CabinProc
    requires p.outbox != []
  {
    p.(outbox := p.outbox[1..],
       settled := p.settled + [Settled(username, Addressee(d, username), Admits(d, cab, username))])
  }

  lemma SettleLedger(d: Deck, cab: string, p: CabinProc, copy: Copy)
    requires Ledgered(p) && p.outbox != [] && copy == Copies(p.broadcasts)[|p.settled|]
    ensures Ledgered(SettledBy(d, cab, p, copy.username))
  {
    var copies, n := Copies(p.broadcasts), |p.settled|;
    assert SendsOf(copies[n..])[1..] == SendsOf(copies[n + 1..]);
  }

  lemma SettleOk(d: Deck, cab: string, p: CabinProc, copy: Copy)
    requires Directory(d) && Registered(d, p) && p.outbox != []
    requires |p.settled| < |Copies(p.broadcasts)| && copy == Copies(p.broadcasts)[|p.settled|]
    ensures Registered(d, SettledBy(d, cab, p, copy.username))
    ensures copy.username in d.crewIds
  {
    SettleLedger(d, cab, p, copy);
    CopyCarries(p, |p.settled|);
  }

  // ----- Registration -----

  /** A cabin that enters the books has an empty record. */
  lemma NewcomerRegistered(d: Deck, p: CabinProc)
    requires p.phase.Serving? && p.users == {} && NoHistory(p) && p.inbox == [] && p.outbox == []
    ensures Registered(d, p)
  {
    assert SendsOf([]) == [];
  }

  /** Entering one cabin changes nothing for another. */
  lemma OthersKeptByEnter(d: Deck, awaiting: Option<string>, info: Frames, cab: string, p: CabinProc)
    requires DeckInv(d) && |info| >= 3 && info[0] != "" && info[0] !in d.cabins && info[1] != ""
    requires cab != info[0] && awaiting == Some(info[0])
    requires CabinOk(d, awaiting, cab, p)
    ensures CabinOk(Enter(d, info), None, cab, p)
  {
    EnterSound(d, info);
  }
}
