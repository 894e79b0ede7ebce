/** A crewmate's client: what it sends for a line typed by its user, when it stops, and what it indexes in the
    messages it receives. */
module Client {
  import opened Defines
  import opened Wrappers

  function LoginMsg(username: string, password: string): Frames {
    ["CREW", "LOGIN", username, password]
  }

  predicate StartsWithJoin(line: string) {
    |line| >= 5 && line[..5] == "/join"
  }

  /** The lines the input task passes on: not empty, and `/join` followed by at least one character, since the
      handler takes the substring behind it. */
  predicate Typeable(line: string) {
    line != "" && (StartsWithJoin(line) ==> |line| >= 6)
  }

  predicate IsCommand(line: string) {
    line != "" && line[0] == '/'
  }

  function CommandMsg(line: string): Frames
    requires Typeable(line)
  {
    if StartsWithJoin(line) then ["CREW", "COMMAND", line[..5], line[6..]] else ["CREW", "COMMAND", line]
  }

  function LineMsg(line: string): Frames
    requires Typeable(line)
  {
    if IsCommand(line) then CommandMsg(line) else ["CREW", "TEXT", line]
  }

  /** Whether the client still runs after a line, where `accepted` says whether the socket took the message
      within ten attempts. */
  predicate RunsAfter(line: string, accepted: bool) {
    line != "/quit" && (accepted || IsCommand(line))
  }

  /** The frames the client's handlers index in a received message are there. */
  predicate Readable(m: Frames) {
    && |m| >= 1
    && (m[0] == "SHIP" ==>
          && |m| >= 2
          && (m[1] == "TEXT" || m[1] == "COMMAND" ==> |m| >= 3))
    && (m[0] == "CABIN" ==>
          && |m| >= 2
          && (m[1] == "TEXT" ==> |m| >= 4))
  }

  predicate KillsClient(m: Frames) {
    |m| >= 3 && m[0] == "SHIP" && m[1] == "COMMAND" && m[2] == "die"
  }

  /** The error number of a refused send. */
  const EAGAIN: nat := 11

  /** The client's end of its socket. The next `refusals` sends are refused. */
  class Dealer {
    var sent: seq<Frames>
    var refusals: nat

    constructor (refusals: nat)
      ensures sent == [] && this.refusals == refusals
    {
      sent, this.refusals := [], refusals;
    }

    /** `send_multipart`: the number of frames sent, or None if the socket refuses the message. */
    method Send(message: Frames) returns (result: Option<nat>)
      modifies this
      ensures result == if old(refusals) == 0 then Some(|message|) else None
      ensures sent == if old(refusals) == 0 then old(sent) + [message] else old(sent)
      ensures refusals == if old(refusals) == 0 then 0 else old(refusals) - 1
    {
      if refusals == 0 {
        sent := sent + [message];
        result := Some(|message|);
      } else {
        refusals := refusals - 1;
        result := None;
      }
    }

    /** The retry loops of the client's handlers: up to ten attempts. */
    method SendWithRetries(message: Frames) returns (ok: bool)
      modifies this
      ensures ok == (old(refusals) < 10)
      ensures sent == if ok then old(sent) + [message] else old(sent)
    {
      ok := false;
      var i := 0;
      while i < 10 && !ok
        invariant 0 <= i <= 10
        invariant !ok ==> sent == old(sent) && refusals == old(refusals) - i
        invariant ok ==> sent == old(sent) + [message] && old(refusals) < 10
        decreases 10 - i
      {
        var result := Send(message);
        ok := result.Some?;
        i := i + 1;
      }
    }

    /** The retry loop of the client's constructor, for any result of the first send. It compares the result, a number
        of frames or nothing, with the error number: so it sends again exactly if the first send reported that many
        frames, and never after a refusal. It ends unless the message itself has that many frames. */
    method ResendWhileAgain(message: Frames, first: Option<nat>)
      requires |message| != EAGAIN
      modifies this
      ensures first != Some(EAGAIN) ==> sent == old(sent) && refusals == old(refusals)
      ensures first == Some(EAGAIN) ==> sent == old(sent) + if old(refusals) == 0 then [message] else []
    {
      var result := first;
      while result == Some(EAGAIN)
        invariant (result == first && sent == old(sent) && refusals == old(refusals))
               || (first == Some(EAGAIN) && result != Some(EAGAIN)
                   && sent == old(sent) + if old(refusals) == 0 then [message] else [])
        decreases if result == Some(EAGAIN) then 1 else 0
      {
        result := Send(message);
      }
    }
  }

  class Client {
    const username: string
    const password: string
    const dealer: Dealer
    var alive: bool

    /** The first half of the constructor: connects to a socket that refuses the given number of sends, and sends the
        login. It has been sent exactly if the first send is accepted. */
    constructor (username: string, password: string, refusals: nat)
      ensures this.username == username && this.password == password && fresh(dealer) && alive
      ensures dealer.sent == if refusals == 0 then [["CREW", "LOGIN", username, password]] else []
    {
      this.username, this.password := username, password;
      alive := true;
      dealer := new Dealer(refusals);
      new;
      var message := ["CREW", "LOGIN", username, password];
      var result := dealer.Send(message);
      dealer.ResendWhileAgain(message, result);
    }

    /** `/quit` stops the client, also if the socket refuses it ten times. A `/join` is split behind its first five
        characters, and its sixth is dropped. */
    method HandleUserInputCommand(command: string)
      requires command != "" && command[0] == '/' && command != "/join" && alive
      requires command != "/quit" ==> dealer.refusals == 0
      modifies this`alive, dealer
      ensures alive <==> command != "/quit"
      ensures dealer.sent == old(dealer.sent) + if old(dealer.refusals) >= 10 then []
                                                else if |command| >= 6 && command[..5] == "/join"
                                                     then [["CREW", "COMMAND", "/join", command[6..]]]
                                                else [["CREW", "COMMAND", command]]
    {
      if command == "/quit" {
        var ok := dealer.SendWithRetries(["CREW", "COMMAND", command]);
        alive := false;
      } else if |command| >= 5 && command[..5] == "/join" {
        assert command == command[..5] + command[5..];
        var result := dealer.Send(["CREW", "COMMAND", command[..5], command[6..]]);
        assert result.Some?;
      } else {
        var result := dealer.Send(["CREW", "COMMAND", command]);
        assert result.Some?;
      }
    }

    /** A text is sent once and the client runs on, or the socket refused it ten times, nothing is sent and the client
        stops. */
    method HandleUserInputText(text: string)
      requires text != "" && text[0] != '/' && alive
      modifies this`alive, dealer
      ensures alive <==> dealer.sent == old(dealer.sent) + [["CREW", "TEXT", text]]
      ensures !alive <==> dealer.sent == old(dealer.sent)
      ensures alive <==> old(dealer.refusals) < 10
    {
      var ok := dealer.SendWithRetries(["CREW", "TEXT", text]);
      if !ok {
        alive := false;
      }
    }

    /** The core task, for a line of the user. Commands other than `/quit` are sent once, and the source asserts
        that the socket takes them. */
    method HandleUserLine(line: string)
      requires line != "" && line != "/join" && alive
      requires line[0] == '/' && line != "/quit" ==> dealer.refusals == 0
      modifies this`alive, dealer
      ensures line[0] == '/' ==> (alive <==> line != "/quit")
      ensures line[0] != '/' ==> (alive <==> dealer.sent == old(dealer.sent) + [["CREW", "TEXT", line]])
      ensures dealer.sent == old(dealer.sent) + if old(dealer.refusals) >= 10 then []
                                                else if line[0] != '/' then [["CREW", "TEXT", line]]
                                                else if |line| >= 6 && line[..5] == "/join"
                                                     then [["CREW", "COMMAND", "/join", line[6..]]]
                                                else [["CREW", "COMMAND", line]]
      ensures Typeable(line)
      ensures dealer.sent == old(dealer.sent) + if old(dealer.refusals) < 10 then [LineMsg(line)] else []
      ensures alive <==> RunsAfter(line, old(dealer.refusals) < 10)
    {
      if line[0] == '/' {
        HandleUserInputCommand(line);
      } else {
        HandleUserInputText(line);
      }
    }

    /** The core task, for a message of the ship or a cabin: only the display changes, unless the ship tells the
        client to die. */
    method HandleReceived(input: Frames)
      requires Readable(input) && alive
      modifies this`alive
      ensures !alive <==> |input| >= 3 && input[0] == "SHIP" && input[1] == "COMMAND" && input[2] == "die"
      ensures alive == !KillsClient(input)
    {
      if input[0] == "SHIP" {
        if input[1] == "COMMAND" {
          var command := input[2];
          if command == "die" {
            alive := false;
          }
        }
      }
    }
  }
}
