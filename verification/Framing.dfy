/** Multipart messages over a socket: `send_multipart`, `recv_multipart_n` and the deque class `multipart_t`.

    A socket carries single frames, each with a "more" flag; a multipart message is a run of frames whose
    last one, and only that one, has the flag cleared. */
module Framing {
  import opened Wrappers

  datatype Frame<T> = Frame(data: T, more: bool)

  /** The frames `send_multipart` writes for one range of parts: every part but the last is flagged, and the
      last one is flagged exactly if the caller asked for `sndmore`. */
  function FramesOf<T>(parts: seq<T>, sndmore: bool): (frames: seq<Frame<T>>)
    ensures |frames| == |parts|
  {
    seq(|parts|, i requires 0 <= i < |parts| => Frame(parts[i], sndmore || i + 1 < |parts|))
  }

  function Payloads<T>(frames: seq<Frame<T>>): (parts: seq<T>)
    ensures |parts| == |frames|
  {
    seq(|frames|, i requires 0 <= i < |frames| => frames[i].data)
  }

  lemma PayloadsOfOneMore<T>(stream: seq<Frame<T>>, n: nat)
    requires n < |stream|
    ensures Payloads(stream[..n + 1]) == Payloads(stream[..n]) + [stream[n].data]
    ensures stream[n..][1..] == stream[n + 1..]
  {
  }

  /** ZeroMQ delivers messages atomically: a receive queue never ends inside a message. */
  predicate Complete<T>(stream: seq<Frame<T>>) {
    stream == [] || !stream[|stream| - 1].more
  }

  /** The number of frames of the first message of a stream. */
  function HeadLength<T>(stream: seq<Frame<T>>): (n: nat)
    requires stream != [] && Complete(stream)
    ensures 1 <= n <= |stream|
    ensures !stream[n - 1].more
    ensures forall i :: 0 <= i < n - 1 ==> stream[i].more
  {
    if stream[0].more then
      assert Complete(stream[1..]);
      1 + HeadLength(stream[1..])
    else
      1
  }

  /** The wire image of messages sent one after another. */
  function Stream<T>(messages: seq<seq<T>>): seq<Frame<T>> {
    if messages == [] then [] else FramesOf(messages[0], false) + Stream(messages[1..])
  }

  /** The messages repeated receives return for a stream. */
  function Split<T>(stream: seq<Frame<T>>): seq<seq<T>>
    requires Complete(stream)
    decreases |stream|
  {
    if stream == [] then
      []
    else
      var n := HeadLength(stream);
      [Payloads(stream[..n])] + Split(stream[n..])
  }

  datatype RecvResult = Received(count: nat) | Again | TooManyParts

  /** A socket end: what was sent through it, what waits to be received, and whether it refuses sends
      (EAGAIN). The refusal is decided for a whole message, as ZeroMQ guarantees. */
  class Socket<T> {
    var sent: seq<Frame<T>>
    var pending: seq<Frame<T>>
    var refuses: bool

    method Send(data: T, more: bool) returns (ok: bool)
      modifies this`sent
      ensures ok == !refuses
      ensures sent == if ok then old(sent) + [Frame(data, more)] else old(sent)
    {
      ok := !refuses;
      if ok {
        sent := sent + [Frame(data, more)];
      }
    }

    method Recv() returns (frame: Option<Frame<T>>)
      modifies this`pending
      ensures frame == (if old(pending) == [] then None else Some(old(pending)[0]))
      ensures pending == if old(pending) == [] then [] else old(pending)[1..]
    {
      if pending == [] {
        return None;
      }
      frame := Some(pending[0]);
      pending := pending[1..];
    }
  }

  /** Returns the number of parts sent, or None if the socket refused the message as a whole. */
  method SendMultipart<T>(socket: Socket<T>, parts: seq<T>, sndmore: bool) returns (count: Option<nat>)
    modifies socket`sent
    ensures count == if socket.refuses && parts != [] then None else Some(|parts|)
    ensures socket.sent == if count.None? then old(socket.sent) else old(socket.sent) + FramesOf(parts, sndmore)
  {
    var i := 0;
    while i < |parts|
      invariant 0 <= i <= |parts|
      invariant i > 0 ==> !socket.refuses
      invariant socket.sent == old(socket.sent) + FramesOf(parts, sndmore)[..i]
    {
      var ok := socket.Send(parts[i], sndmore || i + 1 < |parts|);
      if !ok {
        assert i == 0;
        return None;
      }
      i := i + 1;
    }
    return Some(|parts|);
  }

  /** Receives one message of at most `limit` parts (without a limit for None). */
  method RecvMultipartN<T>(socket: Socket<T>, limit: Option<nat>) returns (parts: seq<T>, result: RecvResult)
    requires Complete(socket.pending)
    modifies socket`pending
    ensures Complete(socket.pending)
    ensures limit.Some? && limit.value == 0 ==>
              result == TooManyParts && parts == [] && socket.pending == old(socket.pending)
    ensures old(socket.pending) == [] && (limit.Some? ==> limit.value > 0) ==> result == Again && parts == []
    ensures old(socket.pending) != [] ==>
              var n := HeadLength(old(socket.pending));
              var taken := if limit.Some? && limit.value < n then limit.value else n;
              && result == (if taken < n then TooManyParts else Received(n))
              && parts == Payloads(old(socket.pending)[..taken])
              && socket.pending == old(socket.pending)[taken..]
  {
    var count := 0;
    parts := [];
    ghost var stream := socket.pending;
    while true
      invariant count == |parts|
      invariant stream == [] ==> count == 0
      invariant stream != [] ==> count < HeadLength(stream)
      invariant limit.Some? ==> count <= limit.value
      invariant count <= |stream| && socket.pending == stream[count..]
      invariant parts == Payloads(stream[..count])
      decreases |stream| - count
    {
      if limit.Some? && count >= limit.value {
        return parts, TooManyParts;
      }
      var frame := socket.Recv();
      if frame.None? {
        assert count == 0;
        return parts, Again;
      }
      PayloadsOfOneMore(stream, count);
      count := count + 1;
      parts := parts + [frame.value.data];
      if !frame.value.more {
        break;
      }
    }
    return parts, Received(count);
  }

  /** `multipart_t`: a deque of message parts. */
  class Multipart<T> {
    var parts: seq<T>

    constructor ()
      ensures parts == []
    {
      parts := [];
    }

    method Clear()
      modifies this
      ensures parts == []
    {
      parts := [];
    }

    method Push(part: T)
      modifies this
      ensures parts == [part] + old(parts)
    {
      parts := [part] + parts;
    }

    method Add(part: T)
      modifies this
      ensures parts == old(parts) + [part]
    {
      parts := parts + [part];
    }

    method Pop() returns (part: T)
      requires parts != []
      modifies this
      ensures [part] + parts == old(parts)
    {
      part := parts[0];
      parts := parts[1..];
    }

    method Remove() returns (part: T)
      requires parts != []
      modifies this
      ensures parts + [part] == old(parts)
    {
      part := parts[|parts| - 1];
      parts := parts[..|parts| - 1];
    }

    /** Concatenates `other` to the back and leaves it empty; it must be another object, as the loop runs
        until `other` is empty. */
    method Append(other: Multipart<T>)
      requires other != this
      modifies this, other
      ensures parts == old(parts) + old(other.parts)
      ensures other.parts == []
    {
      while other.parts != []
        invariant parts + other.parts == old(parts) + old(other.parts)
        decreases |other.parts|
      {
        var part := other.Pop();
        Add(part);
      }
    }

    /** Concatenates `other` to the front and leaves it empty. */
    method Prepend(other: Multipart<T>)
      requires other != this
      modifies this, other
      ensures parts == old(other.parts) + old(parts)
      ensures other.parts == []
    {
      while other.parts != []
        invariant other.parts + parts == old(other.parts) + old(parts)
        decreases |other.parts|
      {
        var part := other.Remove();
        Push(part);
      }
    }

    /** Sends the parts as one message and leaves the deque empty. A refused send has already popped the
        first part, which is lost. */
    method Send(socket: Socket<T>) returns (ok: bool)
      modifies this, socket`sent
      ensures ok == (!socket.refuses || old(parts) == [])
      ensures ok ==> parts == [] && socket.sent == old(socket.sent) + FramesOf(old(parts), false)
      ensures !ok ==> parts == old(parts)[1..] && socket.sent == old(socket.sent)
    {
      ghost var all := parts;
      ghost var frames := FramesOf(parts, false);
      var more := |parts| > 0;
      ghost var i := 0;
      while more
        invariant 0 <= i <= |all| && parts == all[i..] && more == (i < |all|)
        invariant i > 0 ==> !socket.refuses
        invariant socket.sent == old(socket.sent) + frames[..i]
        decreases |all| - i
      {
        var message := Pop();
        more := |parts| > 0;
        var sent := socket.Send(message, more);
        if !sent {
          return false;
        }
        i := i + 1;
      }
      Clear();
      return true;
    }

    /** Replaces the contents with the next message of the socket, or with nothing if there is none. */
    method Recv(socket: Socket<T>) returns (ok: bool)
      requires Complete(socket.pending)
      modifies this, socket`pending
      ensures Complete(socket.pending)
      ensures ok == (old(socket.pending) != [])
      ensures !ok ==> parts == []
      ensures ok ==> var n := HeadLength(old(socket.pending));
                     parts == Payloads(old(socket.pending)[..n]) && socket.pending == old(socket.pending)[n..]
    {
      Clear();
      ghost var stream := socket.pending;
      var more := true;
      while more
        invariant |parts| <= |stream| && socket.pending == stream[|parts|..]
        invariant parts == Payloads(stream[..|parts|])
        invariant stream == [] ==> more && parts == []
        invariant stream != [] ==> if more then |parts| < HeadLength(stream) else |parts| == HeadLength(stream)
        decreases |stream| - |parts|, more
      {
        var frame := socket.Recv();
        if frame.None? {
          return false;
        }
        more := frame.value.more;
        PayloadsOfOneMore(stream, |parts|);
        Add(frame.value.data);
      }
      return true;
    }
  }

  /** The first receive on a stream of sent messages takes exactly the first message. */
  lemma HeadOfStream<T>(message: seq<T>, rest: seq<Frame<T>>)
    requires message != []
    requires Complete(rest)
    ensures var stream := FramesOf(message, false) + rest;
            && Complete(stream)
            && HeadLength(stream) == |message|
            && Payloads(stream[..|message|]) == message
            && stream[|message|..] == rest
  {
    var stream := FramesOf(message, false) + rest;
    assert forall i :: 0 <= i < |message| ==> stream[i].more == (i + 1 < |message|);
    assert !stream[HeadLength(stream) - 1].more && !stream[|message| - 1].more;
    assert stream[..|message|] == FramesOf(message, false);
    assert Payloads(FramesOf(message, false)) == message;
  }

  lemma {:induction false} StreamIsComplete<T>(messages: seq<seq<T>>)
    requires forall i :: 0 <= i < |messages| ==> messages[i] != []
    ensures Complete(Stream(messages))
  {
    if messages == [] {
    } else {
      StreamIsComplete(messages[1..]);
      HeadOfStream(messages[0], Stream(messages[1..]));
    }
  }

  /** Stream framing: repeated receives return the messages that were sent, with the same boundaries. */
  lemma {:induction false} StreamFraming<T>(messages: seq<seq<T>>)
    requires forall i :: 0 <= i < |messages| ==> messages[i] != []
    ensures Complete(Stream(messages)) && Split(Stream(messages)) == messages
  {
    StreamIsComplete(messages);
    if messages == [] {
    } else {
      StreamIsComplete(messages[1..]);
      HeadOfStream(messages[0], Stream(messages[1..]));
      StreamFraming(messages[1..]);
    }
  }

  lemma HeadReproduces<T>(stream: seq<Frame<T>>)
    requires stream != [] && Complete(stream)
    ensures var n := HeadLength(stream);
            FramesOf(Payloads(stream[..n]), false) == stream[..n]
  {
    var n := HeadLength(stream);
    var frames := FramesOf(Payloads(stream[..n]), false);
    forall i | 0 <= i < n
      ensures frames[i] == stream[i]
    {
      assert stream[i].more == (i + 1 < n);
    }
  }

  lemma TakeDrop<T>(s: seq<T>, n: nat)
    requires n <= |s|
    ensures s[..n] + s[n..] == s
  {
  }

  lemma StreamOfCons<T>(head: seq<T>, rest: seq<seq<T>>)
    ensures Stream([head] + rest) == FramesOf(head, false) + Stream(rest)
  {
    assert ([head] + rest)[1..] == rest;
  }

  /** The other direction: re-sending what was received reproduces every complete stream, frame by frame. */
  lemma {:induction false} ResendingReproduces<T>(stream: seq<Frame<T>>)
    requires Complete(stream)
    ensures Stream(Split(stream)) == stream
    decreases |stream|
  {
    if stream == [] {
    } else {
      var n := HeadLength(stream);
      var head := Payloads(stream[..n]);
      HeadReproduces(stream);
      ResendingReproduces(stream[n..]);
      StreamOfCons(head, Split(stream[n..]));
      calc {
        Stream(Split(stream));
        Stream([head] + Split(stream[n..]));
        FramesOf(head, false) + Stream(Split(stream[n..]));
        stream[..n] + stream[n..];
        { TakeDrop(stream, n); }
        stream;
      }
    }
  }

  /** Parts sent with `sndmore` and the parts sent after them are received as one message. */
  lemma SndmoreJoins<T>(first: seq<T>, second: seq<T>)
    requires second != []
    ensures FramesOf(first, true) + FramesOf(second, false) == FramesOf(first + second, false)
  {
    var joined := FramesOf(first + second, false);
    forall i | 0 <= i < |first| + |second|
      ensures joined[i] == (FramesOf(first, true) + FramesOf(second, false))[i]
    {
      if i < |first| {
        assert i + 1 < |first + second|;
      }
    }
  }
}
