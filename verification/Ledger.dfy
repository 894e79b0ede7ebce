/** The bookkeeping of broadcasts: the sequence of copies a cabin's broadcasts amount to, and which of them a
    client received. Facts about sequences only; module Invariant ties them to the running system. */
module Ledger {
  import opened Defines
  import opened Lobby
  import opened World

  /** One copy of the `index`-th text of a cabin, for one user. */
  datatype Copy = Copy(index: nat, sender: string, text: string, username: string)

  function CopiesOf(index: nat, b: Broadcast): (copies: seq<Copy>)
    ensures |copies| == |b.order|
  {
    seq(|b.order|, i requires 0 <= i < |b.order| => Copy(index, b.sender, b.text, b.order[i]))
  }

  /** All copies of a cabin's broadcasts, in the order in which the cabin sends them. */
  function Copies(bs: seq<Broadcast>): seq<Copy> {
    if bs == [] then [] else Copies(bs[..|bs| - 1]) + CopiesOf(|bs| - 1, bs[|bs| - 1])
  }

  function SendsOf(copies: seq<Copy>): (sends: seq<Frames>)
    ensures |sends| == |copies|
  {
    seq(|copies|, i requires 0 <= i < |copies| => SendMsg(copies[i].username, copies[i].sender, copies[i].text))
  }

  /** The broadcast addresses exactly the audience of the notice, each name once. */
  ghost predicate Answers(b: Broadcast, n: Notice) {
    b.sender == n.sender && b.text == n.text && Enumerates(b.order, n.audience)
  }

  /** The broadcast carries the text of the notice and visits nobody twice. */
  ghost predicate Carries(b: Broadcast, n: Notice) {
    b.sender == n.sender && b.text == n.text && Distinct(b.order)
  }

  ghost predicate AllCarry(bs: seq<Broadcast>, ns: seq<Notice>) {
    |bs| <= |ns| && forall k :: 0 <= k < |bs| ==> Carries(bs[k], ns[k])
  }

  ghost predicate AllAnswer(bs: seq<Broadcast>, ns: seq<Notice>) {
    |bs| <= |ns| && forall k :: 0 <= k < |bs| ==> Answers(bs[k], ns[k])
  }

  lemma CopiesOfOneMore(bs: seq<Broadcast>, b: Broadcast)
    ensures Copies(bs + [b]) == Copies(bs) + CopiesOf(|bs|, b)
  {
    assert (bs + [b])[..|bs|] == bs;
  }

  lemma SendsOfConcat(a: seq<Copy>, b: seq<Copy>)
    ensures SendsOf(a + b) == SendsOf(a) + SendsOf(b)
  {
  }

  lemma SendsOfCopies(index: nat, b: Broadcast)
    ensures SendsOf(CopiesOf(index, b)) == SendAll(b.order, b.sender, b.text)
  {
  }

  /** Every copy belongs to a broadcast and is addressed to a user it visited. */
  lemma {:induction false} CopyBelongs(bs: seq<Broadcast>, i: nat)
    requires i < |Copies(bs)|
    ensures var copy := Copies(bs)[i];
            && copy.index < |bs|
            && copy.sender == bs[copy.index].sender && copy.text == bs[copy.index].text
            && copy.username in bs[copy.index].order
  {
    var n := |bs| - 1;
    var before := Copies(bs[..n]);
    if i >= |before| {
    } else {
      CopyBelongs(bs[..n], i);
    }
  }

  lemma CopiesDiffer(index: nat, b: Broadcast)
    requires Distinct(b.order)
    ensures forall i, j :: 0 <= i < j < |b.order| ==> CopiesOf(index, b)[i].username != CopiesOf(index, b)[j].username
  {
  }

  /** Copies for one name come with increasing text numbers. */
  lemma {:induction false} CopiesIncrease(bs: seq<Broadcast>, i: nat, j: nat)
    requires forall k :: 0 <= k < |bs| ==> Distinct(bs[k].order)
    requires i < j < |Copies(bs)| && Copies(bs)[i].username == Copies(bs)[j].username
    ensures Copies(bs)[i].index < Copies(bs)[j].index
  {
    var n := |bs| - 1;
    var before := Copies(bs[..n]);
    CopiesDiffer(n, bs[n]);
    if j < |before| {
      CopiesIncrease(bs[..n], i, j);
    } else if i < |before| {
      CopyBelongs(bs[..n], i);
    }
  }

  ghost predicate Distinct<T(!new)>(s: seq<T>) {
    forall i, j :: 0 <= i < j < |s| ==> s[i] != s[j]
  }

  /** Every user a broadcast visits has a copy. */
  lemma {:induction false} CopyExists(bs: seq<Broadcast>, k: nat, username: string) returns (i: nat)
    requires k < |bs| && username in bs[k].order
    ensures i < |Copies(bs)| && Copies(bs)[i] == Copy(k, bs[k].sender, bs[k].text, username)
  {
    var n := |bs| - 1;
    var before := Copies(bs[..n]);
    if k < n {
      i := CopyExists(bs[..n], k, username);
    } else {
      var v :| 0 <= v < |bs[n].order| && bs[n].order[v] == username;
      i := |before| + v;
    }
  }

  // ----- Deliveries -----

  /** The numbers of the SENDs that were delivered to a client. */
  function DeliveredTo(settled: seq<Settled>, c: string): seq<nat> {
    if settled == [] then []
    else
      var n := |settled| - 1;
      DeliveredTo(settled[..n], c) + if settled[n].delivered && settled[n].client == c then [n] else []
  }

  /** The numbers of a cabin's SENDs among the messages the deck sent to a client. */
  function FromCabin(emitted: seq<Emission>, cab: string): seq<nat> {
    if emitted == [] then []
    else
      var e := emitted[|emitted| - 1];
      FromCabin(emitted[..|emitted| - 1], cab)
      + if e.origin.Some? && e.origin.value.cabin == cab then [e.origin.value.n] else []
  }

  lemma DeliveredToOneMore(settled: seq<Settled>, s: Settled, c: string)
    ensures DeliveredTo(settled + [s], c)
         == DeliveredTo(settled, c) + if s.delivered && s.client == c then [|settled|] else []
  {
    assert (settled + [s])[..|settled|] == settled;
  }

  lemma FromCabinOneMore(emitted: seq<Emission>, e: Emission, cab: string)
    ensures FromCabin(emitted + [e], cab)
         == FromCabin(emitted, cab)
            + if e.origin.Some? && e.origin.value.cabin == cab then [e.origin.value.n] else []
  {
    assert (emitted + [e])[..|emitted|] == emitted;
  }

  /** `ns` are positions of entries delivered to `c`, in strictly increasing order. */
  ghost predicate PositionsOf(ns: seq<nat>, settled: seq<Settled>, c: string) {
    && (forall i :: 0 <= i < |ns| ==> ns[i] < |settled| && settled[ns[i]].delivered && settled[ns[i]].client == c)
    && (forall i, j :: 0 <= i < j < |ns| ==> ns[i] < ns[j])
  }

  lemma {:induction false} DeliveredToIsSorted(settled: seq<Settled>, c: string)
    ensures PositionsOf(DeliveredTo(settled, c), settled, c)
  {
    if settled == [] {
    } else {
      var n := |settled| - 1;
      var before := DeliveredTo(settled[..n], c);
      DeliveredToIsSorted(settled[..n], c);
      PositionsOfFront(before, settled, c);
      assert before + [] == before;
    }
  }

  lemma PositionsOfFront(before: seq<nat>, settled: seq<Settled>, c: string)
    requires settled != []
    requires PositionsOf(before, settled[..|settled| - 1], c)
    ensures PositionsOf(before, settled, c)
    ensures var n := |settled| - 1;
            settled[n].delivered && settled[n].client == c ==> PositionsOf(before + [n], settled, c)
  {
    var n := |settled| - 1;
    forall i | 0 <= i < |before|
      ensures before[i] < n && settled[before[i]].delivered && settled[before[i]].client == c
    {
      assert settled[before[i]] == settled[..n][before[i]];
    }
  }

  lemma {:induction false} DeliveredToIsComplete(settled: seq<Settled>, c: string, n: nat)
    requires n < |settled| && settled[n].delivered && settled[n].client == c
    ensures n in DeliveredTo(settled, c)
  {
    if n == |settled| - 1 {
    } else {
      DeliveredToIsComplete(settled[..|settled| - 1], c, n);
    }
  }
}
