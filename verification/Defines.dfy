/** The records of the ship deck and the messages built from them (`defines.hpp`, `defines.cpp`).

    A message is a sequence of frames and a frame is a byte string; `string` stands for `std::string`. */
module Defines {
  import opened Framing
  import opened Words

  type Frames = seq<string>

  function Inc32(x: u32): u32 {
    (x + 1) % U32_RANGE
  }

  function Dec32(x: u32): u32 {
    (x - 1) % U32_RANGE
  }

  /** `online` starts out true, also in the record a map lookup of an unknown id inserts. */
  datatype ClientInfo = ClientInfo(id: string, serverId: string, cabin: string, username: string,
                                   password: string, online: bool)

  const DEFAULT_CLIENT := ClientInfo("", "", "", "", "", true)

  datatype CabinInfo = CabinInfo(id: string, title: string, description: string, playing: u32)

  const DEFAULT_CABIN := CabinInfo("", "", "", 0)

  // ----- std::to_string -----

  function Digit(n: nat): char
    requires n < 10
  {
    ('0' as int + n) as char
  }

  function Decimal(n: nat): (s: string)
    ensures s != []
  {
    if n < 10 then [Digit(n)] else Decimal(n / 10) + [Digit(n % 10)]
  }

  function ReadDecimal(s: string): int {
    if s == [] then 0 else 10 * ReadDecimal(s[..|s| - 1]) + (s[|s| - 1] as int - '0' as int)
  }

  /** A decimal numeral: one digit or more, and no zero in front of another digit. */
  predicate Numeral(s: string) {
    && s != ""
    && (forall i :: 0 <= i < |s| ==> '0' <= s[i] <= '9')
    && (s[0] == '0' ==> s == "0")
  }

  lemma {:induction false} DecimalRoundTrip(n: nat)
    ensures ReadDecimal(Decimal(n)) == n
    ensures Numeral(Decimal(n))
    ensures n > 0 ==> Decimal(n)[0] != '0'
  {
    var s := Decimal(n);
    if n < 10 {
      assert s[..|s| - 1] == [];
    } else {
      DecimalRoundTrip(n / 10);
      assert s[..|s| - 1] == Decimal(n / 10);
    }
  }

  lemma DecimalOfMore(n: nat, d: nat)
    requires n > 0 && d < 10
    ensures Decimal(10 * n + d) == Decimal(n) + [Digit(d)]
  {
    assert (10 * n + d) / 10 == n && (10 * n + d) % 10 == d;
  }

  lemma {:induction false} NumeralIsDecimal(s: string)
    requires Numeral(s)
    ensures ReadDecimal(s) >= 0 && Decimal(ReadDecimal(s)) == s
  {
    var n := |s| - 1;
    var d := s[n] as int - '0' as int;
    assert ReadDecimal(s) == 10 * ReadDecimal(s[..n]) + d && 0 <= d < 10 && Digit(d) == s[n];
    assert s == s[..n] + [s[n]];
    if n == 0 {
      assert ReadDecimal(s[..0]) == 0 && Decimal(d) == [Digit(d)];
    } else {
      assert Numeral(s[..n]) && s[..n][0] == s[0] != '0';
      assert Decimal(0) == "0";
      hide Decimal, ReadDecimal, Numeral;
      NumeralIsDecimal(s[..n]);
      DecimalOfMore(ReadDecimal(s[..n]), d);
    }
  }

  /** `Decimal(n)` is the one decimal numeral whose value is `n`. */
  lemma DecimalIsTheNumeral(n: nat, s: string)
    ensures s == Decimal(n) <==> Numeral(s) && ReadDecimal(s) == n
    ensures n < 10 ==> Decimal(n) == ["0123456789"[n]]
  {
    DecimalRoundTrip(n);
    if Numeral(s) {
      NumeralIsDecimal(s);
    }
    assert forall k :: 0 <= k < 10 ==> "0123456789"[k] as int == '0' as int + k;
  }

  // ----- Headers and reports -----

  function CrewHeader(serverId: string, clientId: string, sender: string, kind: string): Frames {
    [serverId, clientId, sender, kind]
  }

  const NAME_LABEL := "Cabin name: "

  const DESCRIPTION_LABEL := "Cabin description: "

  const PLAYING_LABEL := "Current playing: "

  function ZmqInfo(info: CabinInfo): (lines: Frames)
    ensures |lines| == 3
  {
    [NAME_LABEL + info.title, DESCRIPTION_LABEL + info.description, PLAYING_LABEL + Decimal(info.playing)]
  }

  /** The report on all cabins, in the order in which the map is iterated. */
  function Report(order: seq<string>, cabins: map<string, CabinInfo>): Frames
    requires forall i :: 0 <= i < |order| ==> order[i] in cabins
  {
    if order == [] then []
    else Report(order[..|order| - 1], cabins) + ZmqInfo(cabins[order[|order| - 1]])
  }

  /** What a reader of a report learns of one cabin. */
  datatype Listing = Listing(title: string, description: string, playing: int)

  function ListingOf(info: CabinInfo): Listing {
    Listing(info.title, info.description, info.playing)
  }

  /** Reads a report back, three frames at a time. */
  function ReadReport(frames: Frames): seq<Listing>
  {
    if |frames| < 3 then []
    else
      var n := |frames| - 3;
      if || |frames[n]| < |NAME_LABEL|
         || |frames[n + 1]| < |DESCRIPTION_LABEL|
         || |frames[n + 2]| < |PLAYING_LABEL| then []
      else
        ReadReport(frames[..n])
        + [Listing(frames[n][|NAME_LABEL|..], frames[n + 1][|DESCRIPTION_LABEL|..],
                   ReadDecimal(frames[n + 2][|PLAYING_LABEL|..]))]
  }

  lemma OneMoreListing(report: Frames, info: CabinInfo)
    ensures ReadReport(report + ZmqInfo(info)) == ReadReport(report) + [ListingOf(info)]
  {
    var frames, n := report + ZmqInfo(info), |report|;
    assert frames[..n] == report;
    assert frames[n] == ZmqInfo(info)[0] && frames[n + 1] == ZmqInfo(info)[1] && frames[n + 2] == ZmqInfo(info)[2];
    DecimalRoundTrip(info.playing);
  }

  function Listings(order: seq<string>, cabins: map<string, CabinInfo>): (listings: seq<Listing>)
    requires forall i :: 0 <= i < |order| ==> order[i] in cabins
    ensures |listings| == |order|
  {
    seq(|order|, i requires 0 <= i < |order| => ListingOf(cabins[order[i]]))
  }

  lemma ListingsOneMore(order: seq<string>, cabins: map<string, CabinInfo>)
    requires order != [] && forall i :: 0 <= i < |order| ==> order[i] in cabins
    ensures var n := |order| - 1;
            Listings(order, cabins) == Listings(order[..n], cabins) + [ListingOf(cabins[order[n]])]
  {
  }

  /** A report has three frames per cabin, and every title, description and count can be read back. */
  lemma {:induction false} ReportFidelity(order: seq<string>, cabins: map<string, CabinInfo>)
    requires forall i :: 0 <= i < |order| ==> order[i] in cabins
    ensures |Report(order, cabins)| == 3 * |order|
    ensures ReadReport(Report(order, cabins)) == Listings(order, cabins)
  {
    if order == [] {
    } else {
      var n := |order| - 1;
      ReportFidelity(order[..n], cabins);
      ListingsOneMore(order, cabins);
      OneMoreListing(Report(order[..n], cabins), cabins[order[n]]);
      assert Report(order, cabins) == Report(order[..n], cabins) + ZmqInfo(cabins[order[n]]);
      hide ReadReport, Listings, Report;
    }
  }

  /** An enumeration of a set, as the iteration over an unordered container yields it. */
  ghost predicate Enumerates<T(!new)>(order: seq<T>, s: set<T>) {
    && (forall i :: 0 <= i < |order| ==> order[i] in s)
    && (forall x :: x in s ==> x in order)
    && (forall i, j :: 0 <= i < j < |order| ==> order[i] != order[j])
  }

  lemma LastReported(order: seq<string>, cabins: map<string, CabinInfo>)
    requires order != [] && forall k :: 0 <= k < |order| ==> order[k] in cabins
    ensures var n := |order| - 1;
            Report(order, cabins) == Report(order[..n], cabins) + ZmqInfo(cabins[order[n]])
            && |Report(order[..n], cabins)| == 3 * n
  {
    ReportFidelity(order[..|order| - 1], cabins);
  }

  lemma {:induction false} ReportAt(order: seq<string>, cabins: map<string, CabinInfo>, i: nat)
    requires i < |order| && forall k :: 0 <= k < |order| ==> order[k] in cabins
    ensures |Report(order, cabins)| == 3 * |order|
    ensures Report(order, cabins)[3 * i..3 * i + 3] == ZmqInfo(cabins[order[i]])
  {
    var n := |order| - 1;
    var front, last := Report(order[..n], cabins), ZmqInfo(cabins[order[n]]);
    LastReported(order, cabins);
    hide Report, ZmqInfo;
    if i < n {
      ReportAt(order[..n], cabins, i);
      assert order[..n][i] == order[i];
      assert (front + last)[3 * i..3 * i + 3] == front[3 * i..3 * i + 3];
    } else {
      assert (front + last)[3 * n..3 * n + 3] == last;
    }
  }

  /** The lines of a report, at their places. */
  lemma ReportLines(order: seq<string>, cabins: map<string, CabinInfo>, i: nat)
    requires i < |order| && forall k :: 0 <= k < |order| ==> order[k] in cabins
    ensures |Report(order, cabins)| == 3 * |order|
    ensures Report(order, cabins)[3 * i] == "Cabin name: " + cabins[order[i]].title
    ensures Report(order, cabins)[3 * i + 1] == "Cabin description: " + cabins[order[i]].description
    ensures Report(order, cabins)[3 * i + 2] == "Current playing: " + Decimal(cabins[order[i]].playing)
  {
    ReportAt(order, cabins, i);
    var lines := Report(order, cabins)[3 * i..3 * i + 3];
    hide Report, Decimal;
    assert lines[0] == Report(order, cabins)[3 * i] && lines[1] == Report(order, cabins)[3 * i + 1]
        && lines[2] == Report(order, cabins)[3 * i + 2];
  }

  // ----- The same messages built step by step -----

  /** `crew_header_mp` */
  method CrewHeaderMp(serverId: string, clientId: string, sender: string, kind: string)
    returns (mp: Multipart<string>)
    ensures fresh(mp) && mp.parts == CrewHeader(serverId, clientId, sender, kind)
    ensures mp.parts == [serverId, clientId, sender, kind]
  {
    mp := new Multipart();
    mp.Add(serverId);
    mp.Add(clientId);
    mp.Add(sender);
    mp.Add(kind);
  }

  /** `cabin_info::zmq_info` */
  method ZmqInfoMp(info: CabinInfo) returns (mp: Multipart<string>)
    ensures fresh(mp) && mp.parts == ZmqInfo(info)
    ensures |mp.parts| == 3
    ensures mp.parts[0] == "Cabin name: " + info.title
    ensures mp.parts[1] == "Cabin description: " + info.description
    ensures mp.parts[2] == "Current playing: " + Decimal(info.playing)
  {
    mp := new Multipart();
    mp.Add(NAME_LABEL + info.title);
    mp.Add(DESCRIPTION_LABEL + info.description);
    mp.Add(PLAYING_LABEL + Decimal(info.playing));
  }
}
