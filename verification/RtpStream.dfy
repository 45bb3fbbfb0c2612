/** The RTP example of contrib/apps/rtp/rtp.c: an image cut into packets (section 5.1 of
    RFC 3550), sent again and again, and the loss counter of the receiver. */
module RtpStream {
  import opened Lwip

  const PACKET_SIZE := 1500
  const PAYLOAD_SIZE := 1024
  const HEADER_SIZE := 12
  const VERSION: byte := 0x80
  const TIMESTAMP_INCREMENT := 3600
  const PAYLOAD_TYPE: byte := 96
  const MARKER_MASK: byte := 0x80

  type u32 = x: int | 0 <= x < 0x1_0000_0000

  function Htons(x: u16): (r: seq<byte>)
    ensures |r| == 2
  {
    [x / 256, x % 256]
  }

  function Htonl(x: u32): (r: seq<byte>)
    ensures |r| == 4
  {
    [x / 0x100_0000, x / 0x1_0000 % 256, x / 256 % 256, x % 256]
  }

  function Ntohs(s: seq<byte>): u16
    requires |s| == 2
  {
    s[0] as int * 256 + s[1]
  }

  function Ntohl(s: seq<byte>): u32
    requires |s| == 4
  {
    s[0] as int * 0x100_0000 + s[1] as int * 0x1_0000 + s[2] as int * 256 + s[3]
  }

  lemma {:induction false} ByteOrders(x: u16, y: u32)
    ensures Ntohs(Htons(x)) == x && Ntohl(Htonl(y)) == y
  {
    FourBytes(y);
  }

  lemma {:induction false} FourBytes(y: u32)
    ensures y / 0x100_0000 * 0x100_0000 + y / 0x1_0000 % 256 * 0x1_0000 + y / 256 % 256 * 256 + y % 256 == y
  {
    var a, b := y / 256, y / 0x1_0000;
    assert y == a * 256 + y % 256;
    assert b == a / 256 && a == b * 256 + a % 256;
    assert y / 0x100_0000 == b / 256 && b == b / 256 * 256 + b % 256;
  }

  /** The number whose bytes, most significant first, are given. */
  function BigEndian(s: seq<byte>): nat {
    if s == [] then 0 else BigEndian(s[..|s| - 1]) * 256 + s[|s| - 1]
  }

  lemma {:induction false} BigEndianTwo(s: seq<byte>)
    requires |s| == 2
    ensures BigEndian(s) == Ntohs(s)
  {
    assert s[..1][..0] == [];
    assert BigEndian(s[..1]) == BigEndian(s[..1][..0]) * 256 + s[0];
  }

  lemma {:induction false} BigEndianFour(s: seq<byte>)
    requires |s| == 4
    ensures BigEndian(s) == Ntohl(s)
  {
    var t := s[..2];
    BigEndianTwo(t);
    assert s[..3][..2] == t;
    assert BigEndian(s[..3]) == BigEndian(t) * 256 + s[2];
  }

  lemma {:induction false} BytesOf(s: seq<byte>)
    requires |s| == 2
    ensures Htons(Ntohs(s)) == s
  {
  }

  // ------------------------------------------------------------------ packets

  datatype Fields = Fields(marker: bool, seqNum: u16, timestamp: u32, payload: seq<byte>)

  function Datagram(f: Fields): seq<byte> {
    [VERSION, if f.marker then PAYLOAD_TYPE + MARKER_MASK else PAYLOAD_TYPE]
    + Htons(f.seqNum) + Htonl(f.timestamp) + [0, 0, 0, 0] + f.payload
  }

  /** What a receiver reads from a datagram. */
  function Decode(d: seq<byte>): Fields
    requires |d| >= HEADER_SIZE
  {
    Fields(d[1] >= MARKER_MASK, Ntohs(d[2..4]), Ntohl(d[4..8]), d[12..])
  }

  /** The fields come back, and the other bytes of the header are those of section 5.1 of RFC
      3550: version 2 without padding, extension or sources, payload type 96, and source 0. */
  lemma {:induction false} DecodeDatagram(f: Fields)
    ensures |Datagram(f)| == HEADER_SIZE + |f.payload| && Decode(Datagram(f)) == f
    ensures Datagram(f)[0] == 2 * 64 && Datagram(f)[1] % 128 == 96 && Datagram(f)[8..12] == [0, 0, 0, 0]
    ensures var d := Datagram(f);
            && f.seqNum == BigEndian(d[2..4]) && f.timestamp == BigEndian(d[4..8])
            && (f.marker <==> d[1] / 128 == 1)
  {
    var d := Datagram(f);
    assert d[2..4] == Htons(f.seqNum) && d[4..8] == Htonl(f.timestamp) && d[12..] == f.payload;
    assert d[8..12] == [0, 0, 0, 0];
    ByteOrders(f.seqNum, f.timestamp);
    BigEndianTwo(d[2..4]);
    BigEndianFour(d[4..8]);
  }

  /** The packets of one image from `index` on. */
  function Image(data: seq<byte>, index: nat, seqNum: u16, timestamp: u32): seq<Fields>
    decreases |data| - index
  {
    if index >= |data| then []
    else
      var size := Min(PAYLOAD_SIZE, |data| - index);
      [Fields(index + size >= |data|, seqNum, timestamp, data[index..index + size])]
      + Image(data, index + size, (seqNum + 1) % 0x1_0000, timestamp)
  }

  function Payloads(fs: seq<Fields>): seq<seq<byte>> { seq(|fs|, i requires 0 <= i < |fs| => fs[i].payload) }

  lemma {:induction false} Wrap(a: nat, b: nat)
    ensures (a % 0x1_0000 + b) % 0x1_0000 == (a + b) % 0x1_0000
  {
  }

  /** The packets of an image carry its data in order. */
  lemma {:induction false} ImageCarries(data: seq<byte>, index: nat, seqNum: u16, timestamp: u32)
    requires index <= |data|
    ensures Flatten(Payloads(Image(data, index, seqNum, timestamp))) == data[index..]
    decreases |data| - index
  {
    if index < |data| {
      var size := Min(PAYLOAD_SIZE, |data| - index);
      var next: u16 := (seqNum + 1) % 0x1_0000;
      ImageCarries(data, index + size, next, timestamp);
      var fs := Image(data, index, seqNum, timestamp);
      assert fs[1..] == Image(data, index + size, next, timestamp);
      assert Payloads(fs)[0] == fs[0].payload && Payloads(fs)[1..] == Payloads(fs[1..]);
      assert data[index..] == data[index..index + size] + data[index + size..];
    }
  }

  /** They carry 1024 bytes each, the last one what is left; only the last one has the marker, and
      they have one timestamp and consecutive sequence numbers. */
  lemma {:induction false} ImageFields(data: seq<byte>, index: nat, seqNum: u16, timestamp: u32, i: nat)
    requires i < |Image(data, index, seqNum, timestamp)|
    ensures var fs := Image(data, index, seqNum, timestamp);
            && fs[i].timestamp == timestamp && fs[i].seqNum == (seqNum + i) % 0x1_0000
            && 0 < |fs[i].payload| <= 1024 && (i < |fs| - 1 ==> |fs[i].payload| == 1024)
            && (fs[i].marker <==> i == |fs| - 1)
    decreases i
  {
    var size := Min(PAYLOAD_SIZE, |data| - index);
    var next: u16 := (seqNum + 1) % 0x1_0000;
    var rest := Image(data, index + size, next, timestamp);
    if i > 0 {
      ImageFields(data, index + size, next, timestamp, i - 1);
      assert Image(data, index, seqNum, timestamp)[i] == rest[i - 1];
      Wrap(seqNum + 1, i - 1);
    }
  }

  // ------------------------------------------------------------------ any number of images

  /** The packets of the first `k` images; the thread starts with a zeroed packet. */
  function Stream(data: seq<byte>, k: nat): seq<Fields> {
    if k == 0 then []
    else
      var before := Stream(data, k - 1);
      before + Image(data, 0, |before| % 0x1_0000, k * TIMESTAMP_INCREMENT % 0x1_0000_0000)
  }

  /** Sequence numbers go on across images, modulo 2^16. */
  lemma {:induction false} StreamNumbers(data: seq<byte>, k: nat, i: nat)
    requires i < |Stream(data, k)|
    ensures Stream(data, k)[i].seqNum == i % 0x1_0000
  {
    var before := Stream(data, k - 1);
    if i < |before| {
      StreamNumbers(data, k - 1, i);
    } else {
      ImageFields(data, 0, |before| % 0x1_0000, k * TIMESTAMP_INCREMENT % 0x1_0000_0000, i - |before|);
      Wrap(|before|, i - |before|);
    }
  }

  /** The `k`-th image is in the stream as a whole: its payloads make up the data, only its last
      packet has the marker, and every packet has timestamp 3600 k modulo 2^32. */
  lemma {:induction false} StreamImage(data: seq<byte>, k: nat)
    requires k > 0
    ensures |Stream(data, k - 1)| <= |Stream(data, k)|
    ensures var fs := Stream(data, k)[|Stream(data, k - 1)|..];
            && Flatten(Payloads(fs)) == data
            && (forall i | 0 <= i < |fs| :: fs[i].timestamp == 3600 * k % 0x1_0000_0000)
            && (forall i | 0 <= i < |fs| :: fs[i].marker <==> i == |fs| - 1)
  {
    var before := Stream(data, k - 1);
    var num: u16 := |before| % 0x1_0000;
    var ts: u32 := k * TIMESTAMP_INCREMENT % 0x1_0000_0000;
    var fs := Image(data, 0, num, ts);
    assert Stream(data, k)[|before|..] == fs;
    ImageCarries(data, 0, num, ts);
    assert data[0..] == data;
    forall i | 0 <= i < |fs| ensures fs[i].timestamp == ts && (fs[i].marker <==> i == |fs| - 1) {
      ImageFields(data, 0, num, ts, i);
    }
  }

  // ------------------------------------------------------------------ the sender

  /** Which calls of `lwip_sendto` succeed; from call `quiet` on all do. */
  ghost predicate FinallyQuiet(outcome: nat -> bool, quiet: nat) { forall i | i >= quiet :: outcome(i) }

  function Datagrams(fs: seq<Fields>): seq<seq<byte>> { seq(|fs|, i requires 0 <= i < |fs| => Datagram(fs[i])) }

  class Sender {
    const packet: array<byte>
    /** How often `lwip_sendto` was called. */
    var calls: nat
    /** The datagrams that were sent successfully. */
    ghost var sent: seq<seq<byte>>

    constructor ()
      ensures fresh(packet) && packet.Length == PACKET_SIZE && SeqNum() == 0 && Timestamp() == 0 && sent == []
    {
      packet := new byte[PACKET_SIZE](_ => 0);
      calls, sent := 0, [];
    }

    function SeqNum(): u16
      requires packet.Length == PACKET_SIZE
      reads this, packet
    {
      Ntohs(packet[2..4])
    }

    function Timestamp(): u32
      requires packet.Length == PACKET_SIZE
      reads this, packet
    {
      Ntohl(packet[4..8])
    }

    /** The header fields that stay while the packets of an image are sent. */
    ghost predicate Prepared(timestamp: u32)
      requires packet.Length == PACKET_SIZE
      reads this, packet
    {
      packet[0] == VERSION && packet[4..8] == Htonl(timestamp) && packet[8..12] == [0, 0, 0, 0]
    }

    method StoreSeqNum(x: u16)
      requires packet.Length == PACKET_SIZE
      modifies packet
      ensures packet[2..4] == Htons(x) && SeqNum() == x
      ensures packet[..2] == old(packet[..2]) && packet[4..] == old(packet[4..])
    {
      packet[2], packet[3] := x / 256, x % 256;
      ByteOrders(x, 0);
      assert packet[2..4] == Htons(x);
    }

    method Prepare() returns (timestamp: u32)
      requires packet.Length == PACKET_SIZE
      modifies packet
      ensures timestamp == (old(Timestamp()) + TIMESTAMP_INCREMENT) % 0x1_0000_0000
      ensures Prepared(timestamp) && SeqNum() == old(SeqNum())
    {
      timestamp := (Timestamp() + TIMESTAMP_INCREMENT) % 0x1_0000_0000;
      packet[0] := VERSION;
      packet[1] := 0;
      packet[8], packet[9], packet[10], packet[11] := 0, 0, 0, 0;
      var ts := Htonl(timestamp);
      packet[4], packet[5], packet[6], packet[7] := ts[0], ts[1], ts[2], ts[3];
      assert packet[2..4] == old(packet[2..4]);
    }

    /** Fills in one packet. */
    method Fill(marker: bool, payload: seq<byte>, ghost seqNum: u16, ghost timestamp: u32)
      requires packet.Length == PACKET_SIZE && |payload| <= PAYLOAD_SIZE
      requires Prepared(timestamp) && packet[2..4] == Htons(seqNum)
      modifies packet
      ensures Prepared(timestamp) && packet[2..4] == Htons(seqNum)
      ensures packet[..HEADER_SIZE + |payload|] == Datagram(Fields(marker, seqNum, timestamp, payload))
    {
      forall i | HEADER_SIZE <= i < HEADER_SIZE + |payload| {
        packet[i] := payload[i - HEADER_SIZE];
      }
      packet[1] := if marker then PAYLOAD_TYPE + MARKER_MASK else PAYLOAD_TYPE;
      assert packet[2..4] == old(packet[2..4]) && packet[4..8] == old(packet[4..8]);
      assert packet[8..12] == old(packet[8..12]);
      assert packet[..12] == [packet[0], packet[1]] + packet[2..4] + packet[4..8] + packet[8..12];
      assert packet[..12 + |payload|] == packet[..12] + packet[12..12 + |payload|];
      assert packet[12..12 + |payload|] == payload;
    }

    /** Sends one packet; only success moves the sequence number on. */
    method SendOne(marker: bool, payload: seq<byte>, outcome: nat -> bool, ghost seqNum: u16, ghost timestamp: u32)
        returns (ok: bool)
      requires packet.Length == PACKET_SIZE && |payload| <= PAYLOAD_SIZE
      requires Prepared(timestamp) && packet[2..4] == Htons(seqNum)
      modifies this, packet
      ensures ok == outcome(old(calls)) && calls == old(calls) + 1 && Prepared(timestamp)
      ensures ok ==> sent == old(sent) + [Datagram(Fields(marker, seqNum, timestamp, payload))]
      ensures ok ==> packet[2..4] == Htons((seqNum + 1) % 0x1_0000)
      ensures !ok ==> sent == old(sent) && packet[2..4] == Htons(seqNum)
    {
      Fill(marker, payload, seqNum, timestamp);
      ok := outcome(calls);
      calls := calls + 1;
      if ok {
        sent := sent + [packet[..HEADER_SIZE + |payload|]];
        ByteOrders(seqNum, timestamp);
        ghost var others := packet[4..];
        ghost var version := packet[..2][0];
        StoreSeqNum((SeqNum() + 1) % 0x1_0000);
        assert packet[4..8] == others[..4] && packet[8..12] == others[4..8] && packet[..2][0] == version;
      }
    }

    /** `rtp_send_packets`: whatever sends fail, as long as they do not fail forever, what went
        out are exactly the packets of one image, numbered on from the last image. */
    method SendPackets(data: seq<byte>, outcome: nat -> bool, ghost quiet: nat)
      requires packet.Length == PACKET_SIZE && data != [] && FinallyQuiet(outcome, quiet)
      modifies this, packet
      ensures Timestamp() == (old(Timestamp()) + TIMESTAMP_INCREMENT) % 0x1_0000_0000
      ensures sent == old(sent) + Datagrams(Image(data, 0, old(SeqNum()), Timestamp()))
      ensures SeqNum() == (old(SeqNum()) + |Image(data, 0, old(SeqNum()), Timestamp())|) % 0x1_0000
    {
      var ts := Prepare();
      BytesOf(packet[2..4]);
      ByteOrders(SeqNum(), ts);
      SendAll(data, outcome, quiet, SeqNum(), ts);
      ByteOrders((old(SeqNum()) + |Image(data, 0, old(SeqNum()), ts)|) % 0x1_0000, ts);
    }

    /** The loop over the pieces of the image. */
    method SendAll(data: seq<byte>, outcome: nat -> bool, ghost quiet: nat, ghost first: u16, ghost ts: u32)
      requires packet.Length == PACKET_SIZE && data != [] && FinallyQuiet(outcome, quiet)
      requires Prepared(ts) && packet[2..4] == Htons(first)
      modifies this, packet
      ensures Prepared(ts) && sent == old(sent) + Datagrams(Image(data, 0, first, ts))
      ensures packet[2..4] == Htons((first + |Image(data, 0, first, ts)|) % 0x1_0000)
    {
      ghost var all := sent + Datagrams(Image(data, 0, first, ts));
      ghost var num: u16, n := first, 0;
      var index := 0;
      while index < |data|
        invariant Prepared(ts) && packet[2..4] == Htons(num)
        invariant SoFar(data, first, ts, all, sent, index, num, n)
        decreases |data| - index, if calls < quiet then quiet - calls else 0
      {
        var size := Min(PAYLOAD_SIZE, |data| - index);
        ghost var before := sent;
        var ok := SendOne(index + size >= |data|, data[index..index + size], outcome, num, ts);
        if ok {
          NextPiece(data, first, ts, all, before, index, num, n);
          num, n := (num + 1) % 0x1_0000, n + 1;
          index := index + size;
        }
      }
    }

    /** The endless loop of `rtp_send_thread`, stopped after `k` images: the datagrams are those
        of the stream. */
    method SendImages(data: seq<byte>, k: nat, outcome: nat -> bool, ghost quiet: nat)
      requires packet.Length == PACKET_SIZE && data != [] && FinallyQuiet(outcome, quiet)
      requires sent == [] && SeqNum() == 0 && Timestamp() == 0
      modifies this, packet
      ensures sent == Datagrams(Stream(data, k))
    {
      var i := 0;
      while i < k
        invariant i <= k && sent == Datagrams(Stream(data, i))
        invariant SeqNum() == |Stream(data, i)| % 0x1_0000 && Timestamp() == i * TIMESTAMP_INCREMENT % 0x1_0000_0000
      {
        ghost var before := Stream(data, i);
        SendPackets(data, outcome, quiet);
        i := i + 1;
        Timestamps(i);
        DatagramsAppend(before, Image(data, 0, |before| % 0x1_0000, Timestamp()));
        Wrap(|before|, |Stream(data, i)| - |before|);
      }
    }
  }

  lemma {:induction false} Timestamps(k: nat)
    requires k > 0
    ensures ((k - 1) * TIMESTAMP_INCREMENT % 0x1_0000_0000 + TIMESTAMP_INCREMENT) % 0x1_0000_0000
         == k * TIMESTAMP_INCREMENT % 0x1_0000_0000
  {
  }

  lemma {:induction false} DatagramsAppend(a: seq<Fields>, b: seq<Fields>)
    ensures Datagrams(a + b) == Datagrams(a) + Datagrams(b)
  {
  }

  /** After `n` packets, the next one being number `num` and starting at `index`: what was sent
      and what is left make up the image. */
  ghost predicate SoFar(data: seq<byte>, first: u16, ts: u32, all: seq<seq<byte>>, sent: seq<seq<byte>>,
      index: nat, num: u16, n: nat)
  {
    && index <= |data| && num == (first + n) % 0x1_0000
    && sent + Datagrams(Image(data, index, num, ts)) == all
    && n + |Image(data, index, num, ts)| == |Image(data, 0, first, ts)|
  }

  lemma {:induction false} NextPiece(data: seq<byte>, first: u16, ts: u32, all: seq<seq<byte>>,
      sent: seq<seq<byte>>, index: nat, num: u16, n: nat)
    requires SoFar(data, first, ts, all, sent, index, num, n) && index < |data|
    ensures var size := Min(PAYLOAD_SIZE, |data| - index);
            var f := Fields(index + size >= |data|, num, ts, data[index..index + size]);
            SoFar(data, first, ts, all, sent + [Datagram(f)], index + size, (num + 1) % 0x1_0000, n + 1)
  {
    var size := Min(PAYLOAD_SIZE, |data| - index);
    var next: u16 := (num + 1) % 0x1_0000;
    var f := Fields(index + size >= |data|, num, ts, data[index..index + size]);
    var rest := Image(data, index + size, next, ts);
    assert Image(data, index, num, ts) == [f] + rest;
    DatagramsAppend([f], rest);
    assert sent + (Datagrams([f]) + Datagrams(rest)) == (sent + [Datagram(f)]) + Datagrams(rest);
    Wrap(first + n, 1);
  }

  // ------------------------------------------------------------------ the receiver

  /** What the receiver counts as lost in a list of sequence numbers, after number `last`. The
      sum `last + 1` is an `int`: it does not wrap at 65536. */
  function Lost(nums: seq<u16>, last: u16): nat
    decreases |nums|
  {
    if nums == [] then 0
    else (if last == 0 || last + 1 == nums[0] then 0 else 1) + Lost(nums[1..], nums[0])
  }

  /** `rtp_recv_thread` */
  method CountLost(nums: seq<u16>) returns (lost: nat)
    ensures lost == Lost(nums, 0)
  {
    lost := 0;
    var last: u16 := 0;
    var i := 0;
    while i < |nums|
      invariant i <= |nums| && Lost(nums, 0) == lost + Lost(nums[i..], last)
    {
      if last == 0 || last + 1 == nums[i] {
      } else {
        lost := lost + 1;
      }
      last := nums[i];
      assert nums[i..][1..] == nums[i + 1..];
      i := i + 1;
    }
  }

  /** Packet `i` does not continue the one before, and that was not number 0. */
  predicate Gap(nums: seq<u16>, i: nat)
    requires 0 < i < |nums|
  {
    nums[i - 1] != 0 && nums[i] as int != nums[i - 1] as int + 1
  }

  function Gaps(nums: seq<u16>, from: nat): set<nat>
    requires from > 0
  {
    set i | from <= i < |nums| && Gap(nums, i)
  }

  lemma {:induction false} LostFromGap(nums: seq<u16>, k: nat)
    requires 0 < k <= |nums|
    ensures Lost(nums[k..], nums[k - 1]) == |Gaps(nums, k)|
    decreases |nums| - k
  {
    if k == |nums| {
      assert Gaps(nums, k) == {};
    } else {
      LostFromGap(nums, k + 1);
      assert nums[k..][1..] == nums[k + 1..] && nums[k..][0] == nums[k];
      if Gap(nums, k) {
        assert Gaps(nums, k) == Gaps(nums, k + 1) + {k};
      } else {
        assert Gaps(nums, k) == Gaps(nums, k + 1);
      }
    }
  }

  /** Whatever arrives, the receiver counts the places where the numbers do not go on, each of
      them once, however many packets are missing there; it is blind after number 0. */
  lemma {:induction false} LostAreGaps(nums: seq<u16>)
    ensures Lost(nums, 0) == |Gaps(nums, 1)|
    ensures Lost(nums, 0) == 0 <==> forall i | 0 < i < |nums| :: !Gap(nums, i)
  {
    if nums == [] {
      assert Gaps(nums, 1) == {};
    } else {
      LostFromGap(nums, 1);
    }
    if Gaps(nums, 1) == {} {
      forall i | 0 < i < |nums| ensures !Gap(nums, i) {
        assert i !in Gaps(nums, 1);
      }
    } else {
      var i :| i in Gaps(nums, 1);
      assert Gap(nums, i);
    }
  }

  /** The sequence numbers of a stream that arrives completely and in order. */
  function Lossless(from: nat, n: nat): seq<u16> { seq(n, i requires 0 <= i < n => (from + i) % 0x1_0000) }

  lemma {:induction false} LostFrom(from: nat, n: nat)
    requires from > 0
    ensures Lost(Lossless(from, n), (from - 1) % 0x1_0000) == (from + n - 1) / 0x1_0000 - (from - 1) / 0x1_0000
    decreases n
  {
    if n > 0 {
      LostFrom(from + 1, n - 1);
      var nums := Lossless(from, n);
      assert nums[1..] == Lossless(from + 1, n - 1);
      assert from / 0x1_0000 == (from - 1) / 0x1_0000 + if from % 0x1_0000 == 0 then 1 else 0;
    }
  }

  /** A complete stream of `n` packets is reported without loss if and only if it is at most
      65536 packets long: each wrap of the sequence number counts as one lost packet. */
  lemma {:induction false} LosslessCount(n: nat)
    ensures Lost(Lossless(0, n), 0) == if n == 0 then 0 else (n - 1) / 0x1_0000
    ensures Lost(Lossless(0, n), 0) == 0 <==> n <= 0x1_0000
  {
    if n > 0 {
      LostFrom(1, n - 1);
      assert Lossless(0, n)[1..] == Lossless(1, n - 1);
    }
  }

  function Numbers(fs: seq<Fields>): seq<u16> { seq(|fs|, i requires 0 <= i < |fs| => fs[i].seqNum) }

  /** From one end to the other: a receiver that gets every packet of `k` images reports one
      loss for every 65536 packets after the first. */
  lemma {:induction false} LosslessStream(data: seq<byte>, k: nat)
    ensures var n := |Stream(data, k)|;
            Lost(Numbers(Stream(data, k)), 0) == if n == 0 then 0 else (n - 1) / 0x1_0000
  {
    var fs := Stream(data, k);
    forall i | 0 <= i < |fs| ensures fs[i].seqNum == i % 0x1_0000 {
      StreamNumbers(data, k, i);
    }
    assert Numbers(fs) == Lossless(0, |fs|);
    LosslessCount(|fs|);
  }
}
