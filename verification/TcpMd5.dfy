/** The TCP MD5 signature option of contrib/addons/tcp_md5/tcp_md5.c (RFC 2385): the option
    parser and writer, the digest of a segment as computed on output and on input, and the key
    list of a connection. */
module TcpMd5 {
  import opened Lwip

  const EOL: byte := 0
  const NOP: byte := 1
  const MD5: byte := 19
  const MD5_LEN: byte := 18

  type Digest = d: seq<byte> | |d| == 16 witness seq(16, _ => 0)

  // ------------------------------------------------------------------ parsing options

  /** The digest of the first signature option of `opts` that is reached. */
  function Parse(opts: seq<byte>): Option<Digest>
    decreases |opts|
  {
    if opts == [] || opts[0] == EOL then None
    else if opts[0] == NOP then Parse(opts[1..])
    else if |opts| == 1 then None
    else if opts[0] == MD5 then
      if opts[1] != MD5_LEN || |opts| < 18 then None else Some(opts[2..18])
    else if opts[1] < 2 || opts[1] > |opts| then None
    else Parse(opts[opts[1]..])
  }

  /** `tcp_md5_parseopt`. The length byte is read before it is known to be inside the options,
      so the buffer holds one more byte than `optlen`; that byte never matters. */
  method ParseOpt(opts: seq<byte>, optlen: nat) returns (found: bool, digest: Digest)
    requires optlen < |opts|
    ensures found <==> Parse(opts[..optlen]).Some?
    ensures found ==> digest == Parse(opts[..optlen]).value
  {
    digest := seq(16, _ => 0);
    var optidx := 0;
    while optidx < optlen
      invariant Parse(opts[..optlen]) == if optidx <= optlen then Parse(opts[optidx..optlen]) else None
      decreases optlen - optidx
    {
      ghost var s := opts[optidx..optlen];
      var opt := opts[optidx];
      optidx := optidx + 1;
      if opt == EOL {
        return false, digest;
      } else if opt == NOP {
        assert s[1..] == opts[optidx..optlen];
      } else if opt == MD5 {
        var data := opts[optidx];
        optidx := optidx + 1;
        if data != MD5_LEN || optidx - 2 + 18 > optlen {
          return false, digest;
        }
        assert s[2..18] == opts[optidx..optidx + 16];
        return true, opts[optidx..optidx + 16];
      } else {
        var data := opts[optidx];
        optidx := optidx + 1;
        if data < 2 {
          return false, digest;
        }
        optidx := optidx + data - 2;
        assert optidx <= optlen ==> s[data..] == opts[optidx..optlen];
      }
    }
    return false, digest;
  }

  /** An option the parser steps over. */
  datatype Skipped = Nop | Other(kind: byte, body: seq<byte>)

  predicate WellFormed(o: Skipped) {
    o.Other? ==> o.kind != EOL && o.kind != NOP && o.kind != MD5 && |o.body| <= 253
  }

  function Bytes(o: Skipped): (b: seq<byte>)
    requires WellFormed(o)
    ensures |b| > 0
  {
    match o
    case Nop => [NOP]
    case Other(kind, body) => [kind, (|body| + 2) as byte] + body
  }

  predicate AllWellFormed(os: seq<Skipped>) { forall i | 0 <= i < |os| :: WellFormed(os[i]) }

  function Encode(os: seq<Skipped>): seq<byte>
    requires AllWellFormed(os)
  {
    if os == [] then [] else Bytes(os[0]) + Encode(os[1..])
  }

  function SignatureOption(digest: Digest): seq<byte> { [MD5, MD5_LEN] + digest }

  /** What the parser looks for, in terms of whole options only. */
  ghost predicate Signed(opts: seq<byte>, digest: Digest, os: seq<Skipped>, rest: seq<byte>) {
    AllWellFormed(os) && opts == Encode(os) + (SignatureOption(digest) + rest)
  }

  lemma {:induction false} ParseHere(digest: Digest, rest: seq<byte>)
    ensures Parse(SignatureOption(digest) + rest) == Some(digest)
  {
    var opts := SignatureOption(digest) + rest;
    assert opts[2..18] == digest;
  }

  lemma {:induction false} StepOver(o: Skipped, opts: seq<byte>)
    requires WellFormed(o)
    ensures Parse(Bytes(o) + opts) == Parse(opts)
  {
    var all := Bytes(o) + opts;
    assert all[|Bytes(o)|..] == opts;
    assert all[0] == Bytes(o)[0];
    if o.Other? {
      assert all[1] == Bytes(o)[1];
    }
  }

  lemma {:induction false} StepOverAll(os: seq<Skipped>, opts: seq<byte>)
    requires AllWellFormed(os)
    ensures Parse(Encode(os) + opts) == Parse(opts)
    decreases |os|
  {
    if os == [] {
      assert Encode(os) + opts == opts;
    } else {
      assert Encode(os) + opts == Bytes(os[0]) + (Encode(os[1..]) + opts);
      StepOver(os[0], Encode(os[1..]) + opts);
      StepOverAll(os[1..], opts);
    }
  }

  /** Parsing went on past the first option: it was a whole one. */
  lemma {:induction false} FirstOption(opts: seq<byte>) returns (o: Skipped, tail: seq<byte>)
    requires Parse(opts).Some? && opts[0] != MD5
    ensures WellFormed(o) && opts == Bytes(o) + tail && Parse(opts) == Parse(tail)
  {
    o := if opts[0] == NOP then Nop else Other(opts[0], opts[2..opts[1]]);
    tail := opts[|Bytes(o)|..];
  }

  lemma {:induction false} SplitSignature(opts: seq<byte>, digest: Digest)
    requires |opts| >= 18 && opts[0] == MD5 && opts[1] == MD5_LEN && digest == opts[2..18]
    ensures opts == SignatureOption(digest) + opts[18..]
  {
    var r := SignatureOption(digest) + opts[18..];
    assert |r| == |opts|;
    forall i | 0 <= i < |opts| ensures r[i] == opts[i] {
      if 2 <= i < 18 {
        assert r[i] == digest[i - 2];
      }
    }
  }

  lemma {:induction false} EncodeMore(o: Skipped, os: seq<Skipped>, after: seq<byte>)
    requires WellFormed(o) && AllWellFormed(os)
    ensures Encode([o] + os) + after == Bytes(o) + (Encode(os) + after)
  {
    assert ([o] + os)[1..] == os;
  }

  lemma {:induction false} ParseSound(opts: seq<byte>) returns (os: seq<Skipped>, rest: seq<byte>)
    requires Parse(opts).Some?
    ensures Signed(opts, Parse(opts).value, os, rest)
    decreases |opts|
  {
    if opts[0] == MD5 {
      os, rest := [], opts[18..];
      SplitSignature(opts, Parse(opts).value);
      assert Encode([]) + opts == opts;
    } else {
      var o, tail := FirstOption(opts);
      var os', rest' := ParseSound(tail);
      os, rest := [o] + os', rest';
      EncodeMore(o, os', SignatureOption(Parse(opts).value) + rest);
    }
  }

  /** The parser succeeds with a digest if and only if a complete signature option is reached by
      stepping over whole options. */
  lemma {:induction false} ParseIff(opts: seq<byte>, digest: Digest)
    ensures Parse(opts) == Some(digest) <==> exists os, rest :: Signed(opts, digest, os, rest)
  {
    if Parse(opts) == Some(digest) {
      var os, rest := ParseSound(opts);
    }
    if os, rest :| Signed(opts, digest, os, rest) {
      StepOverAll(os, SignatureOption(digest) + rest);
      ParseHere(digest, rest);
    }
  }

  // ------------------------------------------------------------------ the header in memory

  /** Two and four bytes as they lie in memory. */
  datatype Half = Half(a: byte, b: byte)
  datatype Word = Word(a: byte, b: byte, c: byte, d: byte)

  datatype Header = Header(
    src: Half, dest: Half, seqno: Word, ackno: Word, flags: Half, wnd: Half, chksum: Half, urgp: Half)

  /** `lwip_htons` and `lwip_htonl` on a machine of either byte order. */
  function Htons(little: bool, h: Half): Half { if little then Half(h.b, h.a) else h }

  function Htonl(little: bool, w: Word): Word { if little then Word(w.d, w.c, w.b, w.a) else w }

  /** The number a machine reads from two bytes. */
  function HostValue(little: bool, h: Half): u16 { if little then h.a + 256 * h.b else 256 * h.a + h.b }

  function Raw(h: Header): seq<byte> {
    [h.src.a, h.src.b, h.dest.a, h.dest.b,
     h.seqno.a, h.seqno.b, h.seqno.c, h.seqno.d, h.ackno.a, h.ackno.b, h.ackno.c, h.ackno.d,
     h.flags.a, h.flags.b, h.wnd.a, h.wnd.b, h.chksum.a, h.chksum.b, h.urgp.a, h.urgp.b]
  }

  /** TCPH_HDRLEN_BYTES of a header whose flags are in network order. */
  function HeaderBytes(h: Header): nat { h.flags.a / 16 * 4 }

  /** `tcp_md5_dup_tcphdr` */
  function DupHeader(little: bool, h: Header, hostOrder: bool): Header {
    var copy := h.(chksum := Half(0, 0));
    if hostOrder then
      copy.(src := Htons(little, h.src), dest := Htons(little, h.dest), seqno := Htonl(little, h.seqno),
            ackno := Htonl(little, h.ackno), wnd := Htons(little, h.wnd), urgp := Htons(little, h.urgp))
    else copy
  }

  /** What `tcp_input` does to the header it received: the urgent pointer stays as it is. */
  function InputHeader(little: bool, h: Header): Header {
    h.(src := Htons(little, h.src), dest := Htons(little, h.dest), seqno := Htonl(little, h.seqno),
       ackno := Htonl(little, h.ackno), wnd := Htons(little, h.wnd))
  }

  /** The same with all six fields that `tcp_md5_dup_tcphdr` converts back. */
  function SixFields(little: bool, h: Header): Header {
    InputHeader(little, h).(urgp := Htons(little, h.urgp))
  }

  /** Undoing the conversion gives the bytes that were signed, except for an urgent pointer that
      reads differently in the other byte order. */
  lemma {:induction false} HeaderRestored(little: bool, h: Header, chksum: Half)
    ensures DupHeader(little, SixFields(little, h.(chksum := chksum)), true) == DupHeader(little, h, false)
    ensures DupHeader(little, InputHeader(little, h.(chksum := chksum)), true) == DupHeader(little, h, false)
       <==> !little || h.urgp.a == h.urgp.b
  {
  }

  // ------------------------------------------------------------------ the digest

  function BigEndian16(n: nat): seq<byte> { [n / 256 % 256, n % 256] }

  /** Section 2.0 of RFC 2385: pseudo-header, header without options and checksum, data, key. */
  function Stream(src: seq<byte>, dst: seq<byte>, h: Header, data: seq<byte>, key: seq<byte>): seq<byte> {
    src + dst + [0, 6] + BigEndian16(HeaderBytes(h) + |data|) + Raw(h) + data + key
  }

  /** `md5_update` for each pbuf of a chain. */
  method FeedChain(before: seq<byte>, p: seq<seq<byte>>) returns (fed: seq<byte>)
    ensures fed == before + Flatten(p)
  {
    fed := before;
    var q := 0;
    while q < |p|
      invariant q <= |p| && fed == before + Flatten(p[..q])
    {
      FlattenNext(p, q);
      fed := fed + p[q];
      q := q + 1;
    }
    assert p[..q] == p;
  }

  /** `tcp_md5_create_digest`, over the pbufs of the segment, if there are any. */
  method CreateDigest(hash: seq<byte> -> Digest, src: seq<byte>, dst: seq<byte>, h: Header, key: seq<byte>,
      p: Option<seq<seq<byte>>>)
    returns (digest: Digest)
    ensures digest == hash(Stream(src, dst, h, if p.Some? then Flatten(p.value) else [], key))
  {
    ghost var data := if p.Some? then Flatten(p.value) else [];
    var totLen := if p.Some? then |Flatten(p.value)| else 0;
    var fed := src;
    fed := fed + dst;
    fed := fed + [0];
    fed := fed + [6];
    assert fed == src + dst + [0, 6];
    fed := fed + BigEndian16(HeaderBytes(h) + totLen);
    fed := fed + Raw(h);
    ghost var front := fed;
    if totLen != 0 {
      fed := FeedChain(fed, p.value);
    }
    assert fed == front + data;
    fed := fed + key;
    digest := hash(fed);
  }

  /** A header read from its 20 bytes, at the offsets of section 3.1 of RFC 793. */
  function HeaderAt(b: seq<byte>): Header
    requires |b| == 20
  {
    Header(Half(b[0], b[1]), Half(b[2], b[3]), Word(b[4], b[5], b[6], b[7]), Word(b[8], b[9], b[10], b[11]),
           Half(b[12], b[13]), Half(b[14], b[15]), Half(b[16], b[17]), Half(b[18], b[19]))
  }

  lemma {:induction false} RawInjective(h: Header, h': Header)
    ensures HeaderAt(Raw(h)) == h
    ensures Raw(h) == Raw(h') <==> h == h'
  {
    assert HeaderAt(Raw(h')) == h';
  }

  /** Section 2.0 of RFC 2385 by position: the addresses, a zero, the protocol number, the length
      of header and data in network order, the header without its options, the data and, at the
      end, the key. */
  ghost predicate Layout(s: seq<byte>, src: seq<byte>, dst: seq<byte>, header: seq<byte>, data: seq<byte>,
      key: seq<byte>)
    requires |header| == 20
  {
    var at := |src| + |dst|;
    && |s| == at + 24 + |data| + |key|
    && s[..|src|] == src && s[|src|..at] == dst
    && s[at] == 0 && s[at + 1] == 6
    && s[at + 2] as int * 256 + s[at + 3] == (header[12] / 16 * 4 + |data|) % 0x1_0000
    && s[at + 4..at + 24] == header
    && s[at + 24..at + 24 + |data|] == data
    && s[|s| - |key|..] == key
  }

  lemma {:induction false} BigEndianIs(n: nat)
    ensures BigEndian16(n)[0] as int * 256 + BigEndian16(n)[1] == n % 0x1_0000
  {
  }

  lemma {:induction false} StreamLayout(src: seq<byte>, dst: seq<byte>, h: Header, data: seq<byte>, key: seq<byte>)
    ensures Layout(Stream(src, dst, h, data, key), src, dst, Raw(h), data, key)
  {
    var s := Stream(src, dst, h, data, key);
    var len := BigEndian16(HeaderBytes(h) + |data|);
    var at := |src| + |dst|;
    BigEndianIs(HeaderBytes(h) + |data|);
    assert s[at] == 0 && s[at + 1] == 6 && s[at + 2] == len[0] && s[at + 3] == len[1];
    assert s[..|src|] == src && s[|src|..at] == dst && s[at + 4..at + 24] == Raw(h);
  }

  /** The layout determines every part, once the lengths of addresses and key are given. */
  lemma {:induction false} LayoutInjective(s: seq<byte>, src: seq<byte>, dst: seq<byte>, b: seq<byte>, data: seq<byte>,
      key: seq<byte>, src': seq<byte>, dst': seq<byte>, b': seq<byte>, data': seq<byte>, key': seq<byte>)
    requires |b| == |b'| == 20 && |src| == |src'| && |dst| == |dst'| && |key| == |key'|
    requires Layout(s, src, dst, b, data, key) && Layout(s, src', dst', b', data', key')
    ensures src == src' && dst == dst' && b == b' && data == data' && key == key'
  {
  }

  /** The hash input determines the addresses, the header, the data and the key. */
  lemma {:induction false} StreamInjective(src: seq<byte>, dst: seq<byte>, h: Header, data: seq<byte>, key: seq<byte>,
      src': seq<byte>, dst': seq<byte>, h': Header, data': seq<byte>, key': seq<byte>)
    requires |src| == |src'| && |dst| == |dst'| && |key| == |key'|
    ensures Stream(src, dst, h, data, key) == Stream(src', dst', h', data', key')
       <==> src == src' && dst == dst' && h == h' && data == data' && key == key'
  {
    var s := Stream(src, dst, h, data, key);
    if s == Stream(src', dst', h', data', key') {
      StreamLayout(src, dst, h, data, key);
      StreamLayout(src', dst', h', data', key');
      LayoutInjective(s, src, dst, Raw(h), data, key, src', dst', Raw(h'), data', key');
      RawInjective(h, h');
    }
  }

  // ------------------------------------------------------------------ keys

  datatype KeyInfo = KeyInfo(ip: seq<byte>, port: u16, key: seq<byte>)

  /** `tcp_md5_get_info`: the first entry of the list for this peer. */
  function Lookup(keys: seq<KeyInfo>, ip: seq<byte>, port: u16): Option<seq<byte>> {
    if keys == [] then None
    else if keys[0].ip == ip && keys[0].port == port then Some(keys[0].key)
    else Lookup(keys[1..], ip, port)
  }

  /** The list after `tcp_md5_setsockopt_hook` linked each key, in this order, at the front. */
  function Linked(sets: seq<KeyInfo>): seq<KeyInfo> {
    if sets == [] then [] else [sets[|sets| - 1]] + Linked(sets[..|sets| - 1])
  }

  /** The reference: each setting replaces the key of its peer. */
  function Current(sets: seq<KeyInfo>): map<(seq<byte>, u16), seq<byte>> {
    if sets == [] then map[]
    else
      var last := sets[|sets| - 1];
      Current(sets[..|sets| - 1])[(last.ip, last.port) := last.key]
  }

  /** The most recent key for a peer wins. */
  lemma {:induction false} LatestKeyWins(sets: seq<KeyInfo>, ip: seq<byte>, port: u16)
    ensures Lookup(Linked(sets), ip, port)
         == if (ip, port) in Current(sets) then Some(Current(sets)[(ip, port)]) else None
  {
    if sets != [] {
      LatestKeyWins(sets[..|sets| - 1], ip, port);
      assert Linked(sets)[1..] == Linked(sets[..|sets| - 1]);
    }
  }

  method GetInfo(keys: seq<KeyInfo>, ip: seq<byte>, port: u16) returns (key: Option<seq<byte>>)
    ensures key == Lookup(keys, ip, port)
  {
    var info := 0;
    while info < |keys|
      invariant info <= |keys| && Lookup(keys, ip, port) == Lookup(keys[info..], ip, port)
    {
      if keys[info].ip == ip {
        if keys[info].port == port {
          return Some(keys[info].key);
        }
      }
      assert keys[info..][1..] == keys[info + 1..];
      info := info + 1;
    }
    return None;
  }

  // ------------------------------------------------------------------ output

  /** The digest `tcp_md5_add_tx_options` puts into a segment. */
  function TxDigest(hash: seq<byte> -> Digest, keys: seq<KeyInfo>, local: seq<byte>, remote: seq<byte>, port: u16,
      h: Header, data: seq<byte>): Digest
  {
    match Lookup(keys, remote, port)
    case None => seq(16, _ => 0)
    case Some(key) => hash(Stream(local, remote, DupHeader(false, h, false), data, key))
  }

  /** The 20 bytes written: two bytes of padding and the option. */
  function Block(digest: Digest): seq<byte> { [NOP, NOP] + SignatureOption(digest) }

  /** `tcp_md5_add_tx_options`, writing at `opts[at..]` and returning the next free position. */
  method AddTxOptions(opts: array<byte>, at: nat, hash: seq<byte> -> Digest, keys: seq<KeyInfo>,
      local: seq<byte>, remote: seq<byte>, port: u16, h: Header, p: seq<seq<byte>>)
    returns (next: nat)
    requires at + 20 <= opts.Length
    modifies opts
    ensures keys == [] ==> next == at && opts[..] == old(opts[..])
    ensures keys != [] ==>
              && next == at + 20
              && opts[at..next] == Block(TxDigest(hash, keys, local, remote, port, h, Flatten(p)))
    ensures keys != [] && Lookup(keys, remote, port) == None ==> opts[at..next] == Block(seq(16, _ => 0))
    ensures opts[..at] == old(opts[..at]) && opts[next..] == old(opts[next..])
  {
    if keys == [] {
      return at;
    }
    var digest: Digest := seq(16, _ => 0);
    var key := GetInfo(keys, remote, port);
    if key.Some? {
      digest := CreateDigest(hash, local, remote, DupHeader(false, h, false), key.value, Some(p));
    }
    next := WriteBlock(opts, at, digest);
  }

  method WriteBlock(opts: array<byte>, at: nat, digest: Digest) returns (next: nat)
    requires at + 20 <= opts.Length
    modifies opts
    ensures next == at + 20 && opts[at..next] == Block(digest)
    ensures opts[..at] == old(opts[..at]) && opts[next..] == old(opts[next..])
  {
    opts[at] := NOP;
    opts[at + 1] := NOP;
    opts[at + 2] := MD5;
    opts[at + 3] := MD5_LEN;
    forall i | at + 4 <= i < at + 20 {
      opts[i] := digest[i - at - 4];
    }
    next := at + 20;
  }

  // ------------------------------------------------------------------ input

  /** The options in one piece: as they are, or copied into 40 bytes. */
  function Joined(opts1: seq<byte>, opts2: seq<byte>): Option<seq<byte>> {
    if opts2 == [] then Some(opts1) else if |opts1| + |opts2| > 40 then None else Some(opts1 + opts2)
  }

  /** `tcp_md5_check_inpacket` and `tcp_md5_check_listen`, for a header as `tcp_input` leaves it. */
  function Verdict(little: bool, hash: seq<byte> -> Digest, listening: bool, keys: seq<KeyInfo>,
      src: seq<byte>, dst: seq<byte>, h: Header, opts1: seq<byte>, opts2: seq<byte>, data: seq<byte>): Err
  {
    if keys == [] then Ok
    else
      var key := Lookup(keys, src, HostValue(little, h.src));
      var opts := Joined(opts1, opts2);
      if key == None || opts == None then Val
      else
        var digest := Parse(opts.value);
        var data' := if listening then [] else data;
        var calculated := hash(Stream(src, dst, DupHeader(little, h, true), data', key.value));
        if digest != None && digest.value == calculated then Ok else Val
  }

  /** The options fit into one piece, which holds this digest behind whole options, and it is the
      hash of the stream rebuilt with this key. */
  ghost predicate Accepts(little: bool, hash: seq<byte> -> Digest, listening: bool, src: seq<byte>, dst: seq<byte>,
      h: Header, opts1: seq<byte>, opts2: seq<byte>, data: seq<byte>, key: seq<byte>, digest: Digest)
  {
    && (opts2 == [] || |opts1| + |opts2| <= 40)
    && (exists os, rest :: Signed(opts1 + opts2, digest, os, rest))
    && digest == hash(Stream(src, dst, DupHeader(little, h, true), if listening then [] else data, key))
  }

  /** A segment is accepted if and only if the connection has no keys at all, or it has one for
      the peer and the segment carries a digest that it accepts. */
  lemma {:induction false} VerdictIff(little: bool, hash: seq<byte> -> Digest, listening: bool, keys: seq<KeyInfo>,
      src: seq<byte>, dst: seq<byte>, h: Header, opts1: seq<byte>, opts2: seq<byte>, data: seq<byte>)
    ensures var key := Lookup(keys, src, HostValue(little, h.src));
            Verdict(little, hash, listening, keys, src, dst, h, opts1, opts2, data) == Ok
            <==> keys == [] || (key.Some? && exists digest ::
                   Accepts(little, hash, listening, src, dst, h, opts1, opts2, data, key.value, digest))
    ensures Verdict(little, hash, listening, keys, src, dst, h, opts1, opts2, data) in {Ok, Val}
  {
    var opts := opts1 + opts2;
    assert opts2 == [] ==> opts == opts1;
    var key := Lookup(keys, src, HostValue(little, h.src));
    if keys != [] && key.Some? {
      if Verdict(little, hash, listening, keys, src, dst, h, opts1, opts2, data) == Ok {
        ParseIff(opts, Parse(opts).value);
        assert Accepts(little, hash, listening, src, dst, h, opts1, opts2, data, key.value, Parse(opts).value);
      }
      if digest :| Accepts(little, hash, listening, src, dst, h, opts1, opts2, data, key.value, digest) {
        AcceptedOk(little, hash, listening, keys, src, dst, h, opts1, opts2, data, digest);
      }
    }
  }

  lemma {:induction false} AcceptedOk(little: bool, hash: seq<byte> -> Digest, listening: bool, keys: seq<KeyInfo>,
      src: seq<byte>, dst: seq<byte>, h: Header, opts1: seq<byte>, opts2: seq<byte>, data: seq<byte>, digest: Digest)
    requires var key := Lookup(keys, src, HostValue(little, h.src));
             key.Some? && Accepts(little, hash, listening, src, dst, h, opts1, opts2, data, key.value, digest)
    ensures Verdict(little, hash, listening, keys, src, dst, h, opts1, opts2, data) == Ok
  {
    var opts := opts1 + opts2;
    assert opts2 == [] ==> opts == opts1;
    ParseIff(opts, digest);
    assert Joined(opts1, opts2) == Some(opts) && Parse(opts) == Some(digest);
  }

  class Input {
    const optsBuf: array<byte>

    constructor ()
      ensures fresh(optsBuf) && optsBuf.Length == 40
    {
      optsBuf := new byte[40];
    }

    /** `tcp_md5_options_singlebuf` */
    method SingleBuf(opts1: seq<byte>, opts2: seq<byte>) returns (r: Option<seq<byte>>)
      requires optsBuf.Length == 40
      modifies optsBuf
      ensures r == Joined(opts1, opts2)
    {
      var optlen := |opts1| + |opts2|;
      if optlen == |opts1| {
        return Some(opts1);
      }
      if optlen > optsBuf.Length {
        return None;
      }
      forall i | 0 <= i < |opts1| {
        optsBuf[i] := opts1[i];
      }
      forall i | 0 <= i < |opts2| {
        optsBuf[|opts1| + i] := opts2[i];
      }
      assert optsBuf[..optlen] == opts1 + opts2;
      return Some(optsBuf[..optlen]);
    }

    method CheckInpacket(little: bool, hash: seq<byte> -> Digest, listening: bool, keys: seq<KeyInfo>,
        src: seq<byte>, dst: seq<byte>, h: Header, opts1: seq<byte>, opts2: seq<byte>, after: byte, p: seq<seq<byte>>)
      returns (err: Err)
      requires optsBuf.Length == 40
      modifies optsBuf
      ensures err == Verdict(little, hash, listening, keys, src, dst, h, opts1, opts2, Flatten(p))
    {
      if keys == [] {
        return Ok;
      }
      var key := GetInfo(keys, src, HostValue(little, h.src));
      if key.Some? {
        var opts := SingleBuf(opts1, opts2);
        if opts.Some? {
          assert (opts.value + [after])[..|opts.value|] == opts.value;
          var found, received := ParseOpt(opts.value + [after], |opts.value|);
          if found {
            var data := if listening then None else Some(p);
            var calculated := CreateDigest(hash, src, dst, DupHeader(little, h, true), key.value, data);
            if received == calculated {
              return Ok;
            }
          }
        }
      }
      return Val;
    }
  }

  // ------------------------------------------------------------------ sign, then verify

  /** A signed segment on the wire: the options before the signature are whole ones, and the
      checksum was filled in after signing. */
  datatype Segment = Segment(h: Header, os: seq<Skipped>, rest: seq<byte>, data: seq<byte>, chksum: Half)

  function WireOptions(g: Segment, digest: Digest): seq<byte>
    requires AllWellFormed(g.os)
  {
    Encode(g.os) + (Block(digest) + g.rest)
  }

  /** Whatever precedes the block the writer emits, and however the options are split, the
      parser returns exactly the digest that was written. */
  lemma {:induction false} WrittenIsParsed(g: Segment, digest: Digest, opts1: seq<byte>, opts2: seq<byte>)
    requires AllWellFormed(g.os) && opts1 + opts2 == WireOptions(g, digest)
    requires opts2 == [] || |opts1 + opts2| <= 40
    ensures Joined(opts1, opts2) == Some(opts1 + opts2) && Parse(opts1 + opts2) == Some(digest)
  {
    assert opts2 == [] ==> opts1 + opts2 == opts1;
    StepOverAll(g.os, Block(digest) + g.rest);
    BlockIsParsed(digest, g.rest);
  }

  lemma {:induction false} BlockIsParsed(digest: Digest, rest: seq<byte>)
    ensures Parse(Block(digest) + rest) == Some(digest)
  {
    var tail := SignatureOption(digest) + rest;
    assert Block(digest) + rest == [NOP] + ([NOP] + tail);
    StepOver(Nop, [NOP] + tail);
    StepOver(Nop, tail);
    ParseHere(digest, rest);
  }

  /** Each end has a key for the other. */
  ghost predicate Keyed(sender: seq<KeyInfo>, receiver: seq<KeyInfo>, local: seq<byte>, remote: seq<byte>,
      port: u16, h: Header)
  {
    Lookup(sender, remote, port).Some? && Lookup(receiver, local, HostValue(false, h.src)).Some?
  }

  /** What the sender of a segment hashes. */
  function SignedStream(local: seq<byte>, remote: seq<byte>, key: seq<byte>, g: Segment): seq<byte> {
    Stream(local, remote, DupHeader(false, g.h, false), g.data, key)
  }

  /** The header bytes that are signed are those on the wire, with a checksum of zero. */
  lemma {:induction false} SignedLayout(local: seq<byte>, remote: seq<byte>, key: seq<byte>, g: Segment)
    ensures var header := Raw(g.h)[..16] + [0, 0] + Raw(g.h)[18..];
            Layout(SignedStream(local, remote, key, g), local, remote, header, g.data, key)
  {
    var h := DupHeader(false, g.h, false);
    StreamLayout(local, remote, h, g.data, key);
    assert Raw(h) == Raw(g.h)[..16] + [0, 0] + Raw(g.h)[18..];
  }

  /** What its receiver hashes, having found the header `input`; a listening connection leaves
      out the data. */
  function CheckedStream(little: bool, listening: bool, local: seq<byte>, remote: seq<byte>, key: seq<byte>,
      g: Segment, input: Header): seq<byte>
  {
    Stream(local, remote, DupHeader(little, input, true), if listening then [] else g.data, key)
  }

  /** The check of a received segment compares the hashes of two byte streams: the one that was
      signed, with the key of the sender, and the one rebuilt from the header `input` that the
      input path left behind, with the key of the receiver. */
  lemma {:induction false} CheckComparesStreams(little: bool, hash: seq<byte> -> Digest, listening: bool,
      sender: seq<KeyInfo>, receiver: seq<KeyInfo>, local: seq<byte>, remote: seq<byte>, port: u16,
      g: Segment, input: Header, opts1: seq<byte>, opts2: seq<byte>)
    requires Keyed(sender, receiver, local, remote, port, g.h) && AllWellFormed(g.os)
    requires HostValue(little, input.src) == HostValue(false, g.h.src)
    requires opts1 + opts2 == WireOptions(g, TxDigest(hash, sender, local, remote, port, g.h, g.data))
    requires opts2 == [] || |opts1 + opts2| <= 40
    ensures var key := Lookup(sender, remote, port).value;
            var key' := Lookup(receiver, local, HostValue(false, g.h.src)).value;
            var signed := SignedStream(local, remote, key, g);
            var checked := CheckedStream(little, listening, local, remote, key', g, input);
            Verdict(little, hash, listening, receiver, local, remote, input, opts1, opts2, g.data) == Ok
            <==> hash(signed) == hash(checked)
  {
    WrittenIsParsed(g, TxDigest(hash, sender, local, remote, port, g.h, g.data), opts1, opts2);
  }

  /** Sign and verify: with the six listed fields in host order, every signed segment passes the
      check, for every payload, every hash and either byte order. */
  lemma {:induction false} SignedPasses(little: bool, hash: seq<byte> -> Digest,
      sender: seq<KeyInfo>, receiver: seq<KeyInfo>, local: seq<byte>, remote: seq<byte>, port: u16,
      g: Segment, opts1: seq<byte>, opts2: seq<byte>)
    requires Keyed(sender, receiver, local, remote, port, g.h) && AllWellFormed(g.os)
    requires Lookup(receiver, local, HostValue(false, g.h.src)) == Lookup(sender, remote, port)
    requires opts1 + opts2 == WireOptions(g, TxDigest(hash, sender, local, remote, port, g.h, g.data))
    requires opts2 == [] || |opts1 + opts2| <= 40
    ensures var input := SixFields(little, g.h.(chksum := g.chksum));
            Verdict(little, hash, false, receiver, local, remote, input, opts1, opts2, g.data) == Ok
  {
    HeaderRestored(little, g.h, g.chksum);
    CheckComparesStreams(little, hash, false, sender, receiver, local, remote, port, g,
                         SixFields(little, g.h.(chksum := g.chksum)), opts1, opts2);
  }

  /** True of every real segment, whose length has 16 bits. */
  predicate Fits(listening: bool, key: seq<byte>, key': seq<byte>, g: Segment) {
    listening ==> |key| == |key'| || |g.data| < 0x1_0000
  }

  /** What this code does with the header `tcp_input` really leaves behind, which converts five
      of the six fields: the stream that is checked is the stream that was signed if and only if
      both ends use the same key, the machine is big-endian or the urgent pointer reads the same
      both ways, and, on a listening connection, which leaves out the data, there is none. */
  lemma {:induction false} StreamsAgreeIff(little: bool, listening: bool, local: seq<byte>, remote: seq<byte>,
      key: seq<byte>, key': seq<byte>, g: Segment)
    requires Fits(listening, key, key', g)
    ensures var input := InputHeader(little, g.h.(chksum := g.chksum));
            SignedStream(local, remote, key, g) == CheckedStream(little, listening, local, remote, key', g, input)
            <==> key == key' && (!little || g.h.urgp.a == g.h.urgp.b) && (listening ==> g.data == [])
  {
    var h := DupHeader(false, g.h, false);
    var h' := DupHeader(little, InputHeader(little, g.h.(chksum := g.chksum)), true);
    var data' := if listening then [] else g.data;
    HeaderRestored(little, g.h, g.chksum);
    if |key| == |key'| {
      StreamInjective(local, remote, h, g.data, key, local, remote, h', data', key');
    } else {
      LengthsDiffer(local, remote, h, g.data, key, h', data', key');
    }
  }

  /** With keys of different lengths: the same data makes streams of different lengths, and data
      that is left out shows in the length field. */
  lemma {:induction false} LengthsDiffer(src: seq<byte>, dst: seq<byte>, h: Header, data: seq<byte>, key: seq<byte>,
      h': Header, data': seq<byte>, key': seq<byte>)
    requires |key| != |key'| && (data' == data || (data' == [] && |data| < 0x1_0000))
    ensures Stream(src, dst, h, data, key) != Stream(src, dst, h', data', key')
  {
    StreamLayout(src, dst, h, data, key);
    StreamLayout(src, dst, h', data', key');
  }

  /** So a signed segment passes the check if and only if the hash maps the signed and the
      checked stream to the same digest: always when the streams agree, and otherwise, above all
      when it was signed with another key, only when the hash collides on these two. */
  lemma {:induction false} ReceivedPassesIff(little: bool, hash: seq<byte> -> Digest, listening: bool,
      sender: seq<KeyInfo>, receiver: seq<KeyInfo>, local: seq<byte>, remote: seq<byte>, port: u16,
      g: Segment, opts1: seq<byte>, opts2: seq<byte>)
    requires Keyed(sender, receiver, local, remote, port, g.h) && AllWellFormed(g.os)
    requires opts1 + opts2 == WireOptions(g, TxDigest(hash, sender, local, remote, port, g.h, g.data))
    requires opts2 == [] || |opts1 + opts2| <= 40
    ensures var key := Lookup(sender, remote, port).value;
            var key' := Lookup(receiver, local, HostValue(false, g.h.src)).value;
            var input := InputHeader(little, g.h.(chksum := g.chksum));
            var signed := SignedStream(local, remote, key, g);
            var checked := CheckedStream(little, listening, local, remote, key', g, input);
            var ok := Verdict(little, hash, listening, receiver, local, remote, input, opts1, opts2, g.data) == Ok;
            var agree := key == key' && (!little || g.h.urgp.a == g.h.urgp.b) && (listening ==> g.data == []);
            && (ok <==> hash(signed) == hash(checked))
            && (agree ==> ok)
            && (Fits(listening, key, key', g) ==>
                  && (agree <==> signed == checked)
                  && (ok && !agree ==> signed != checked && hash(signed) == hash(checked)))
  {
    var key := Lookup(sender, remote, port).value;
    var key' := Lookup(receiver, local, HostValue(false, g.h.src)).value;
    var input := InputHeader(little, g.h.(chksum := g.chksum));
    if Fits(listening, key, key', g) {
      StreamsAgreeIff(little, listening, local, remote, key, key', g);
    }
    CheckComparesStreams(little, hash, listening, sender, receiver, local, remote, port, g, input, opts1, opts2);
  }

  /** A stand-in for the hash: the last byte of the stream, sixteen times. */
  function LastByte(s: seq<byte>): Digest { seq(16, _ => if s == [] then 0 else s[|s| - 1]) }

  /** A signed segment without data, with an urgent pointer of 1, that a little-endian receiver
      with the same key rejects. */
  lemma {:induction false} UrgentPointerRejected(local: seq<byte>, remote: seq<byte>, port: u16, g: Segment)
    requires g.h.urgp == Half(0, 1) && g.data == [] && AllWellFormed(g.os)
    ensures var sender, receiver := [KeyInfo(remote, port, [])], [KeyInfo(local, HostValue(false, g.h.src), [])];
            var opts := WireOptions(g, TxDigest(LastByte, sender, local, remote, port, g.h, g.data));
            Verdict(true, LastByte, false, receiver, local, remote, InputHeader(true, g.h), opts, [], g.data) == Val
  {
    var sender, receiver := [KeyInfo(remote, port, [])], [KeyInfo(local, HostValue(false, g.h.src), [])];
    var digest := TxDigest(LastByte, sender, local, remote, port, g.h, g.data);
    var opts := WireOptions(g, digest);
    assert opts + [] == opts;
    var input := InputHeader(true, g.h);
    CheckComparesStreams(true, LastByte, false, sender, receiver, local, remote, port, g, input, opts, []);
    var signed := Stream(local, remote, DupHeader(false, g.h, false), [], []);
    var checked := Stream(local, remote, DupHeader(true, input, true), [], []);
    assert signed[|signed| - 1] == 1 && checked[|checked| - 1] == 0;
    assert LastByte(signed)[0] == 1 && LastByte(checked)[0] == 0;
  }
}
