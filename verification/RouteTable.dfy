/** The static IPv6 routes of contrib/addons/ipv6_static_routing/ip6_route_table.c: an array kept
    sorted by prefix length, against a plain map with longest-prefix match. */
module RouteTable {
  import opened Lwip

  type Addr = a: seq<byte> | |a| == 16 witness seq(16, _ => 0)

  function Zero(): Addr { seq(16, _ => 0) }

  datatype Prefix = Prefix(addr: Addr, len: nat)

  /** A network interface is a number; a slot without one is empty. */
  datatype Entry = Entry(prefix: Prefix, netif: Option<nat>, gateway: Option<Addr>)

  /** `ip6_prefix_valid` */
  predicate ValidLen(len: nat) { len <= 128 && len % 8 == 0 }

  /** The bytes of a prefix that comparisons look at. */
  function Key(p: Prefix): seq<byte> { if p.len <= 128 then p.addr[..p.len / 8] else p.addr }

  predicate Same(p: Prefix, q: Prefix) { p.len == q.len && Key(p) == Key(q) }

  type Table = seq<Entry>

  function Init(n: nat): Table { seq(n, _ => Entry(Prefix(Zero(), 0), None, None)) }

  // ------------------------------------------------------------------ the operations

  /** The first slot from `i` on that holds the prefix, empty slots included. */
  function FirstSame(t: Table, p: Prefix, i: nat): (j: nat)
    requires i <= |t|
    ensures i <= j <= |t| && (j < |t| ==> Same(p, t[j].prefix))
    ensures forall l | i <= l < j :: !Same(p, t[l].prefix)
    decreases |t| - i
  {
    if i == |t| || Same(p, t[i].prefix) then i else FirstSame(t, p, i + 1)
  }

  /** Where shifting down from slot `i` stops. */
  function SlotFor(t: Table, len: nat, i: nat): (j: nat)
    requires i < |t|
    ensures j <= i && (j > 0 ==> t[j - 1].prefix.len >= len)
    ensures forall l | j <= l < i :: t[l].prefix.len < len
  {
    if i > 0 && len > t[i - 1].prefix.len then SlotFor(t, len, i - 1) else i
  }

  /** Slots from `i` on move down one place; the last one falls off. */
  function Insert(t: Table, i: nat, e: Entry): (r: Table)
    requires i < |t|
    ensures |r| == |t|
  {
    seq(|t|, j requires 0 <= j < |t| => if j < i then t[j] else if j == i then e else t[j - 1])
  }

  datatype Added = Added(table: Table, err: Err)

  function Add(t: Table, p: Prefix, netif: Option<nat>, gateway: Option<Addr>): Added
    requires t != []
  {
    if !ValidLen(p.len) || netif == None then
      Added(t, Arg)
    else
      var e := Entry(p, netif, gateway);
      var same := FirstSame(t, p, 0);
      if same < |t| then
        Added(t[same := e], Ok)
      else if t[|t| - 1].netif.Some? then
        Added(t, Mem)
      else
        Added(Insert(t, SlotFor(t, p.len, |t| - 1), e), Ok)
  }

  /** A vacated slot keeps its prefix length and its gateway. */
  function Vacated(e: Entry): Entry { e.(prefix := e.prefix.(addr := Zero()), netif := None) }

  /** Where shifting up from slot `i` stops: at the last slot, or at the first empty slot that
      was moved up. */
  function ShiftEnd(t: Table, i: nat): (j: nat)
    requires i < |t|
    ensures i <= j < |t| && (j < |t| - 1 ==> t[j + 1].netif == None)
    ensures forall l | i < l <= j :: t[l].netif.Some?
    decreases |t| - i
  {
    if i == |t| - 1 || t[i + 1].netif == None then i else ShiftEnd(t, i + 1)
  }

  function RemoveAt(t: Table, pos: nat): (r: Table)
    requires pos < |t|
    ensures |r| == |t|
  {
    var end := ShiftEnd(t, pos);
    seq(|t|, j requires 0 <= j < |t| =>
      if j < pos then t[j]
      else if j < end then t[j + 1]
      else if j == end && end < |t| - 1 then Vacated(t[j + 1])
      else Vacated(t[j]))
  }

  function Remove(t: Table, p: Prefix): (r: Table)
    ensures |r| == |t|
  {
    var pos := FirstSame(t, p, 0);
    if pos < |t| then RemoveAt(t, pos) else t
  }

  /** The first slot whose prefix matches the destination; an empty slot of length 0 matches. */
  function FirstMatch(t: Table, d: Addr, i: nat): (j: nat)
    requires i <= |t|
    ensures i <= j <= |t| && (j < |t| ==> Key(t[j].prefix) <= d)
    ensures forall l | i <= l < j :: !(Key(t[l].prefix) <= d)
    decreases |t| - i
  {
    if i == |t| || Key(t[i].prefix) <= d then i else FirstMatch(t, d, i + 1)
  }

  function Route(t: Table, d: Addr): Option<nat> {
    var i := FirstMatch(t, d, 0);
    if i < |t| then t[i].netif else None
  }

  function Gateway(t: Table, d: Addr): Option<Addr> {
    var i := FirstMatch(t, d, 0);
    if i < |t| then t[i].gateway else None
  }

  // ------------------------------------------------------------------ sorted in every run

  ghost predicate ValidLens(t: Table) { forall i | 0 <= i < |t| :: ValidLen(t[i].prefix.len) }

  ghost predicate Sorted(t: Table) {
    forall i, j | 0 <= i <= j < |t| :: NotShorter(t, i, j)
  }

  ghost predicate NotShorter(t: Table, i: nat, j: nat)
    requires i < |t| && j < |t|
  {
    t[i].prefix.len >= t[j].prefix.len
  }

  lemma {:induction false} InsertSorted(t: Table, e: Entry)
    requires t != [] && ValidLens(t) && Sorted(t) && ValidLen(e.prefix.len)
    ensures var r := Insert(t, SlotFor(t, e.prefix.len, |t| - 1), e); ValidLens(r) && Sorted(r)
  {
    var s := SlotFor(t, e.prefix.len, |t| - 1);
    var r := Insert(t, s, e);
    forall i, j | 0 <= i <= j < |r| ensures NotShorter(r, i, j) {
      if i < s {
        assert NotShorter(t, i, if j < s then j else s - 1);
      }
      if j > s {
        assert NotShorter(t, if i <= s then s else i - 1, j - 1);
      }
    }
  }

  lemma {:induction false} ReplaceSorted(t: Table, i: nat, e: Entry)
    requires ValidLens(t) && Sorted(t) && i < |t| && e.prefix.len == t[i].prefix.len
    ensures ValidLens(t[i := e]) && Sorted(t[i := e])
  {
    var r := t[i := e];
    forall a, b | 0 <= a <= b < |r| ensures NotShorter(r, a, b) {
      assert NotShorter(t, a, b);
    }
  }

  lemma {:induction false} AddSorted(t: Table, p: Prefix, netif: Option<nat>, gateway: Option<Addr>)
    requires t != [] && ValidLens(t) && Sorted(t)
    ensures var r := Add(t, p, netif, gateway).table;
            |r| == |t| && ValidLens(r) && Sorted(r)
  {
    if FirstSame(t, p, 0) < |t| {
      ReplaceSorted(t, FirstSame(t, p, 0), Entry(p, netif, gateway));
    } else if ValidLen(p.len) {
      InsertSorted(t, Entry(p, netif, gateway));
    }
  }

  /** The slot whose prefix length slot `j` has after a removal. */
  ghost function Source(t: Table, pos: nat, j: nat): nat
    requires pos < |t|
  {
    var end := ShiftEnd(t, pos);
    if pos <= j < end || (j == end && end < |t| - 1) then j + 1 else j
  }

  lemma {:induction false} RemoveLens(t: Table, pos: nat, j: nat)
    requires pos < |t| && j < |t|
    ensures Source(t, pos, j) < |t| && RemoveAt(t, pos)[j].prefix.len == t[Source(t, pos, j)].prefix.len
  {
  }

  lemma {:induction false} RemoveAtSorted(t: Table, pos: nat)
    requires ValidLens(t) && Sorted(t) && pos < |t|
    ensures ValidLens(RemoveAt(t, pos)) && Sorted(RemoveAt(t, pos))
  {
    var r := RemoveAt(t, pos);
    forall i | 0 <= i < |r| ensures ValidLen(r[i].prefix.len) {
      RemoveLens(t, pos, i);
    }
    forall i, j | 0 <= i <= j < |r| ensures NotShorter(r, i, j) {
      RemoveLens(t, pos, i);
      RemoveLens(t, pos, j);
      assert NotShorter(t, Source(t, pos, i), Source(t, pos, j));
    }
  }

  lemma {:induction false} RemoveSorted(t: Table, p: Prefix)
    requires ValidLens(t) && Sorted(t)
    ensures ValidLens(Remove(t, p)) && Sorted(Remove(t, p))
  {
    var pos := FirstSame(t, p, 0);
    if pos < |t| {
      RemoveAtSorted(t, pos);
    }
  }

  // ------------------------------------------------------------------ the reference

  /** The weight of a bit of a byte, counted from the most significant one. */
  function Weight(b: nat): nat
    requires b < 8
  {
    match b
    case 0 => 128
    case 1 => 64
    case 2 => 32
    case 3 => 16
    case 4 => 8
    case 5 => 4
    case 6 => 2
    case 7 => 1
  }

  /** Bit `i` of an address, counted from the most significant one. */
  predicate Bit(a: Addr, i: nat)
    requires i < 128
  {
    a[i / 8] / Weight(i % 8) % 2 == 1
  }

  function Bits(a: Addr): seq<bool> { seq(128, i requires 0 <= i < 128 => Bit(a, i)) }

  /** The network a prefix denotes: the first `len` bits of its address. */
  function Net(p: Prefix): seq<bool> { if p.len <= 128 then Bits(p.addr)[..p.len] else Bits(p.addr) }

  datatype Hop = Hop(netif: nat, gateway: Option<Addr>)

  /** The reference knows nothing of bytes: it maps networks to hops. */
  type Routes = map<seq<bool>, Hop>

  /** The route of the longest prefix of `d`, of at most `len` bits, that has one. */
  function Longest(m: Routes, d: seq<bool>, len: nat): Option<Hop>
    requires len <= |d|
  {
    if d[..len] in m then Some(m[d[..len]])
    else if len == 0 then None
    else Longest(m, d, len - 1)
  }

  datatype Op =
    | AddOp(p: Prefix, netif: Option<nat>, gateway: Option<Addr>)
    | RemoveOp(p: Prefix)
    | RouteOp(d: Addr)
    | GatewayOp(d: Addr)

  datatype Reply = Status(err: Err) | Done | OnNetif(netif: Option<nat>) | Via(gateway: Option<Addr>)

  function TableAfter(t: Table, op: Op): (r: Table)
    requires t != []
    ensures |r| == |t|
  {
    match op
    case AddOp(p, netif, gateway) => Add(t, p, netif, gateway).table
    case RemoveOp(p) => Remove(t, p)
    case _ => t
  }

  function TableReply(t: Table, op: Op): Reply
    requires t != []
  {
    match op
    case AddOp(p, netif, gateway) => Status(Add(t, p, netif, gateway).err)
    case RemoveOp(p) => Done
    case RouteOp(d) => OnNetif(Route(t, d))
    case GatewayOp(d) => Via(Gateway(t, d))
  }

  function MapAfter(n: nat, m: Routes, op: Op): Routes {
    match op
    case AddOp(p, netif, gateway) =>
      if ValidLen(p.len) && netif.Some? && (Net(p) in m || |m| < n)
      then m[Net(p) := Hop(netif.value, gateway)] else m
    case RemoveOp(p) => if ValidLen(p.len) then m - {Net(p)} else m
    case _ => m
  }

  function MapReply(n: nat, m: Routes, op: Op): Reply {
    match op
    case AddOp(p, netif, gateway) =>
      Status(if !ValidLen(p.len) || netif == None then Arg else if Net(p) in m || |m| < n then Ok else Mem)
    case RemoveOp(p) => Done
    case RouteOp(d) =>
      var hop := Longest(m, Bits(d), 128);
      OnNetif(if hop.Some? then Some(hop.value.netif) else None)
    case GatewayOp(d) =>
      var hop := Longest(m, Bits(d), 128);
      Via(if hop.Some? then hop.value.gateway else None)
  }

  // ------------------------------------------------------------------ lists of routes

  datatype Row = Row(key: seq<bool>, hop: Hop)

  ghost predicate Has(rows: seq<Row>, key: seq<bool>) { exists i | 0 <= i < |rows| :: rows[i].key == key }

  ghost predicate Differ(rows: seq<Row>, i: nat, j: nat)
    requires i < |rows| && j < |rows|
  {
    rows[i].key != rows[j].key
  }

  /** A list without duplicates that holds exactly the routes of the map. */
  ghost predicate Lists(rows: seq<Row>, m: Routes) {
    && (forall i, j | 0 <= i < j < |rows| :: Differ(rows, i, j))
    && (forall i | 0 <= i < |rows| :: rows[i].key in m && m[rows[i].key] == rows[i].hop)
    && (forall key {:trigger Has(rows, key)} | key in m :: Has(rows, key))
  }

  lemma {:induction false} ListsCount(rows: seq<Row>, m: Routes)
    requires Lists(rows, m)
    ensures |m| == |rows|
    decreases |rows|
  {
    if rows == [] {
      assert forall key | key in m :: Has(rows, key);
      assert m == map[];
    } else {
      var last := |rows| - 1;
      ListsDelete(rows, m, last);
      assert rows[..last] + rows[last + 1..] == rows[..last];
      ListsCount(rows[..last], m - {rows[last].key});
      assert m.Keys == (m - {rows[last].key}).Keys + {rows[last].key};
    }
  }

  lemma {:induction false} ListsUpdate(rows: seq<Row>, m: Routes, i: nat, hop: Hop)
    requires Lists(rows, m) && i < |rows|
    ensures Lists(rows[i := Row(rows[i].key, hop)], m[rows[i].key := hop])
  {
    var r := rows[i := Row(rows[i].key, hop)];
    forall a, b | 0 <= a < b < |r| ensures Differ(r, a, b) {
      assert Differ(rows, a, b);
    }
    forall a | 0 <= a < |r| && a != i ensures r[a].key != r[i].key {
      assert if a < i then Differ(rows, a, i) else Differ(rows, i, a);
    }
    forall key | key in m[rows[i].key := hop] ensures Has(r, key) {
      assert Has(rows, key);
      var l :| 0 <= l < |rows| && rows[l].key == key;
      assert r[l].key == key;
    }
  }

  lemma {:induction false} RowAt(rows: seq<Row>, i: nat, row: Row, l: nat)
    requires i <= |rows| && l <= |rows|
    ensures (rows[..i] + [row] + rows[i..])[l] == if l < i then rows[l] else if l == i then row else rows[l - 1]
  {
  }

  lemma {:induction false} ListsInsert(rows: seq<Row>, m: Routes, i: nat, row: Row)
    requires Lists(rows, m) && i <= |rows| && row.key !in m
    ensures Lists(rows[..i] + [row] + rows[i..], m[row.key := row.hop])
  {
    var r := rows[..i] + [row] + rows[i..];
    var m' := m[row.key := row.hop];
    forall a, b | 0 <= a < b < |r| ensures Differ(r, a, b) {
      RowAt(rows, i, row, a);
      RowAt(rows, i, row, b);
      if a != i && b != i {
        assert Differ(rows, if a < i then a else a - 1, if b < i then b else b - 1);
      }
    }
    forall a | 0 <= a < |r| ensures r[a].key in m' && m'[r[a].key] == r[a].hop {
      RowAt(rows, i, row, a);
    }
    forall key | key in m' ensures Has(r, key) {
      InsertHas(rows, m, i, row, key);
    }
  }

  lemma {:induction false} InsertHas(rows: seq<Row>, m: Routes, i: nat, row: Row, key: seq<bool>)
    requires Lists(rows, m) && i <= |rows| && key in m[row.key := row.hop]
    ensures Has(rows[..i] + [row] + rows[i..], key)
  {
    var r := rows[..i] + [row] + rows[i..];
    if key == row.key {
      RowAt(rows, i, row, i);
    } else {
      assert Has(rows, key);
      var l :| 0 <= l < |rows| && rows[l].key == key;
      RowAt(rows, i, row, if l < i then l else l + 1);
    }
  }

  lemma {:induction false} ListsDelete(rows: seq<Row>, m: Routes, i: nat)
    requires Lists(rows, m) && i < |rows|
    ensures Lists(rows[..i] + rows[i + 1..], m - {rows[i].key})
  {
    var r := rows[..i] + rows[i + 1..];
    forall a, b | 0 <= a < b < |r| ensures Differ(r, a, b) {
      assert Differ(rows, if a < i then a else a + 1, if b < i then b else b + 1);
    }
    forall a | 0 <= a < |r| ensures r[a].key != rows[i].key {
      assert if a < i then Differ(rows, a, i) else Differ(rows, i, a + 1);
    }
    forall key | key in m - {rows[i].key} ensures Has(r, key) {
      assert Has(rows, key);
      var l :| 0 <= l < |rows| && rows[l].key == key;
      assert r[if l < i then l else l - 1].key == key;
    }
  }

  // ------------------------------------------------------------------ the refinement

  /** An empty slot of a table of `n` slots that no operation can tell from a new one; where it
      is the only slot, its prefix length does not matter. */
  ghost predicate Blank(n: nat, e: Entry) { e.netif == None && e.gateway == None && (e.prefix.len == 0 || n == 1) }

  /** The first `k` slots are live and the others blank. */
  ghost predicate Clean(t: Table, k: nat) {
    && k <= |t|
    && (forall i | 0 <= i < k :: t[i].netif.Some?)
    && (forall i | k <= i < |t| :: Blank(|t|, t[i]))
  }

  function RowOf(e: Entry): Row
    requires e.netif.Some?
  {
    Row(Net(e.prefix), Hop(e.netif.value, e.gateway))
  }

  ghost function Rows(t: Table, k: nat): seq<Row>
    requires Clean(t, k)
  {
    seq(k, i requires 0 <= i < k => RowOf(t[i]))
  }

  /** The table is sorted, its live front lists the routes of the map and the rest is blank. */
  ghost predicate Refines(t: Table, k: nat, m: Routes) {
    ValidLens(t) && Sorted(t) && Clean(t, k) && Lists(Rows(t, k), m)
  }

  lemma {:induction false} NetLen(p: Prefix)
    requires ValidLen(p.len)
    ensures |Net(p)| == p.len
  {
  }

  lemma {:induction false} Halves(x: byte, w: nat)
    requires w in {1, 2, 4, 8, 16, 32, 64}
    ensures x / w == 2 * (x / (2 * w)) + x / w % 2
  {
  }

  /** The bits of a byte determine it. */
  lemma {:induction false} ByteOfBits(x: byte, y: byte)
    requires forall b | 0 <= b < 8 :: x / Weight(b) % 2 == y / Weight(b) % 2
    ensures x == y
  {
    var b := 0;
    while b < 7
      invariant b <= 7 && x / Weight(b) == y / Weight(b)
    {
      assert Weight(b) == 2 * Weight(b + 1);
      Halves(x, Weight(b + 1));
      Halves(y, Weight(b + 1));
      b := b + 1;
    }
  }

  /** Comparing whole bytes is comparing bits. */
  lemma {:induction false} BytesAreBits(a: Addr, b: Addr, n: nat)
    requires n <= 16
    ensures a[..n] == b[..n] <==> Bits(a)[..8 * n] == Bits(b)[..8 * n]
  {
    if a[..n] == b[..n] {
      forall i | 0 <= i < 8 * n ensures Bits(a)[i] == Bits(b)[i] {
        assert a[..n][i / 8] == b[..n][i / 8];
      }
    }
    if Bits(a)[..8 * n] == Bits(b)[..8 * n] {
      forall j | 0 <= j < n ensures a[j] == b[j] {
        ByteAt(a, b, n, j);
      }
    }
  }

  lemma {:induction false} ByteAt(a: Addr, b: Addr, n: nat, j: nat)
    requires j < n <= 16 && Bits(a)[..8 * n] == Bits(b)[..8 * n]
    ensures a[j] == b[j]
  {
    forall x | 0 <= x < 8 ensures a[j] / Weight(x) % 2 == b[j] / Weight(x) % 2 {
      assert Bits(a)[..8 * n][8 * j + x] == Bits(b)[..8 * n][8 * j + x];
      assert Bit(a, 8 * j + x) == Bit(b, 8 * j + x);
    }
    ByteOfBits(a[j], b[j]);
  }

  lemma {:induction false} SameIff(p: Prefix, q: Prefix)
    requires ValidLen(p.len) && ValidLen(q.len)
    ensures Same(p, q) <==> Net(p) == Net(q)
  {
    NetLen(p);
    NetLen(q);
    if p.len == q.len {
      BytesAreBits(p.addr, q.addr, p.len / 8);
    }
  }

  /** The comparison of a lookup finds the prefixes whose network the destination is in. */
  lemma {:induction false} MatchIff(p: Prefix, d: Addr)
    requires ValidLen(p.len)
    ensures Key(p) <= d <==> Net(p) <= Bits(d)
  {
    BytesAreBits(p.addr, d, p.len / 8);
  }

  /** Where the search of add and remove ends. */
  lemma {:induction false} Search(t: Table, k: nat, m: Routes, p: Prefix)
    requires Refines(t, k, m) && ValidLen(p.len)
    ensures var i := FirstSame(t, p, 0);
            && (Net(p) in m <==> i < k)
            && (i < k ==> Rows(t, k)[i].key == Net(p))
            && (i >= k ==> i == k || i == |t|)
            && (i == k < |t| ==> p.len == 0 || |t| == 1)
            && (i == |t| && k < |t| ==> p.len > 0 || |t| == 1)
  {
    var i := FirstSame(t, p, 0);
    assert forall l | 0 <= l < k :: Rows(t, k)[l].key in m;
    assert i < k ==> Rows(t, k)[i].key == Net(p);
    if Net(p) in m {
      assert Has(Rows(t, k), Net(p));
      var l :| 0 <= l < k && Rows(t, k)[l].key == Net(p);
      SameIff(p, t[l].prefix);
      assert i <= l;
    }
    assert p.len == 0 && k < |t| && |t| > 1 ==> Same(p, t[k].prefix);
  }

  lemma {:induction false} ReplaceRefines(t: Table, k: nat, m: Routes, i: nat, e: Entry)
    requires Refines(t, k, m) && i < k && Same(e.prefix, t[i].prefix) && e.netif.Some?
    ensures Refines(t[i := e], k, m[Net(e.prefix) := RowOf(e).hop])
  {
    var r := t[i := e];
    ReplaceSorted(t, i, e);
    SameIff(e.prefix, t[i].prefix);
    assert Clean(r, k);
    assert Rows(r, k) == Rows(t, k)[i := RowOf(e)];
    ListsUpdate(Rows(t, k), m, i, RowOf(e).hop);
  }

  lemma {:induction false} FillSorted(t: Table, k: nat, e: Entry)
    requires ValidLens(t) && Sorted(t) && Clean(t, k) && k < |t| && ValidLen(e.prefix.len)
    requires e.prefix.len == 0 || |t| == 1
    ensures ValidLens(t[k := e]) && Sorted(t[k := e])
  {
    var r := t[k := e];
    forall a, b | 0 <= a <= b < |r| ensures NotShorter(r, a, b) {
      assert NotShorter(t, a, b);
    }
  }

  lemma {:induction false} FillRefines(t: Table, k: nat, m: Routes, e: Entry)
    requires Refines(t, k, m) && k < |t| && (e.prefix.len == 0 || |t| == 1) && ValidLen(e.prefix.len)
    requires e.netif.Some? && Net(e.prefix) !in m
    ensures Refines(t[k := e], k + 1, m[Net(e.prefix) := RowOf(e).hop])
  {
    var rows := Rows(t, k);
    FillSorted(t, k, e);
    assert Rows(t[k := e], k + 1) == rows[..k] + [RowOf(e)] + rows[k..];
    ListsInsert(rows, m, k, RowOf(e));
  }

  lemma {:induction false} InsertRows(t: Table, k: nat, i: nat, e: Entry)
    requires Clean(t, k) && i <= k < |t| && e.netif.Some?
    ensures Clean(Insert(t, i, e), k + 1)
    ensures Rows(Insert(t, i, e), k + 1) == Rows(t, k)[..i] + [RowOf(e)] + Rows(t, k)[i..]
  {
  }

  lemma {:induction false} InsertRefines(t: Table, k: nat, m: Routes, e: Entry)
    requires Refines(t, k, m) && k < |t| && ValidLen(e.prefix.len) && (e.prefix.len > 0 || |t| == 1)
    requires e.netif.Some? && Net(e.prefix) !in m
    ensures Refines(Insert(t, SlotFor(t, e.prefix.len, |t| - 1), e), k + 1, m[Net(e.prefix) := RowOf(e).hop])
  {
    var i := SlotFor(t, e.prefix.len, |t| - 1);
    assert i <= k;
    InsertSorted(t, e);
    InsertRows(t, k, i, e);
    ListsInsert(Rows(t, k), m, i, RowOf(e));
  }

  /** How many routes are live after an operation. */
  function LiveAfter(n: nat, k: nat, m: Routes, op: Op): nat {
    match op
    case AddOp(p, netif, gateway) =>
      if ValidLen(p.len) && netif.Some? && Net(p) !in m && k < n then k + 1 else k
    case RemoveOp(p) => if ValidLen(p.len) && Net(p) in m && k > 0 then k - 1 else k
    case _ => k
  }

  ghost predicate StepRefines(t: Table, k: nat, m: Routes, op: Op)
    requires t != []
  {
    && TableReply(t, op) == MapReply(|t|, m, op)
    && Refines(TableAfter(t, op), LiveAfter(|t|, k, m, op), MapAfter(|t|, m, op))
  }

  lemma {:induction false} AddStep(t: Table, k: nat, m: Routes, op: Op, k': nat, m': Routes)
    requires t != [] && op.AddOp? && Refines(TableAfter(t, op), k', m') && TableReply(t, op) == MapReply(|t|, m, op)
    requires k' == LiveAfter(|t|, k, m, op) && m' == MapAfter(|t|, m, op)
    ensures StepRefines(t, k, m, op)
  {
  }

  lemma {:induction false} AddKnown(t: Table, k: nat, m: Routes, e: Entry)
    requires t != [] && Refines(t, k, m) && ValidLen(e.prefix.len) && e.netif.Some? && Net(e.prefix) in m
    ensures StepRefines(t, k, m, AddOp(e.prefix, e.netif, e.gateway))
  {
    Search(t, k, m, e.prefix);
    ReplaceRefines(t, k, m, FirstSame(t, e.prefix, 0), e);
    AddStep(t, k, m, AddOp(e.prefix, e.netif, e.gateway), k, m[Net(e.prefix) := RowOf(e).hop]);
  }

  lemma {:induction false} AddFills(t: Table, k: nat, m: Routes, e: Entry)
    requires Refines(t, k, m) && ValidLen(e.prefix.len) && e.netif.Some? && Net(e.prefix) !in m
    requires k < |t| && |m| == k && FirstSame(t, e.prefix, 0) == k
    ensures StepRefines(t, k, m, AddOp(e.prefix, e.netif, e.gateway))
  {
    Search(t, k, m, e.prefix);
    FillRefines(t, k, m, e);
    AddStep(t, k, m, AddOp(e.prefix, e.netif, e.gateway), k + 1, m[Net(e.prefix) := RowOf(e).hop]);
  }

  lemma {:induction false} AddInserts(t: Table, k: nat, m: Routes, e: Entry)
    requires Refines(t, k, m) && ValidLen(e.prefix.len) && e.netif.Some? && Net(e.prefix) !in m
    requires k < |t| && |m| == k && FirstSame(t, e.prefix, 0) != k
    ensures StepRefines(t, k, m, AddOp(e.prefix, e.netif, e.gateway))
  {
    Search(t, k, m, e.prefix);
    InsertRefines(t, k, m, e);
    AddStep(t, k, m, AddOp(e.prefix, e.netif, e.gateway), k + 1, m[Net(e.prefix) := RowOf(e).hop]);
  }

  lemma {:induction false} AddNew(t: Table, k: nat, m: Routes, e: Entry)
    requires Refines(t, k, m) && ValidLen(e.prefix.len) && e.netif.Some? && Net(e.prefix) !in m && k < |t|
    ensures StepRefines(t, k, m, AddOp(e.prefix, e.netif, e.gateway))
  {
    ListsCount(Rows(t, k), m);
    if FirstSame(t, e.prefix, 0) == k {
      AddFills(t, k, m, e);
    } else {
      AddInserts(t, k, m, e);
    }
  }

  lemma {:induction false} AddRefused(t: Table, k: nat, m: Routes, p: Prefix, netif: Option<nat>, gateway: Option<Addr>)
    requires t != [] && Refines(t, k, m)
    requires !ValidLen(p.len) || netif == None || (Net(p) !in m && k == |t|)
    ensures StepRefines(t, k, m, AddOp(p, netif, gateway))
  {
    if ValidLen(p.len) && netif.Some? {
      ListsCount(Rows(t, k), m);
      Search(t, k, m, p);
    }
    AddStep(t, k, m, AddOp(p, netif, gateway), k, m);
  }

  lemma {:induction false} AddRefines(t: Table, k: nat, m: Routes, p: Prefix, netif: Option<nat>, gateway: Option<Addr>)
    requires t != [] && Refines(t, k, m)
    ensures StepRefines(t, k, m, AddOp(p, netif, gateway))
  {
    if !ValidLen(p.len) || netif == None || (Net(p) !in m && k == |t|) {
      AddRefused(t, k, m, p, netif, gateway);
    } else if Net(p) in m {
      AddKnown(t, k, m, Entry(p, netif, gateway));
    } else {
      AddNew(t, k, m, Entry(p, netif, gateway));
    }
  }

  // Removal. The last slot of a full table is vacated without being blanked.

  /** The guard of a harmless removal: the table is not full, or the prefix is not there, or the
      last route has no gateway and is the default route or the only one there is room for. */
  predicate SafeToRemove(t: Table, p: Prefix)
    requires t != []
  {
    var last := t[|t| - 1];
    last.netif == None || FirstSame(t, p, 0) == |t| || (last.gateway == None && (last.prefix.len == 0 || |t| == 1))
  }

  lemma {:induction false} ShiftEndIs(t: Table, k: nat, pos: nat)
    requires Clean(t, k) && pos < k
    ensures ShiftEnd(t, pos) == k - 1
    decreases k - pos
  {
    if pos < k - 1 {
      ShiftEndIs(t, k, pos + 1);
    }
  }

  lemma {:induction false} RemoveRows(t: Table, k: nat, pos: nat)
    requires Clean(t, k) && pos < k
    ensures forall j | 0 <= j < k - 1 :: RemoveAt(t, pos)[j] == t[if j < pos then j else j + 1]
    ensures forall j | k <= j < |t| :: Blank(|t|, RemoveAt(t, pos)[j])
    ensures RemoveAt(t, pos)[k - 1] == Vacated(if k < |t| then t[k] else t[k - 1])
  {
    ShiftEndIs(t, k, pos);
  }

  lemma {:induction false} RemoveClean(t: Table, k: nat, pos: nat)
    requires Clean(t, k) && pos < k && (k < |t| || Blank(|t|, Vacated(t[k - 1])))
    ensures Clean(RemoveAt(t, pos), k - 1)
    ensures Rows(RemoveAt(t, pos), k - 1) == Rows(t, k)[..pos] + Rows(t, k)[pos + 1..]
  {
    RemoveRows(t, k, pos);
    var r := RemoveAt(t, pos);
    assert Clean(r, k - 1);
    var left := Rows(t, k)[..pos] + Rows(t, k)[pos + 1..];
    forall j | 0 <= j < k - 1 ensures Rows(r, k - 1)[j] == left[j] {
      assert r[j] == t[if j < pos then j else j + 1];
    }
  }

  lemma {:induction false} RemoveLive(t: Table, k: nat, m: Routes, pos: nat)
    requires Refines(t, k, m) && pos < k && (k < |t| || Blank(|t|, Vacated(t[k - 1])))
    requires ValidLens(RemoveAt(t, pos)) && Sorted(RemoveAt(t, pos))
    ensures Refines(RemoveAt(t, pos), k - 1, m - {Net(t[pos].prefix)})
  {
    RemoveClean(t, k, pos);
    assert Rows(t, k)[pos].key == Net(t[pos].prefix);
    ListsDelete(Rows(t, k), m, pos);
  }

  lemma {:induction false} RemoveBlank(t: Table, k: nat)
    requires Clean(t, k) && k < |t|
    ensures Clean(RemoveAt(t, k), k) && Rows(RemoveAt(t, k), k) == Rows(t, k)
  {
  }

  lemma {:induction false} RemoveKnown(t: Table, k: nat, m: Routes, p: Prefix)
    requires t != [] && Refines(t, k, m) && SafeToRemove(t, p) && ValidLen(p.len) && Net(p) in m
    ensures k > 0 && Refines(Remove(t, p), k - 1, m - {Net(p)})
  {
    Search(t, k, m, p);
    RemoveSorted(t, p);
    RemoveLive(t, k, m, FirstSame(t, p, 0));
  }

  lemma {:induction false} RemoveUnknown(t: Table, k: nat, m: Routes, p: Prefix)
    requires Refines(t, k, m) && ValidLen(p.len) && Net(p) !in m
    ensures Refines(Remove(t, p), k, m)
  {
    Search(t, k, m, p);
    RemoveSorted(t, p);
    if FirstSame(t, p, 0) < |t| {
      RemoveBlank(t, k);
    }
  }

  lemma {:induction false} RemoveInvalid(t: Table, p: Prefix)
    requires ValidLens(t) && !ValidLen(p.len)
    ensures Remove(t, p) == t
  {
  }

  lemma {:induction false} RemoveRefines(t: Table, k: nat, m: Routes, p: Prefix)
    requires t != [] && Refines(t, k, m) && SafeToRemove(t, p)
    ensures StepRefines(t, k, m, RemoveOp(p))
  {
    if !ValidLen(p.len) {
      RemoveInvalidStep(t, k, m, p);
    } else if Net(p) in m {
      RemoveKnownStep(t, k, m, p);
    } else {
      RemoveUnknownStep(t, k, m, p);
    }
  }

  lemma {:induction false} RemoveInvalidStep(t: Table, k: nat, m: Routes, p: Prefix)
    requires t != [] && Refines(t, k, m) && !ValidLen(p.len)
    ensures StepRefines(t, k, m, RemoveOp(p))
  {
    RemoveInvalid(t, p);
    RemoveStep(t, k, m, p, k, m);
  }

  lemma {:induction false} RemoveKnownStep(t: Table, k: nat, m: Routes, p: Prefix)
    requires t != [] && Refines(t, k, m) && SafeToRemove(t, p) && ValidLen(p.len) && Net(p) in m
    ensures StepRefines(t, k, m, RemoveOp(p))
  {
    RemoveKnown(t, k, m, p);
    RemoveStep(t, k, m, p, k - 1, m - {Net(p)});
  }

  lemma {:induction false} RemoveUnknownStep(t: Table, k: nat, m: Routes, p: Prefix)
    requires t != [] && Refines(t, k, m) && ValidLen(p.len) && Net(p) !in m
    ensures StepRefines(t, k, m, RemoveOp(p))
  {
    RemoveUnknown(t, k, m, p);
    assert m - {Net(p)} == m;
    RemoveStep(t, k, m, p, k, m);
  }

  lemma {:induction false} RemoveStep(t: Table, k: nat, m: Routes, p: Prefix, k': nat, m': Routes)
    requires t != [] && Refines(Remove(t, p), k', m')
    requires k' == LiveAfter(|t|, k, m, RemoveOp(p)) && m' == MapAfter(|t|, m, RemoveOp(p))
    ensures StepRefines(t, k, m, RemoveOp(p))
  {
  }

  // Lookup.

  lemma {:induction false} LongestIs(m: Routes, d: seq<bool>, len: nat, l: nat)
    requires l <= len <= |d| && d[..l] in m && forall x | l < x <= len :: d[..x] !in m
    ensures Longest(m, d, len) == Some(m[d[..l]])
    decreases len
  {
    if len > l {
      LongestIs(m, d, len - 1, l);
    }
  }

  lemma {:induction false} LongestNone(m: Routes, d: seq<bool>, len: nat)
    requires len <= |d| && forall x | 0 <= x <= len :: d[..x] !in m
    ensures Longest(m, d, len) == None
    decreases len
  {
    if len > 0 {
      LongestNone(m, d, len - 1);
    }
  }

  /** A live prefix of the destination sits at or after the first match and is no longer. */
  lemma {:induction false} MatchIsLongest(t: Table, k: nat, m: Routes, d: Addr, x: nat)
    requires Refines(t, k, m) && x <= 128 && Bits(d)[..x] in m
    ensures var i := FirstMatch(t, d, 0); i < k && x <= t[i].prefix.len
  {
    assert Has(Rows(t, k), Bits(d)[..x]);
    var l :| 0 <= l < k && Rows(t, k)[l].key == Bits(d)[..x];
    NetLen(t[l].prefix);
    MatchIff(t[l].prefix, d);
    var i := FirstMatch(t, d, 0);
    assert i <= l && NotShorter(t, i, l);
  }

  /** The route of the first match, if that is a live slot, is the longest one. */
  lemma {:induction false} LiveMatch(t: Table, k: nat, m: Routes, d: Addr)
    requires Refines(t, k, m) && FirstMatch(t, d, 0) < k
    ensures Longest(m, Bits(d), 128) == Some(RowOf(t[FirstMatch(t, d, 0)]).hop)
  {
    var i := FirstMatch(t, d, 0);
    var net := Rows(t, k)[i].key;
    MatchIff(t[i].prefix, d);
    NetLen(t[i].prefix);
    assert Bits(d)[..|net|] == net;
    forall x | |net| < x <= 128 ensures Bits(d)[..x] !in m {
      if Bits(d)[..x] in m {
        MatchIsLongest(t, k, m, d, x);
      }
    }
    LongestIs(m, Bits(d), 128, |net|);
  }

  lemma {:induction false} NoLiveMatch(t: Table, k: nat, m: Routes, d: Addr)
    requires Refines(t, k, m) && FirstMatch(t, d, 0) >= k
    ensures Longest(m, Bits(d), 128) == None
  {
    forall x | 0 <= x <= 128 ensures Bits(d)[..x] !in m {
      if Bits(d)[..x] in m {
        MatchIsLongest(t, k, m, d, x);
      }
    }
    LongestNone(m, Bits(d), 128);
  }

  lemma {:induction false} LookupRefines(t: Table, k: nat, m: Routes, d: Addr)
    requires t != [] && Refines(t, k, m)
    ensures StepRefines(t, k, m, RouteOp(d)) && StepRefines(t, k, m, GatewayOp(d))
  {
    if FirstMatch(t, d, 0) < k {
      LiveMatch(t, k, m, d);
    } else {
      NoLiveMatch(t, k, m, d);
    }
  }

  /** The destination is in the network of the prefix: their first `len` bits agree. */
  ghost predicate Covers(p: Prefix, d: Addr)
    requires p.len <= 128
  {
    forall i | 0 <= i < p.len :: Bit(p.addr, i) == Bit(d, i)
  }

  lemma {:induction false} CoversIff(p: Prefix, d: Addr)
    requires p.len <= 128
    ensures Covers(p, d) <==> Net(p) <= Bits(d)
  {
    if Covers(p, d) {
      assert forall i | 0 <= i < p.len :: Net(p)[i] == Bits(d)[i];
    }
    if Net(p) <= Bits(d) {
      forall i | 0 <= i < p.len ensures Bit(p.addr, i) == Bit(d, i) {
        assert Net(p)[i] == Bits(d)[i];
      }
    }
  }

  /** Two prefixes are the same route if and only if they have the same length and each covers
      the address of the other. */
  lemma {:induction false} SameCovers(p: Prefix, q: Prefix)
    requires ValidLen(p.len) && ValidLen(q.len)
    ensures Same(p, q) <==> p.len == q.len && Covers(p, q.addr) && Covers(q, p.addr)
  {
    SameIff(p, q);
    CoversIff(p, q.addr);
    CoversIff(q, p.addr);
  }

  /** The result of an addition, without the map: ERR_ARG exactly if the length is above 128 or no
      whole number of bytes or there is no interface; otherwise ERR_MEM exactly if every slot is
      live and none is the same route. */
  lemma {:induction false} AddCodes(t: Table, k: nat, m: Routes, p: Prefix, netif: Option<nat>, gateway: Option<Addr>)
    requires t != [] && Refines(t, k, m)
    ensures var err := Add(t, p, netif, gateway).err;
            var bad := p.len > 128 || p.len % 8 != 0 || netif == None;
            && err in {Ok, Arg, Mem}
            && (err == Arg <==> bad)
            && (err == Mem <==> !bad && k == |t|
                                && forall i | 0 <= i < k :: t[i].prefix.len != p.len || !Covers(p, t[i].prefix.addr))
  {
    if ValidLen(p.len) && netif.Some? {
      Search(t, k, m, p);
      forall i | 0 <= i < k ensures Same(p, t[i].prefix) <==> t[i].prefix.len == p.len && Covers(p, t[i].prefix.addr) {
        SameCovers(p, t[i].prefix);
        if t[i].prefix.len == p.len {
          CoversBack(p, t[i].prefix);
        }
      }
    }
  }

  lemma {:induction false} CoversBack(p: Prefix, q: Prefix)
    requires p.len == q.len <= 128
    ensures Covers(p, q.addr) <==> Covers(q, p.addr)
  {
  }

  /** What a lookup returns, without the map: if live routes cover the destination, the hop of
      one of them that is at least as long as all others, and otherwise nothing. */
  lemma {:induction false} LookupIsLongest(t: Table, k: nat, m: Routes, d: Addr)
    requires Refines(t, k, m)
    ensures (exists j | 0 <= j < k :: Covers(t[j].prefix, d)) <==> FirstMatch(t, d, 0) < k
    ensures var i := FirstMatch(t, d, 0);
            if i < k then
              && Covers(t[i].prefix, d) && Route(t, d) == t[i].netif && Gateway(t, d) == t[i].gateway
              && (forall j | 0 <= j < k && Covers(t[j].prefix, d) :: t[j].prefix.len <= t[i].prefix.len)
            else Route(t, d) == None && Gateway(t, d) == None
  {
    var i := FirstMatch(t, d, 0);
    forall j | 0 <= j < k ensures Covers(t[j].prefix, d) <==> Key(t[j].prefix) <= d {
      CoversIff(t[j].prefix, d);
      MatchIff(t[j].prefix, d);
    }
    forall j | 0 <= j < k && Covers(t[j].prefix, d) ensures i <= j && t[j].prefix.len <= t[i].prefix.len {
      assert i <= j && NotShorter(t, i, j);
    }
  }

  // ------------------------------------------------------------------ runs

  function Tables(t: Table, ops: seq<Op>): Table
    requires t != []
    decreases |ops|
  {
    if ops == [] then t else Tables(TableAfter(t, ops[0]), ops[1..])
  }

  function Replies(t: Table, ops: seq<Op>): seq<Reply>
    requires t != []
    decreases |ops|
  {
    if ops == [] then [] else [TableReply(t, ops[0])] + Replies(TableAfter(t, ops[0]), ops[1..])
  }

  function MapReplies(n: nat, m: Routes, ops: seq<Op>): seq<Reply>
    decreases |ops|
  {
    if ops == [] then [] else [MapReply(n, m, ops[0])] + MapReplies(n, MapAfter(n, m, ops[0]), ops[1..])
  }

  /** Every removal of the run is a harmless one. */
  predicate Guarded(t: Table, ops: seq<Op>)
    requires t != []
    decreases |ops|
  {
    ops == [] || ((ops[0].RemoveOp? ==> SafeToRemove(t, ops[0].p)) && Guarded(TableAfter(t, ops[0]), ops[1..]))
  }

  lemma {:induction false} SortedAlways(t: Table, ops: seq<Op>)
    requires t != [] && ValidLens(t) && Sorted(t)
    ensures ValidLens(Tables(t, ops)) && Sorted(Tables(t, ops))
    decreases |ops|
  {
    if ops != [] {
      match ops[0] {
        case AddOp(p, netif, gateway) => AddSorted(t, p, netif, gateway);
        case RemoveOp(p) => RemoveSorted(t, p);
        case _ =>
      }
      SortedAlways(TableAfter(t, ops[0]), ops[1..]);
    }
  }

  lemma {:induction false} StepRefinesMap(t: Table, k: nat, m: Routes, op: Op)
    requires t != [] && Refines(t, k, m) && (op.RemoveOp? ==> SafeToRemove(t, op.p))
    ensures StepRefines(t, k, m, op)
  {
    match op {
      case AddOp(p, netif, gateway) => AddRefines(t, k, m, p, netif, gateway);
      case RemoveOp(p) => RemoveRefines(t, k, m, p);
      case RouteOp(d) => LookupRefines(t, k, m, d);
      case GatewayOp(d) => LookupRefines(t, k, m, d);
    }
  }

  lemma {:induction false} RunRefinesMap(t: Table, k: nat, m: Routes, ops: seq<Op>)
    requires t != [] && Refines(t, k, m) && Guarded(t, ops)
    ensures Replies(t, ops) == MapReplies(|t|, m, ops)
    decreases |ops|
  {
    if ops != [] {
      StepRefinesMap(t, k, m, ops[0]);
      RunRefinesMap(TableAfter(t, ops[0]), LiveAfter(|t|, k, m, ops[0]), MapAfter(|t|, m, ops[0]), ops[1..]);
    }
  }

  /** Every run of additions, guarded removals and lookups on a table of any size answers
      exactly as the map does. */
  lemma {:induction false} TableRefinesMap(n: nat, ops: seq<Op>)
    requires n > 0 && Guarded(Init(n), ops)
    ensures Replies(Init(n), ops) == MapReplies(n, map[], ops)
    ensures Sorted(Tables(Init(n), ops))
  {
    assert Rows(Init(n), 0) == [];
    RunRefinesMap(Init(n), 0, map[], ops);
    SortedAlways(Init(n), ops);
  }

  // ------------------------------------------------------------------ an unguarded removal

  function Default(): Prefix { Prefix(Zero(), 0) }

  ghost predicate Agrees(t: Table, m: Routes, ops: seq<Op>)
    requires t != []
  {
    Replies(t, ops) == MapReplies(|t|, m, ops)
  }

  lemma {:induction false} SecondDiffers(t: Table, m: Routes, a: Op, b: Op)
    requires t != [] && TableReply(TableAfter(t, a), b) != MapReply(|t|, MapAfter(|t|, m, a), b)
    ensures !Agrees(t, m, [a, b])
  {
    var t1, m1 := TableAfter(t, a), MapAfter(|t|, m, a);
    assert [a, b][1..] == [b] && [b][1..] == [];
    assert Replies(t1, [b])[0] != MapReplies(|t|, m1, [b])[0];
    assert Replies(t, [a, b])[1] == Replies(t1, [b])[0];
  }

  lemma {:induction false} ThirdDiffers(t: Table, m: Routes, a: Op, b: Op, c: Op)
    requires t != [] && !Agrees(TableAfter(t, a), MapAfter(|t|, m, a), [b, c])
    ensures !Agrees(t, m, [a, b, c])
  {
    var t1, m1 := TableAfter(t, a), MapAfter(|t|, m, a);
    assert [a, b, c][1..] == [b, c];
    assert Replies(t, [a, b, c])[1..] == Replies(t1, [b, c]);
    assert MapReplies(|t|, m, [a, b, c])[1..] == MapReplies(|t|, m1, [b, c]);
  }

  /** The first removal leaves the last slot with its old length, the second moves it up. */
  lemma {:induction false} RemoveTwice(t: Table, k: nat, pos: nat)
    requires Clean(t, k) && k == |t| >= 2 && pos < k
    ensures var t1 := RemoveAt(t, pos);
            var t2 := RemoveAt(t1, 0);
            && t1[k - 1] == Vacated(t[k - 1])
            && t1[0] == t[if pos == 0 then 1 else 0]
            && (forall j | 0 <= j < k - 2 :: t2[j] == t[if j + 1 < pos then j + 1 else j + 2])
            && t2[k - 2] == t2[k - 1] == Vacated(t[k - 1])
  {
    RemoveRows(t, k, pos);
    var t1 := RemoveAt(t, pos);
    assert ShiftEnd(t1, 0) == k - 2;
  }

  lemma {:induction false} DistinctPrefixes(t: Table, k: nat, m: Routes, i: nat, j: nat)
    requires Refines(t, k, m) && i < k && j < k && i != j
    ensures !Same(t[i].prefix, t[j].prefix) && Net(t[i].prefix) != Net(t[j].prefix)
  {
    assert if i < j then Differ(Rows(t, k), i, j) else Differ(Rows(t, k), j, i);
  }

  ghost predicate Diverges(t: Table, m: Routes)
    requires t != []
  {
    exists ops :: Guarded(t, ops) && !Agrees(t, m, ops)
  }

  /** After both removals, `x` is at none of the first slots. */
  lemma {:induction false} HoleSlots(t: Table, k: nat, m: Routes, pos: nat, x: Prefix)
    requires Refines(t, k, m) && k == |t| >= 2 && pos < k
    requires var qpos := if pos == 0 then 1 else 0; Same(x, t[pos].prefix) || Same(x, t[qpos].prefix)
    ensures forall j | 0 <= j < k - 2 :: !Same(x, RemoveAt(RemoveAt(t, pos), 0)[j].prefix)
  {
    var qpos := if pos == 0 then 1 else 0;
    RemoveTwice(t, k, pos);
    forall j | 0 <= j < k - 2 ensures !Same(x, RemoveAt(RemoveAt(t, pos), 0)[j].prefix) {
      var i := if j + 1 < pos then j + 1 else j + 2;
      DistinctPrefixes(t, k, m, pos, i);
      DistinctPrefixes(t, k, m, qpos, i);
    }
  }

  lemma {:induction false} HoleReply(t: Table, k: nat, m: Routes, p: Prefix, q: Prefix, x: Prefix)
    requires Refines(t, k, m) && k == |t| >= 2 && FirstSame(t, p, 0) < k && t[k - 1].prefix.len > 0
    requires q == t[if FirstSame(t, p, 0) == 0 then 1 else 0].prefix
    requires (x == p || x == q) && x.len > 0 && !Same(x, Prefix(Zero(), t[k - 1].prefix.len))
    ensures Remove(t, p)[k - 1].netif == None
    ensures var t2 := Remove(Remove(t, p), q);
            TableReply(TableAfter(t2, AddOp(Default(), Some(0), None)), AddOp(x, Some(0), None)) == Status(Mem)
  {
    var pos := FirstSame(t, p, 0);
    RemoveTwice(t, k, pos);
    HoleSlots(t, k, m, pos, x);
    assert Remove(Remove(t, p), q) == RemoveAt(RemoveAt(t, pos), 0);
    RemoveSorted(t, p);
    RemoveSorted(Remove(t, p), q);
    HoleTable(Remove(Remove(t, p), q), t[k - 1].prefix.len, x);
  }

  /** Where the last route has a non-empty prefix: remove another route and add the default
      route; it lands behind an empty slot, and the next addition is refused too early. */
  lemma {:induction false} HoleDiverges(t: Table, k: nat, m: Routes, p: Prefix)
    requires Refines(t, k, m) && k == |t| >= 2 && ValidLen(p.len)
    requires FirstSame(t, p, 0) < k && t[k - 1].prefix.len > 0
    ensures Diverges(Remove(t, p), m - {Net(p)})
  {
    var pos := FirstSame(t, p, 0);
    var qpos := if pos == 0 then 1 else 0;
    var q := t[qpos].prefix;
    HoleNets(t, k, m, p, pos, qpos);
    if Same(p, Prefix(Zero(), t[k - 1].prefix.len)) {
      HoleAt(t, k, m, p, q, q);
    } else {
      HoleAt(t, k, m, p, q, p);
    }
  }

  lemma {:induction false} HoleNets(t: Table, k: nat, m: Routes, p: Prefix, pos: nat, qpos: nat)
    requires Refines(t, k, m) && pos < k && qpos < k && pos != qpos && Same(p, t[pos].prefix)
    requires t[k - 1].prefix.len > 0
    ensures Net(p) != Net(t[qpos].prefix) && p.len > 0 && t[qpos].prefix.len > 0
    ensures forall z :: Same(p, z) ==> !Same(t[qpos].prefix, z)
  {
    DistinctPrefixes(t, k, m, pos, qpos);
    SameIff(p, t[pos].prefix);
    assert NotShorter(t, pos, k - 1) && NotShorter(t, qpos, k - 1);
  }

  lemma {:induction false} HoleAt(t: Table, k: nat, m: Routes, p: Prefix, q: Prefix, x: Prefix)
    requires Refines(t, k, m) && k == |t| >= 2 && ValidLen(p.len) && FirstSame(t, p, 0) < k
    requires t[k - 1].prefix.len > 0 && q == t[if FirstSame(t, p, 0) == 0 then 1 else 0].prefix && Net(p) != Net(q)
    requires (x == p || x == q) && x.len > 0 && !Same(x, Prefix(Zero(), t[k - 1].prefix.len))
    ensures Diverges(Remove(t, p), m - {Net(p)})
  {
    var pos := FirstSame(t, p, 0);
    HoleReply(t, k, m, p, q, x);
    HoleKeys(t, k, m, pos, if pos == 0 then 1 else 0);
    SameIff(p, t[pos].prefix);
    NetLen(x);
    HoleMap(k, m, Net(p), Net(q), x);
    HoleRun(Remove(t, p), m - {Net(p)}, q, x);
  }

  lemma {:induction false} HoleKeys(t: Table, k: nat, m: Routes, pos: nat, qpos: nat)
    requires Refines(t, k, m) && pos < k && qpos < k
    ensures |m| == k && Net(t[pos].prefix) in m && Net(t[qpos].prefix) in m
  {
    ListsCount(Rows(t, k), m);
    assert Rows(t, k)[pos].key in m && Rows(t, k)[qpos].key in m;
  }

  lemma {:induction false} HoleRun(t: Table, m: Routes, q: Prefix, x: Prefix)
    requires t != [] && t[|t| - 1].netif == None && ValidLen(q.len)
    requires var b := AddOp(Default(), Some(0), None);
             && TableReply(TableAfter(Remove(t, q), b), AddOp(x, Some(0), None)) == Status(Mem)
             && MapReply(|t|, MapAfter(|t|, m - {Net(q)}, b), AddOp(x, Some(0), None)) == Status(Ok)
    ensures Diverges(t, m)
  {
    var a, b, c := RemoveOp(q), AddOp(Default(), Some(0), None), AddOp(x, Some(0), None);
    SecondDiffers(Remove(t, q), m - {Net(q)}, b, c);
    ThirdDiffers(t, m, a, b, c);
    assert [a, b, c][1..] == [b, c] && [b, c][1..] == [c] && [c][1..] == [];
    assert Guarded(TableAfter(t, a), [b, c]);
    assert Guarded(t, [a, b, c]);
  }

  lemma {:induction false} HoleTable(t: Table, len: nat, x: Prefix)
    requires |t| >= 2 && ValidLens(t) && Sorted(t) && len > 0 && ValidLen(x.len) && x.len > 0
    requires var gap := Entry(Prefix(Zero(), len), None, t[|t| - 1].gateway); t[|t| - 2] == t[|t| - 1] == gap
    requires !Same(x, Prefix(Zero(), len)) && forall j | 0 <= j < |t| - 2 :: !Same(x, t[j].prefix)
    ensures var b := AddOp(Default(), Some(0), None);
            TableReply(TableAfter(t, b), AddOp(x, Some(0), None)) == Status(Mem)
  {
    var n := |t|;
    forall j | 0 <= j < n ensures t[j].prefix.len >= len {
      assert NotShorter(t, j, n - 1);
    }
    assert FirstSame(t, Default(), 0) == n;
    assert SlotFor(t, 0, n - 1) == n - 1;
    var e := Entry(Default(), Some(0), None);
    var t' := Insert(t, n - 1, e);
    assert TableAfter(t, AddOp(Default(), Some(0), None)) == t';
    assert forall j | 0 <= j < n :: !Same(x, t'[j].prefix);
    assert FirstSame(t', x, 0) == n;
  }

  lemma {:induction false} HoleMap(n: nat, m: Routes, p: seq<bool>, q: seq<bool>, x: Prefix)
    requires |m| == n && p in m && q in m && p != q && ValidLen(x.len) && Net(x) in {p, q} && Net(x) != []
    ensures var b := AddOp(Default(), Some(0), None);
            MapReply(n, MapAfter(n, m - {p} - {q}, b), AddOp(x, Some(0), None)) == Status(Ok)
  {
    var m2 := m - {p} - {q};
    OneLess(m, p);
    OneLess(m - {p}, q);
    assert Net(Default()) == [];
    OneMore(m2, [], Hop(0, None));
  }

  lemma {:induction false} OneLess(m: Routes, key: seq<bool>)
    requires key in m
    ensures |m - {key}| == |m| - 1
  {
    assert m.Keys == (m - {key}).Keys + {key};
  }

  lemma {:induction false} OneMore(m: Routes, key: seq<bool>, hop: Hop)
    ensures |m[key := hop]| <= |m| + 1
  {
    assert m[key := hop].Keys == m.Keys + {key};
  }

  // Where the last route is the default route and has a gateway.

  lemma {:induction false} UnusedNumber(used: seq<nat>, m: nat) returns (b: nat)
    requires |used| < m
    ensures b < m && b !in used
    decreases m
  {
    if m - 1 !in used {
      b := m - 1;
    } else {
      var i :| 0 <= i < |used| && used[i] == m - 1;
      b := UnusedNumber(used[..i] + used[i + 1..], m - 1);
      assert forall l | 0 <= l < |used| && l != i :: used[l] == (used[..i] + used[i + 1..])[if l < i then l else l - 1];
    }
  }

  /** An address that no live route other than the default route matches. */
  lemma {:induction false} Unrouted(t: Table, k: nat, m: Routes) returns (d: Addr)
    requires Refines(t, k, m) && k <= 255
    ensures forall i | 0 <= i < k && t[i].prefix.len > 0 :: !(Key(t[i].prefix) <= d)
    ensures forall x | 0 < x <= 128 :: Bits(d)[..x] !in m
  {
    var firsts: seq<nat> := seq(k, i requires 0 <= i < k => t[i].prefix.addr[0]);
    var b := UnusedNumber(firsts, 256);
    d := [b as byte] + seq(15, _ => 0);
    forall i | 0 <= i < k && t[i].prefix.len > 0 ensures !(Key(t[i].prefix) <= d) {
      assert firsts[i] != b && Key(t[i].prefix)[0] == firsts[i];
    }
    forall x | 0 < x <= 128 ensures Bits(d)[..x] !in m {
      if Bits(d)[..x] in m {
        Routed(t, k, m, d, x);
      }
    }
  }

  lemma {:induction false} Routed(t: Table, k: nat, m: Routes, d: Addr, x: nat)
    requires Refines(t, k, m) && 0 < x <= 128 && Bits(d)[..x] in m
    ensures exists i | 0 <= i < k :: t[i].prefix.len > 0 && Key(t[i].prefix) <= d
  {
    assert Has(Rows(t, k), Bits(d)[..x]);
    var l :| 0 <= l < k && Rows(t, k)[l].key == Bits(d)[..x];
    NetLen(t[l].prefix);
    MatchIff(t[l].prefix, d);
  }

  /** Removing from the full table and then removing the default route leaves its gateway
      behind, in a slot that matches every address. */
  lemma {:induction false} GatewayDiverges(t: Table, k: nat, m: Routes, p: Prefix)
    requires Refines(t, k, m) && 2 <= k == |t| <= 255 && ValidLen(p.len)
    requires FirstSame(t, p, 0) < k && t[k - 1].prefix.len == 0 && t[k - 1].gateway.Some?
    ensures Diverges(Remove(t, p), m - {Net(p)})
  {
    var d := Unrouted(t, k, m);
    GatewayTable(t, k, m, p, d);
    GatewayMap(k, m - {Net(p)}, d);
    GatewayRun(Remove(t, p), m - {Net(p)}, d);
  }

  lemma {:induction false} GatewayRun(t: Table, m: Routes, d: Addr)
    requires t != [] && t[|t| - 1].netif == None
    requires Gateway(Remove(t, Default()), d).Some?
    requires MapReply(|t|, MapAfter(|t|, m, RemoveOp(Default())), GatewayOp(d)) == Via(None)
    ensures Diverges(t, m)
  {
    var a, b := RemoveOp(Default()), GatewayOp(d);
    SecondDiffers(t, m, a, b);
    assert [a, b][1..] == [b] && [b][1..] == [];
    assert Guarded(TableAfter(t, a), [b]);
    assert Guarded(t, [a, b]);
  }

  lemma {:induction false} GatewayTable(t: Table, k: nat, m: Routes, p: Prefix, d: Addr)
    requires Refines(t, k, m) && 2 <= k == |t|
    requires FirstSame(t, p, 0) < k && t[k - 1].prefix.len == 0
    requires forall i | 0 <= i < k && t[i].prefix.len > 0 :: !(Key(t[i].prefix) <= d)
    ensures Remove(t, p)[k - 1].netif == None
    ensures Gateway(Remove(Remove(t, p), Default()), d) == t[k - 1].gateway
  {
    var pos := FirstSame(t, p, 0);
    forall j | 0 <= j < k - 1 ensures t[j].prefix.len > 0 {
      DistinctPrefixes(t, k, m, j, k - 1);
    }
    RemoveRows(t, k, pos);
    GatewayStays(t, Remove(t, p), pos, d);
  }

  lemma {:induction false} GatewayMap(n: nat, m: Routes, d: Addr)
    requires forall x | 0 < x <= 128 :: Bits(d)[..x] !in m
    ensures MapReply(n, MapAfter(n, m, RemoveOp(Default())), GatewayOp(d)) == Via(None)
  {
    assert Net(Default()) == [] == Bits(d)[..0];
    LongestNone(m - {[]}, Bits(d), 128);
  }

  lemma {:induction false} GatewayStays(t: Table, t1: Table, pos: nat, d: Addr)
    requires |t1| == |t| && pos < |t|
    requires forall j | 0 <= j < |t| - 1 :: t[j].prefix.len > 0 && !(Key(t[j].prefix) <= d)
    requires t[|t| - 1].prefix.len == 0
    requires forall j | 0 <= j < |t| - 1 :: t1[j] == t[if j < pos then j else j + 1]
    requires t1[|t| - 1] == Vacated(t[|t| - 1])
    ensures Gateway(Remove(t1, Default()), d) == t[|t| - 1].gateway
  {
    var n := |t|;
    var c := if pos == n - 1 then n - 1 else n - 2;
    assert c == n - 2 ==> t1[c] == t[n - 1];
    forall j | 0 <= j < c ensures t1[j].prefix.len > 0 && !(Key(t1[j].prefix) <= d) {
      assert t1[j] == t[if j < pos then j else j + 1];
    }
    StaleGateway(t1, c, d);
  }

  /** The default route, or what is left of it, is at `c` and the slot after it is vacated. */
  lemma {:induction false} StaleGateway(t: Table, c: nat, d: Addr)
    requires c < |t| && t[c].prefix.len == 0
    requires || c == |t| - 1
             || (&& c == |t| - 2 && t[c + 1].netif == None
                 && t[c + 1].prefix.len == 0 && t[c + 1].gateway == t[c].gateway)
    requires forall j | 0 <= j < c :: t[j].prefix.len > 0 && !(Key(t[j].prefix) <= d)
    ensures Gateway(Remove(t, Default()), d) == t[c].gateway
  {
    assert Same(Default(), t[c].prefix);
    assert FirstSame(t, Default(), 0) == c;
    assert ShiftEnd(t, c) == c;
    var r := RemoveAt(t, c);
    assert forall j | 0 <= j < c :: r[j] == t[j];
    assert Key(r[c].prefix) == [] <= d;
    assert FirstMatch(r, d, 0) == c;
  }

  /** With a single slot the gateway is found at once. */
  lemma {:induction false} OneSlotDiverges(t: Table, m: Routes, p: Prefix)
    requires Refines(t, 1, m) && |t| == 1 && ValidLen(p.len)
    requires FirstSame(t, p, 0) == 0 && t[0].gateway.Some?
    ensures Diverges(Remove(t, p), m - {Net(p)})
  {
    var t1 := Remove(t, p);
    OneSlotStale(t, p);
    OneSlotEmpties(t, m, p);
    var b := GatewayOp(Zero());
    assert [b][1..] == [];
    assert Guarded(t1, [b]);
    FirstDiffers(t1, m - {Net(p)}, b);
  }

  lemma {:induction false} FirstDiffers(t: Table, m: Routes, b: Op)
    requires t != [] && TableReply(t, b) != MapReply(|t|, m, b)
    ensures !Agrees(t, m, [b])
  {
    assert Replies(t, [b])[0] == TableReply(t, b) && MapReplies(|t|, m, [b])[0] == MapReply(|t|, m, b);
  }

  lemma {:induction false} OneSlotStale(t: Table, p: Prefix)
    requires |t| == 1 && FirstSame(t, p, 0) == 0
    ensures Gateway(Remove(t, p), Zero()) == t[0].gateway
  {
    var t1 := Remove(t, p);
    assert t1[0] == Vacated(t[0]);
    assert Key(t1[0].prefix) <= Zero();
    assert FirstMatch(t1, Zero(), 0) == 0;
  }

  lemma {:induction false} OneSlotEmpties(t: Table, m: Routes, p: Prefix)
    requires Refines(t, 1, m) && FirstSame(t, p, 0) == 0
    ensures MapReply(1, m - {Net(p)}, GatewayOp(Zero())) == Via(None)
  {
    assert Rows(t, 1)[0].key == Net(p);
    forall key | key in m ensures key == Net(p) {
      assert Has(Rows(t, 1), key);
    }
    LongestNone(m - {Net(p)}, Bits(Zero()), 128);
  }

  /** A removal from a table that agrees with the map is harmless, whatever guarded operations
      follow, if and only if the guard holds. */
  lemma {:induction false} RemoveHarmlessIff(t: Table, k: nat, m: Routes, p: Prefix)
    requires Refines(t, k, m) && 1 <= |t| <= 255 && ValidLen(p.len)
    ensures !Diverges(Remove(t, p), m - {Net(p)}) <==> SafeToRemove(t, p)
  {
    if SafeToRemove(t, p) {
      RemoveRefines(t, k, m, p);
      var t1 := Remove(t, p);
      forall ops | Guarded(t1, ops) ensures Agrees(t1, m - {Net(p)}, ops) {
        RunRefinesMap(t1, LiveAfter(|t|, k, m, RemoveOp(p)), m - {Net(p)}, ops);
      }
    } else {
      assert k == |t|;
      if k == 1 {
        OneSlotDiverges(t, m, p);
      } else if t[k - 1].prefix.len > 0 {
        HoleDiverges(t, k, m, p);
      } else {
        GatewayDiverges(t, k, m, p);
      }
    }
  }

  // ------------------------------------------------------------------ the code

  ghost predicate Shifted(t: Table, pos: nat, end: nat, r: Table) {
    && pos <= end < |t| == |r|
    && (forall j | 0 <= j < |t| && (j < pos || end < j) :: r[j] == t[j])
    && (forall j | pos <= j < end :: r[j] == t[j + 1])
    && r[end] == if end < |t| - 1 then t[end + 1] else t[end]
  }

  ghost predicate Zeroed(t: Table, from: nat, r: Table) {
    && |t| == |r|
    && (forall j | 0 <= j < |t| && j < from :: r[j] == t[j])
    && (forall j | from <= j < |t| :: r[j] == Vacated(t[j]))
  }

  lemma {:induction false} InsertedIs(t: Table, i: nat, e: Entry, r: Table)
    requires i < |t| == |r| && r[i] == e
    requires forall j | 0 <= j < i :: r[j] == t[j]
    requires forall j | i < j < |t| :: r[j] == t[j - 1]
    ensures r == Insert(t, i, e)
  {
  }

  lemma {:induction false} RemovedIs(t: Table, pos: nat, t1: Table, t2: Table)
    requires pos < |t| && Shifted(t, pos, ShiftEnd(t, pos), t1) && Zeroed(t1, ShiftEnd(t, pos), t2)
    ensures t2 == RemoveAt(t, pos)
  {
  }

  class StaticRoutes {
    const slots: array<Entry>

    /** The zeroed static array. Indices are `s8_t`, so there are at most 127 slots. */
    constructor (n: nat)
      requires 1 <= n <= 127
      ensures fresh(slots) && slots[..] == Init(n)
    {
      slots := new Entry[n](_ => Entry(Prefix(Zero(), 0), None, None));
      new;
      assert slots[..] == Init(n);
    }

    /** The scan at the head of `ip6_add_route_entry` and `ip6_remove_route_entry`. */
    method Scan(p: Prefix) returns (i: nat)
      ensures i == FirstSame(slots[..], p, 0)
    {
      i := 0;
      while i < slots.Length && !Same(p, slots[i].prefix)
        invariant i <= slots.Length
        invariant FirstSame(slots[..], p, 0) == FirstSame(slots[..], p, i)
      {
        i := i + 1;
      }
    }

    /** `ip6_add_route_entry` */
    method AddEntry(p: Prefix, netif: Option<nat>, gateway: Option<Addr>) returns (err: Err, idx: int)
      requires slots.Length > 0
      modifies slots
      ensures Added(slots[..], err) == Add(old(slots[..]), p, netif, gateway)
      ensures err == Ok ==> 0 <= idx < slots.Length && slots[idx] == Entry(p, netif, gateway)
    {
      if !ValidLen(p.len) || netif == None {
        return Arg, -1;
      }
      var i := Scan(p);
      if i == slots.Length {
        if slots[slots.Length - 1].netif.Some? {
          return Mem, i;
        }
        i := InsertEntry(Entry(p, netif, gateway));
      } else {
        slots[i] := Entry(p, netif, gateway);
      }
      err, idx := Ok, i;
    }

    /** Moves shorter prefixes down, from the last slot up, and fills the slot that is left. */
    method InsertEntry(e: Entry) returns (i: nat)
      requires slots.Length > 0
      modifies slots
      ensures i == SlotFor(old(slots[..]), e.prefix.len, slots.Length - 1) < slots.Length
      ensures slots[..] == Insert(old(slots[..]), i, e)
    {
      ghost var before := slots[..];
      i := slots.Length - 1;
      while i > 0 && e.prefix.len > slots[i - 1].prefix.len
        invariant i < slots.Length
        invariant SlotFor(before, e.prefix.len, slots.Length - 1) == SlotFor(before, e.prefix.len, i)
        invariant forall j | 0 <= j <= i :: slots[j] == before[j]
        invariant forall j | i < j < slots.Length :: slots[j] == before[j - 1]
      {
        slots[i] := slots[i - 1];
        i := i - 1;
      }
      slots[i] := e;
      InsertedIs(before, i, e, slots[..]);
    }

    /** `ip6_remove_route_entry` */
    method RemoveEntry(p: Prefix)
      modifies slots
      ensures slots[..] == Remove(old(slots[..]), p)
    {
      var pos := Scan(p);
      if pos < slots.Length {
        ghost var before := slots[..];
        var i := ShiftUp(pos);
        ghost var shifted := slots[..];
        ZeroFrom(i);
        RemovedIs(before, pos, shifted, slots[..]);
      }
    }

    /** Moves slots up over `pos`, up to and including the first empty one. */
    method ShiftUp(pos: nat) returns (i: nat)
      requires pos < slots.Length
      modifies slots
      ensures i == ShiftEnd(old(slots[..]), pos) && Shifted(old(slots[..]), pos, i, slots[..])
    {
      ghost var before := slots[..];
      i := pos;
      while i < slots.Length - 1
        invariant pos <= i < slots.Length
        invariant ShiftEnd(before, pos) == ShiftEnd(before, i)
        invariant forall j | 0 <= j < pos :: slots[j] == before[j]
        invariant forall j | pos <= j < i :: slots[j] == before[j + 1]
        invariant forall j | i <= j < slots.Length :: slots[j] == before[j]
      {
        slots[i] := slots[i + 1];
        if slots[i].netif == None {
          return;
        }
        i := i + 1;
      }
    }

    method ZeroFrom(from: nat)
      requires from <= slots.Length
      modifies slots
      ensures Zeroed(old(slots[..]), from, slots[..])
    {
      ghost var before := slots[..];
      var i := from;
      while i < slots.Length
        invariant from <= i <= slots.Length
        invariant forall j | 0 <= j < from || i <= j < slots.Length :: slots[j] == before[j]
        invariant forall j | from <= j < i :: slots[j] == Vacated(before[j])
      {
        slots[i] := Vacated(slots[i]);
        i := i + 1;
      }
    }

    /** `ip6_find_route_entry` */
    method FindEntry(d: Addr) returns (idx: int)
      ensures var i := FirstMatch(slots[..], d, 0); idx == if i < slots.Length then i else -1
    {
      var i := 0;
      while i < slots.Length
        invariant i <= slots.Length
        invariant FirstMatch(slots[..], d, 0) == FirstMatch(slots[..], d, i)
      {
        if Key(slots[i].prefix) <= d {
          return i;
        }
        i := i + 1;
      }
      return -1;
    }

    /** `ip6_static_route` */
    method StaticRoute(d: Addr) returns (netif: Option<nat>)
      ensures netif == Route(slots[..], d)
    {
      var i := FindEntry(d);
      netif := if i >= 0 then slots[i].netif else None;
    }

    /** `ip6_get_gateway` */
    method GetGateway(d: Addr) returns (gateway: Option<Addr>)
      ensures gateway == Gateway(slots[..], d)
    {
      var i := FindEntry(d);
      gateway := if i >= 0 then slots[i].gateway else None;
    }
  }
}
