/** Types shared by the models: lwIP's error codes, bytes, optional values and
    the concatenation of a list of buffers. */
module Lwip {

  type byte = x: int | 0 <= x < 256

  type u16 = x: int | 0 <= x < 0x1_0000

  datatype Option<+T> = None | Some(value: T)

  /** The constants of err.h. */
  datatype Err =
    | Ok | Mem | Buf | Timeout | Rte | InProgress | Val | WouldBlock | Use
    | Already | IsConn | NotConn | If | Abrt | Rst | Clsd | Arg

  /** The bytes of a list of buffers, in order. */
  function Flatten<T>(bufs: seq<seq<T>>): (r: seq<T>)
  {
    if bufs == [] then [] else bufs[0] + Flatten(bufs[1..])
  }

  lemma {:induction false} FlattenAppend<T>(a: seq<seq<T>>, b: seq<seq<T>>)
    ensures Flatten(a + b) == Flatten(a) + Flatten(b)
  {
    if a == [] {
      assert a + b == b;
    } else {
      assert (a + b)[1..] == a[1..] + b;
      FlattenAppend(a[1..], b);
    }
  }

  lemma {:induction false} FlattenOne<T>(buf: seq<T>)
    ensures Flatten([buf]) == buf
  {
    assert Flatten([buf]) == buf + Flatten<T>([]);
  }

  /** One more buffer. */
  lemma {:induction false} FlattenNext<T>(bufs: seq<seq<T>>, k: nat)
    requires k < |bufs|
    ensures Flatten(bufs[..k + 1]) == Flatten(bufs[..k]) + bufs[k]
  {
    assert bufs[..k + 1] == bufs[..k] + [bufs[k]];
    FlattenAppend(bufs[..k], [bufs[k]]);
    FlattenOne(bufs[k]);
  }

  /** The buffers before and after position `k`. */
  lemma {:induction false} FlattenCut<T>(bufs: seq<seq<T>>, k: nat)
    requires k <= |bufs|
    ensures Flatten(bufs) == Flatten(bufs[..k]) + Flatten(bufs[k..])
  {
    assert bufs == bufs[..k] + bufs[k..];
    FlattenAppend(bufs[..k], bufs[k..]);
  }

  /** Splitting off the buffer at position `k`. */
  lemma {:induction false} FlattenSplit<T>(bufs: seq<seq<T>>, k: nat)
    requires k < |bufs|
    ensures Flatten(bufs) == Flatten(bufs[..k]) + bufs[k] + Flatten(bufs[k + 1..])
  {
    FlattenCut(bufs, k + 1);
    FlattenNext(bufs, k);
  }

  function Min(a: int, b: int): int { if a < b then a else b }
}
