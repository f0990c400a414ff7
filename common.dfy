/** Shared value types of the voice-chat client: optional values, results with an
    error message, and the `Math.max(lo, Math.min(hi, x))` clamp the client uses for
    volumes, levels and timeouts. */
module Common {

  /** A JavaScript value that may be `null` / `undefined`. */
  datatype Option<T> = None | Some(value: T) {
    /** `x ?? d` */
    function GetOr(default: T): T {
      match this
      case Some(v) => v
      case None => default
    }
  }

  /** A resolved (`Ok`) or rejected / thrown (`Err`) outcome. */
  datatype Result<T> = Ok(value: T) | Err(message: string)

  /** Raw binary data (a `Blob` or an `ArrayBuffer`). */
  type Bytes = seq<bv8>

  /** `Math.max(lo, Math.min(hi, x))` over reals. */
  function ClampReal(lo: real, hi: real, x: real): (r: real)
    requires lo <= hi
    ensures lo <= r <= hi
    ensures lo <= x <= hi ==> r == x
    ensures x < lo ==> r == lo
    ensures hi < x ==> r == hi
  {
    var m := if hi < x then hi else x;
    if m < lo then lo else m
  }

  /** `Math.max(lo, Math.min(hi, x))` over integers: the integer instance of `ClampReal`,
      written out again because Dafny has no function generic over numeric types. */
  function ClampInt(lo: int, hi: int, x: int): (r: int)
    requires lo <= hi
    ensures lo <= r <= hi
    ensures lo <= x <= hi ==> r == x
    ensures x < lo ==> r == lo
    ensures hi < x ==> r == hi
  {
    var m := if hi < x then hi else x;
    if m < lo then lo else m
  }

  /** Concatenation of a sequence of byte buffers (`new Blob(chunks)`). */
  function Flatten(chunks: seq<Bytes>): (r: Bytes)
    ensures chunks != [] ==> |chunks[0]| <= |r| && r[..|chunks[0]|] == chunks[0]
    ensures forall i | 0 <= i < |chunks| :: |chunks[i]| <= |r|
  {
    if chunks == [] then [] else chunks[0] + Flatten(chunks[1..])
  }

  /** Sum of the sizes of a sequence of byte buffers. */
  function TotalSize(chunks: seq<Bytes>): nat
  {
    if chunks == [] then 0 else |chunks[0]| + TotalSize(chunks[1..])
  }

  /** The concatenated buffer is exactly as long as the chunks together. */
  lemma {:induction false} FlattenSize(chunks: seq<Bytes>)
    ensures |Flatten(chunks)| == TotalSize(chunks)
  {
    if chunks != [] {
      FlattenSize(chunks[1..]);
    }
  }

  /** Flattening distributes over concatenation of chunk lists, so the bytes keep
      the order in which the chunks arrived. */
  lemma {:induction false} FlattenAppend(a: seq<Bytes>, b: seq<Bytes>)
    ensures Flatten(a + b) == Flatten(a) + Flatten(b)
  {
    if a == [] {
      assert a + b == b;
    } else {
      assert (a + b)[1..] == a[1..] + b;
      FlattenAppend(a[1..], b);
    }
  }

  /** The text a sequence of string pieces makes together (what repeated `+=` builds). */
  function Concat(pieces: seq<string>): string
  {
    if pieces == [] then "" else pieces[0] + Concat(pieces[1..])
  }

  /** The text of a run of pieces is the text of its parts. */
  lemma {:induction false} ConcatAppend(a: seq<string>, b: seq<string>)
    ensures Concat(a + b) == Concat(a) + Concat(b)
  {
    if a == [] {
      assert a + b == b;
    } else {
      assert (a + b)[1..] == a[1..] + b;
      ConcatAppend(a[1..], b);
    }
  }
}
