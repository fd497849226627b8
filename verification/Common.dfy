/** Types shared by every module: optional values, results and wire bytes. */
module Common {
  datatype Option<+T> = None | Some(value: T)

  datatype Result<+T, +E> = Ok(value: T) | Err(error: E)

  newtype byte = x: int | 0 <= x < 256

  type Bytes = seq<byte>

  const TWO_32: int := 0x1_0000_0000
  const TWO_64: int := 0x1_0000_0000_0000_0000

  /** The values of a Rust `u64`. */
  type u64 = n: nat | n < TWO_64

  /** The values of a Rust `u32`. */
  type u32 = n: nat | n < TWO_32

  /** A disconnect: close code, reason and whether the client may reconnect. */
  datatype Disconnect = Disconnect(code: u32, reason: string, reconnect: bool)

  /** An item queued to a connection's writer task. */
  datatype Out<+F> = Frame(frame: F) | Close(disconnect: Disconnect)

  /** All chunks one after the other. */
  function Concat<T>(chunks: seq<seq<T>>): seq<T> {
    if chunks == [] then [] else chunks[0] + Concat(chunks[1..])
  }

  lemma Associates<T>(a: seq<T>, b: seq<T>, c: seq<T>)
    ensures (a + b) + c == a + (b + c)
  {
  }

  lemma {:induction false} ConcatAppend<T>(a: seq<seq<T>>, b: seq<seq<T>>)
    ensures Concat(a + b) == Concat(a) + Concat(b)
  {
    if a == [] {
      assert a + b == b;
    } else {
      ConcatAppend(a[1..], b);
      assert (a + b)[0] == a[0] && (a + b)[1..] == a[1..] + b;
      Associates(a[0], Concat(a[1..]), Concat(b));
    }
  }
}
