/** Byte transport: `send`, `command` and `data`.  A call sets the D/C line
    once and then writes its payload to SPI in bounded chunks; the effects
    are recorded as an event trace. */
module Transport {
  import opened Bytes

  /** The default `chunk_size` of `send`, the only one the driver uses. */
  const CHUNK_SIZE := 4096

  /** Effects on the hardware, in the order they happen. */
  datatype Event =
    | SetDc(level: bool)          // D/C line: false selects command, true data
    | SpiWrite(bytes: seq<int>)   // one SPI transaction
    | Pin(pin: int, level: bool)  // another GPIO line (the reset pin)
    | Sleep(ms: nat)              // a blocking delay

  /** The argument of `send`: a number or a list of byte values. */
  datatype Payload = Scalar(value: int) | Sequence(items: seq<int>)

  /** The list `send` writes: a number becomes `[value & 0xFF]`; a list is
      written as given, unmasked. */
  function Normalize(p: Payload): seq<int> {
    match p
    case Scalar(v) => [Mask(v)]
    case Sequence(items) => items
  }

  /** The chunks written one after the other, as one stream. */
  function Concat(cs: seq<seq<int>>): seq<int>
    decreases |cs|
  {
    if |cs| == 0 then [] else cs[0] + Concat(cs[1..])
  }

  /** The slices `data[start:end]` of `for start in range(0, len(data), size)`
      with `end = min(start + size, len(data))`.  A negative `size` makes the
      range empty; a zero `size` makes Python raise, so it is excluded. */
  function Chunks(data: seq<int>, size: int): (cs: seq<seq<int>>)
    requires size != 0
    ensures size < 0 || |data| == 0 ==> cs == []
    ensures forall i :: 0 <= i < |cs| ==> 0 < |cs[i]| <= size
    ensures size > 0 ==> Concat(cs) == data
    decreases |data|
  {
    if size < 0 || |data| == 0 then []
    else
      var n := if size < |data| then size else |data|;
      var rest := Chunks(data[n..], size);
      var cs := [data[..n]] + rest;
      assert cs[1..] == rest;
      assert data[..n] + data[n..] == data;
      cs
  }

  /** All chunks but the last are full: `(count - 1) * size < len <= count * size`. */
  lemma {:induction false} ChunkBounds(data: seq<int>, size: int)
    requires size > 0 && |data| > 0
    ensures (|Chunks(data, size)| - 1) * size < |data| <= |Chunks(data, size)| * size
    decreases |data|
  {
    if size < |data| {
      var rest := data[size..];
      var k := |Chunks(rest, size)|;
      assert |Chunks(data, size)| == k + 1;
      ChunkBounds(rest, size);
      MulSucc(k - 1, size);
      MulSucc(k, size);
    } else {
      assert |Chunks(data, size)| == 1;
    }
  }

  /** Turns the bounds of `ChunkBounds` into a ceiling division. */
  lemma CeilingFromBounds(len: int, size: int, c: int)
    requires size > 0 && len > 0
    requires (c - 1) * size < len <= c * size
    ensures (len + size - 1) / size == c
  {
    assert (c - 1) * size + size == c * size;
    assert c * size + size == (c + 1) * size;
    QuotientUnique(len + size - 1, size, c);
  }

  /** The number of SPI writes is `ceil(len / size)`. */
  lemma ChunkCount(data: seq<int>, size: int)
    requires size > 0
    ensures |Chunks(data, size)| == (|data| + size - 1) / size
  {
    if |data| == 0 {
      QuotientUnique(size - 1, size, 0);
    } else {
      ChunkBounds(data, size);
      CeilingFromBounds(|data|, size, |Chunks(data, size)|);
    }
  }

  /** The loop of `send`, statement by statement: the same writes as `Chunks`.
      `start` steps to `end`, which is `start + size` on every turn but the
      last, so it takes the values `range(0, len(data), size)` takes. */
  method ChunkWrites(data: seq<int>, size: int) returns (writes: seq<seq<int>>)
    requires size != 0
    ensures writes == Chunks(data, size)
    ensures size > 0 ==> Concat(writes) == data
  {
    writes := [];
    if size > 0 {
      var start := 0;
      assert data[start..] == data;
      while start < |data|
        invariant 0 <= start <= |data|
        invariant writes + Chunks(data[start..], size) == Chunks(data, size)
        decreases |data| - start
      {
        var end := if start + size < |data| then start + size else |data|;
        var chunk := data[start..end];
        ChunkStep(data, size, start, end, writes);
        writes, start := writes + [chunk], end;
      }
      assert writes + [] == writes;
    }
  }

  /** One turn of the loop keeps the invariant. */
  lemma ChunkStep(data: seq<int>, size: int, start: nat, end: nat, writes: seq<seq<int>>)
    requires size > 0 && start < |data|
    requires end == (if start + size < |data| then start + size else |data|)
    requires writes + Chunks(data[start..], size) == Chunks(data, size)
    ensures (writes + [data[start..end]]) + Chunks(data[end..], size) == Chunks(data, size)
  {
    var tail := data[start..];
    var chunk := data[start..end];
    assert tail[..end - start] == chunk;
    assert tail[end - start..] == data[end..];
    var rest := Chunks(data[end..], size);
    assert Chunks(tail, size) == [chunk] + rest;
    assert (writes + [chunk]) + rest == writes + ([chunk] + rest);
  }

  /** One `SpiWrite` event per chunk. */
  function Writes(cs: seq<seq<int>>): seq<Event> {
    seq(|cs|, i requires 0 <= i < |cs| => SpiWrite(cs[i]))
  }

  /** Everything a trace writes to SPI, in order. */
  function Written(t: seq<Event>): seq<int>
    decreases |t|
  {
    if |t| == 0 then [] else (if t[0].SpiWrite? then t[0].bytes else []) + Written(t[1..])
  }

  /** The delays of a trace, in order. */
  function Delays(t: seq<Event>): seq<nat>
    decreases |t|
  {
    if |t| == 0 then [] else (if t[0].Sleep? then [t[0].ms] else []) + Delays(t[1..])
  }

  /** The GPIO pin changes of a trace other than D/C, in order. */
  function PinChanges(t: seq<Event>): seq<(int, bool)>
    decreases |t|
  {
    if |t| == 0 then [] else (if t[0].Pin? then [(t[0].pin, t[0].level)] else []) + PinChanges(t[1..])
  }

  /** The observers distribute over concatenation of traces. */
  lemma ObserversAppend(a: seq<Event>, b: seq<Event>)
    ensures Written(a + b) == Written(a) + Written(b)
    ensures Delays(a + b) == Delays(a) + Delays(b)
    ensures PinChanges(a + b) == PinChanges(a) + PinChanges(b)
  {
    WrittenAppend(a, b);
    DelaysAppend(a, b);
    PinChangesAppend(a, b);
  }

  /** The octets written by concatenated traces are concatenated. */
  lemma {:induction false} WrittenAppend(a: seq<Event>, b: seq<Event>)
    ensures Written(a + b) == Written(a) + Written(b)
    decreases |a|
  {
    if |a| == 0 {
      assert a + b == b;
    } else {
      assert (a + b)[0] == a[0];
      assert (a + b)[1..] == a[1..] + b;
      WrittenAppend(a[1..], b);
      var head := if a[0].SpiWrite? then a[0].bytes else [];
      assert Written(a + b) == head + Written(a[1..] + b);
      assert Written(a) == head + Written(a[1..]);
      assert head + (Written(a[1..]) + Written(b)) == (head + Written(a[1..])) + Written(b);
    }
  }

  /** The delays of concatenated traces are concatenated. */
  lemma {:induction false} DelaysAppend(a: seq<Event>, b: seq<Event>)
    ensures Delays(a + b) == Delays(a) + Delays(b)
    decreases |a|
  {
    if |a| == 0 {
      assert a + b == b;
    } else {
      assert (a + b)[0] == a[0];
      assert (a + b)[1..] == a[1..] + b;
      DelaysAppend(a[1..], b);
      var head := if a[0].Sleep? then [a[0].ms] else [];
      assert Delays(a + b) == head + Delays(a[1..] + b);
      assert Delays(a) == head + Delays(a[1..]);
      assert head + (Delays(a[1..]) + Delays(b)) == (head + Delays(a[1..])) + Delays(b);
    }
  }

  /** The pin changes of concatenated traces are concatenated. */
  lemma {:induction false} PinChangesAppend(a: seq<Event>, b: seq<Event>)
    ensures PinChanges(a + b) == PinChanges(a) + PinChanges(b)
    decreases |a|
  {
    if |a| == 0 {
      assert a + b == b;
    } else {
      assert (a + b)[0] == a[0];
      assert (a + b)[1..] == a[1..] + b;
      PinChangesAppend(a[1..], b);
      var head := if a[0].Pin? then [(a[0].pin, a[0].level)] else [];
      assert PinChanges(a + b) == head + PinChanges(a[1..] + b);
      assert PinChanges(a) == head + PinChanges(a[1..]);
      assert head + (PinChanges(a[1..]) + PinChanges(b)) == (head + PinChanges(a[1..])) + PinChanges(b);
    }
  }

  /** The writes of a list of chunks carry the chunks' bytes and nothing else. */
  lemma {:induction false} ObserveWrites(cs: seq<seq<int>>)
    ensures Written(Writes(cs)) == Concat(cs)
    ensures Delays(Writes(cs)) == [] && PinChanges(Writes(cs)) == []
    decreases |cs|
  {
    if |cs| > 0 {
      assert Writes(cs)[1..] == Writes(cs[1..]);
      ObserveWrites(cs[1..]);
    }
  }

  /** `send(data, is_data, chunk_size)`: one D/C event with level `is_data`,
      first, followed only by SPI writes of at most `chunk_size` octets that
      together carry the payload; a number goes out as the single octet
      congruent to it modulo 256. */
  function Send(data: Payload, isData: bool, chunkSize: int): (t: seq<Event>)
    requires chunkSize != 0
    ensures |t| >= 1 && t[0] == SetDc(isData)
    ensures forall i :: 1 <= i < |t| ==> t[i].SpiWrite? && 0 < |t[i].bytes| <= chunkSize
    ensures chunkSize > 0 ==> Written(t) == Normalize(data)
    ensures Delays(t) == [] && PinChanges(t) == []
    ensures chunkSize > 0 && data.Scalar? ==>
      |t| == 2 && |t[1].bytes| == 1 && 0 <= t[1].bytes[0] < 256 && (data.value - t[1].bytes[0]) % 256 == 0
  {
    var cs := Chunks(Normalize(data), chunkSize);
    var t := [SetDc(isData)] + Writes(cs);
    assert t[1..] == Writes(cs);
    ObserveWrites(cs);
    t
  }

  /** `command(data)`: `send` with D/C low. */
  function Command(data: Payload): seq<Event> {
    Send(data, false, CHUNK_SIZE)
  }

  /** `data(data)`: `send` with D/C high. */
  function Data(data: Payload): seq<Event> {
    Send(data, true, CHUNK_SIZE)
  }
}
