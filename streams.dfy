/** Sequential byte streams the codec reads from and appends to, and the
    big-endian 16-bit packing it uses on them. */
module Streams {
  import opened Errors

  /** Big-endian value of the first two bytes of b. */
  function U16FromBigEndian(b: seq<bv8>): (v: bv16)
    requires |b| >= 2
    ensures (v >> 8) as bv8 == b[0] && (v & 0xff) as bv8 == b[1]
  {
    ((b[0] as bv16) << 8) | (b[1] as bv16)
  }

  /** The two bytes of v, most significant first. */
  function U16ToBigEndian(v: bv16): (b: seq<bv8>)
    ensures |b| == 2 && U16FromBigEndian(b) == v
  {
    [(v >> 8) as bv8, (v & 0xff) as bv8]
  }

  /** Stores v big-endian into the first two cells of buf. */
  method WriteU16BigEndianInto(buf: array<bv8>, v: bv16)
    requires buf.Length >= 2
    modifies buf
    ensures buf[0] == U16ToBigEndian(v)[0] && buf[1] == U16ToBigEndian(v)[1]
    ensures forall i :: 2 <= i < buf.Length ==> buf[i] == old(buf[i])
  {
    var b := U16ToBigEndian(v);
    buf[0] := b[0];
    buf[1] := b[1];
  }

  /** A readable source over a fixed byte sequence with a read position. */
  class Reader {
    const data: seq<bv8>
    var pos: nat

    ghost predicate Valid()
      reads this
    {
      pos <= |data|
    }

    constructor (data: seq<bv8>)
      ensures Valid()
      ensures this.data == data && pos == 0
    {
      this.data := data;
      pos := 0;
    }

    /** Fills buf with the next buf.Length bytes, or fails if fewer remain.
        Where the position is left after a failure is not promised beyond
        "not before where it was". */
    method ReadExact(buf: array<bv8>) returns (r: Result<(), IoErrorKind>)
      requires Valid()
      modifies this`pos, buf
      ensures Valid()
      ensures r.Ok? <==> old(pos) + buf.Length <= |data|
      ensures r.Ok? ==> pos == old(pos) + buf.Length && buf[..] == data[old(pos)..pos]
      ensures r.Err? ==> r.error == UnexpectedEof && old(pos) <= pos
    {
      if pos + buf.Length > |data| {
        return Err(UnexpectedEof);
      }
      forall i | 0 <= i < buf.Length {
        buf[i] := data[pos + i];
      }
      pos := pos + buf.Length;
      r := Ok(());
    }

    /** Reads a big-endian 16-bit value. */
    method ReadU16BigEndian() returns (r: Result<bv16, IoErrorKind>)
      requires Valid()
      modifies this`pos
      ensures Valid()
      ensures r.Ok? <==> old(pos) + 2 <= |data|
      ensures r.Ok? ==> pos == old(pos) + 2 && r.value == U16FromBigEndian(data[old(pos)..pos])
      ensures r.Err? ==> r.error == UnexpectedEof && old(pos) <= pos
    {
      var buf := new bv8[2];
      var rx := ReadExact(buf);
      if rx.Err? {
        return Err(rx.error);
      }
      r := Ok(U16FromBigEndian(buf[..]));
    }
  }

  /** A sink that keeps everything written to it, in order. */
  class Writer {
    var out: seq<bv8>

    constructor ()
      ensures out == []
    {
      out := [];
    }

    /** Appends every byte of buf. */
    method WriteAll(buf: array<bv8>)
      modifies this
      ensures out == old(out) + buf[..]
    {
      out := out + buf[..];
    }

    /** Appends v big-endian. */
    method WriteU16BigEndian(v: bv16)
      modifies this
      ensures out == old(out) + U16ToBigEndian(v)
    {
      out := out + U16ToBigEndian(v);
    }
  }
}
