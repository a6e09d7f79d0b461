/** What the VLAN tag codec promises across its operations: write and read
    are inverse, the wire layout packs the sub-byte fields without overlap,
    the slice views agree with the stream decoder, and the double-tag forms
    are the single-tag forms side by side. */
module VlanTaggingProperties {
  import opened Errors
  import opened Streams
  import opened VlanTagging

  /** Byte 0 of a written tag: the shifted priority code point, the drop
      eligible bit and the top four VLAN identifier bits occupy disjoint
      bits, so each field can be read back from its own bits. */
  lemma TagControlLayout(h: SingleVlanHeader)
    requires h.InRange()
    ensures var pcp, dei, vidHigh :=
              h.priorityCodePoint << 5,
              (if h.dropEligibleIndicator then 0x10 else 0) as bv8,
              (h.vlanIdentifier >> 8) as bv8;
      && h.ToBytes()[0] == pcp | dei | vidHigh
      && pcp & dei == 0 && pcp & vidHigh == 0 && dei & vidHigh == 0
      && h.ToBytes()[0] >> 5 == h.priorityCodePoint
      && ((h.ToBytes()[0] & 0x10) != 0 <==> h.dropEligibleIndicator)
      && h.ToBytes()[0] & 0xf == vidHigh
      && h.ToBytes()[1] == (h.vlanIdentifier & 0xff) as bv8
      && h.ToBytes()[2..] == U16ToBigEndian(h.etherType)
  {
  }

  /** Viewing the bytes of a written in-range tag gives back every field
      and the whole header. */
  lemma {:induction false} SingleSliceOfWritten(h: SingleVlanHeader)
    requires h.InRange()
    ensures SingleVlanHeaderSlice.FromSlice(h.ToBytes()) == Ok(SingleVlanHeaderSlice(h.ToBytes()))
    ensures var view := SingleVlanHeaderSlice(h.ToBytes());
      && view.PriorityCodePoint() == h.priorityCodePoint
      && view.DropEligibleIndicator() == h.dropEligibleIndicator
      && view.VlanIdentifier() == h.vlanIdentifier
      && view.EtherType() == h.etherType
      && view.ToHeader() == h
  {
    var b := h.ToBytes();
    assert b[..SingleSerializedSize] == b;
    var view := SingleVlanHeaderSlice(b);
    ToBytesInjective(view.ToHeader(), h);
  }

  /** Distinct in-range tags are written as distinct bytes. */
  lemma {:induction false} ToBytesInjective(h1: SingleVlanHeader, h2: SingleVlanHeader)
    requires h1.InRange() && h2.InRange()
    ensures h1.ToBytes() == h2.ToBytes() <==> h1 == h2
  {
    if h1.ToBytes() == h2.ToBytes() {
      TagControlLayout(h1);
      TagControlLayout(h2);
      assert h1.ToBytes()[2..] == h2.ToBytes()[2..];
    }
  }

  /** Write and the slice decoder are inverse on all four-byte inputs and
      all in-range headers: in-range headers and four-byte sequences are in
      one-to-one correspondence. */
  lemma {:induction false} SingleBytesCorrespondence(h: SingleVlanHeader, b: seq<bv8>)
    requires h.InRange() && |b| == SingleSerializedSize
    ensures h.ToBytes() == b <==> SingleVlanHeaderSlice(b).ToHeader() == h
  {
    SingleSliceOfWritten(h);
  }

  /** A slice view depends on the first four bytes only. */
  lemma {:induction false} SingleFromSliceIgnoresTrailing(input: seq<bv8>, trailing: seq<bv8>)
    requires |input| >= SingleSerializedSize
    ensures SingleVlanHeaderSlice.FromSlice(input + trailing) == SingleVlanHeaderSlice.FromSlice(input)
  {
    assert (input + trailing)[..SingleSerializedSize] == input[..SingleSerializedSize];
  }

  /** A double view depends on the first eight bytes only. */
  lemma {:induction false} DoubleFromSliceIgnoresTrailing(input: seq<bv8>, trailing: seq<bv8>)
    requires |input| >= DoubleSerializedSize
    ensures DoubleVlanHeaderSlice.FromSlice(input + trailing) == DoubleVlanHeaderSlice.FromSlice(input)
  {
    assert (input + trailing)[..DoubleSerializedSize] == input[..DoubleSerializedSize];
  }

  /** The double view decodes bytes 0..4 as the outer tag and bytes 4..8 as
      the inner tag, each exactly as a single view of those bytes would. */
  lemma {:induction false} DoubleSliceIsTwoSingleSlices(input: seq<bv8>)
    requires |input| >= DoubleSerializedSize
    ensures var double := DoubleVlanHeaderSlice.FromSlice(input);
      var outer := SingleVlanHeaderSlice.FromSlice(input);
      var inner := SingleVlanHeaderSlice.FromSlice(input[SingleSerializedSize..]);
      && double.Ok? && outer.Ok? && inner.Ok?
      && double.value.ToHeader() == DoubleVlanHeader(outer.value.ToHeader(), inner.value.ToHeader())
  {
    var view := DoubleVlanHeaderSlice(input[..DoubleSerializedSize]);
    assert view.Outer().slice == input[..SingleSerializedSize];
    assert view.Inner().slice == input[SingleSerializedSize..][..SingleSerializedSize];
  }

  /** Viewing the bytes of a written double header gives it back, whatever
      the outer ether type: the view checks no tag protocol identifier. */
  lemma {:induction false} DoubleSliceOfWritten(h: DoubleVlanHeader)
    requires h.InRange()
    ensures DoubleVlanHeaderSlice.FromSlice(h.ToBytes()) == Ok(DoubleVlanHeaderSlice(h.ToBytes()))
    ensures var view := DoubleVlanHeaderSlice(h.ToBytes());
      && view.Outer().ToHeader() == h.outer
      && view.Inner().ToHeader() == h.inner
      && view.ToHeader() == h
  {
    var b := h.ToBytes();
    assert b[..DoubleSerializedSize] == b;
    var view := DoubleVlanHeaderSlice(b);
    SingleSliceOfWritten(h.outer);
    SingleSliceOfWritten(h.inner);
    assert view.Outer().slice == h.outer.ToBytes();
    assert view.Inner().slice == h.inner.ToBytes();
  }

  /** The tag with priority code point 2, drop eligible, VLAN 1234 and ether
      type IPv4 is written as 54 D2 08 00. */
  lemma WrittenExample()
    ensures SingleVlanHeader(2, true, 1234, 0x0800).ToBytes() == [0x54, 0xd2, 0x08, 0x00]
  {
  }

  /** A double view whose outer ether type is provider bridging (0x88a8)
      rather than VlanTaggedFrame still decodes. */
  lemma ProviderBridgingOuterAccepted()
    ensures var h := DoubleVlanHeader(SingleVlanHeader(2, true, 1234, 0x88a8), SingleVlanHeader(7, false, 4095, 0x86dd));
      && DoubleVlanHeaderSlice.FromSlice(h.ToBytes()).Ok?
      && DoubleVlanHeaderSlice.FromSlice(h.ToBytes()).value.ToHeader() == h
  {
    var h := DoubleVlanHeader(SingleVlanHeader(2, true, 1234, 0x88a8), SingleVlanHeader(7, false, 4095, 0x86dd));
    DoubleSliceOfWritten(h);
  }

  /** Writing an in-range tag into an empty writer and reading it back from
      the written bytes returns the same tag, consuming exactly four bytes. */
  method WriteThenReadSingle(h: SingleVlanHeader)
    returns (wrote: Result<(), WriteError>, written: seq<bv8>, decoded: Result<SingleVlanHeader, IoErrorKind>, consumed: nat)
    requires h.InRange()
    ensures wrote == Ok(())
    ensures |written| == SingleSerializedSize
    ensures decoded == Ok(h) && consumed == SingleSerializedSize
  {
    var writer := new Writer();
    wrote := WriteSingleHeader(h, writer);
    written := writer.out;
    var reader := new Reader(written);
    decoded := ReadSingleHeader(reader);
    consumed := reader.pos;
    assert written[0..SingleSerializedSize] == h.ToBytes();
    SingleSliceOfWritten(h);
  }

  /** Writing an out-of-range tag reports the first offending field and
      leaves an empty writer empty. */
  method WriteOutOfRangeSingle(h: SingleVlanHeader) returns (written: seq<bv8>, result: Result<(), WriteError>)
    requires !h.InRange()
    ensures written == []
    ensures h.priorityCodePoint > 7 ==>
      result == Err(ValueError(U8TooLarge(h.priorityCodePoint, 7, VlanTagPriorityCodePoint)))
    ensures h.priorityCodePoint <= 7 ==>
      result == Err(ValueError(U16TooLarge(h.vlanIdentifier, 0xfff, VlanTagVlanId)))
  {
    var writer := new Writer();
    result := WriteSingleHeader(h, writer);
    written := writer.out;
  }

  /** Writing an in-range double header whose outer ether type is
      VlanTaggedFrame and reading it back returns the same header,
      consuming exactly eight bytes. */
  method WriteThenReadDouble(h: DoubleVlanHeader)
    returns (wrote: Result<(), WriteError>, written: seq<bv8>, decoded: Result<DoubleVlanHeader, ReadError>, consumed: nat)
    requires h.InRange() && h.outer.etherType == VlanTaggedFrame
    ensures wrote == Ok(())
    ensures |written| == DoubleSerializedSize
    ensures decoded == Ok(h) && consumed == DoubleSerializedSize
  {
    var writer := new Writer();
    wrote := WriteDoubleHeader(h, writer);
    written := writer.out;
    assert written == h.ToBytes();
    SingleSliceOfWritten(h.outer);
    DoubleSliceOfWritten(h);
    assert SingleVlanHeaderSlice(written[0..SingleSerializedSize]).EtherType() == VlanTaggedFrame;
    assert written[0..DoubleSerializedSize] == written;
    var reader := new Reader(written);
    decoded := ReadDoubleHeader(reader);
    consumed := reader.pos;
  }

  /** Writing an in-range double header whose outer ether type is not
      VlanTaggedFrame succeeds, but reading it back fails with that ether
      type after consuming the outer tag only. */
  method WriteThenReadWrongOuterTpid(h: DoubleVlanHeader)
    returns (wrote: Result<(), WriteError>, written: seq<bv8>, decoded: Result<DoubleVlanHeader, ReadError>, consumed: nat)
    requires h.InRange() && h.outer.etherType != VlanTaggedFrame
    ensures wrote == Ok(())
    ensures |written| == DoubleSerializedSize
    ensures decoded == Err(VlanDoubleTaggingUnexpectedOuterTpid(h.outer.etherType))
    ensures consumed == SingleSerializedSize
  {
    var writer := new Writer();
    wrote := WriteDoubleHeader(h, writer);
    written := writer.out;
    var reader := new Reader(written);
    decoded := ReadDoubleHeader(reader);
    consumed := reader.pos;
    assert written[0..SingleSerializedSize] == h.outer.ToBytes();
    SingleSliceOfWritten(h.outer);
  }

  /** When the outer tag is in range and the inner is not, a double write
      into an empty writer leaves the outer tag's bytes and reports the
      inner tag's error. */
  method WriteDoubleInnerOutOfRange(h: DoubleVlanHeader) returns (written: seq<bv8>, result: Result<(), WriteError>)
    requires h.outer.InRange() && !h.inner.InRange()
    ensures |written| == SingleSerializedSize
    ensures SingleVlanHeaderSlice(written).ToHeader() == h.outer
    ensures result.Err? && result == h.inner.CheckRanges()
  {
    var writer := new Writer();
    result := WriteDoubleHeader(h, writer);
    written := writer.out;
    SingleSliceOfWritten(h.outer);
  }
}
