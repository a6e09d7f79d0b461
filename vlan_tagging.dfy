/** IEEE 802.1Q VLAN tagging headers (clause 9.6 of IEEE 802.1Q): the owned
    single and double (IEEE 802.1ad Q-in-Q) headers with their stream
    decoders and validating stream encoders, and the zero-copy views that
    decode fields straight from a byte slice.

    Wire layout of one tag (bit 7 is the most significant bit of a byte):
      byte 0: bits 7-5 priority code point, bit 4 drop eligible indicator,
              bits 3-0 bits 11-8 of the VLAN identifier
      byte 1: bits 7-0 of the VLAN identifier
      bytes 2-3: ether type, big-endian */
module VlanTagging {
  import opened Errors
  import opened Streams

  /** Wire size of one tag in bytes. */
  const SingleSerializedSize: nat := 4
  /** Wire size of two stacked tags in bytes. */
  const DoubleSerializedSize: nat := 8
  /** The ether type that announces a further VLAN tag (the 802.1Q TPID). */
  const VlanTaggedFrame: bv16 := 0x8100

  /** Largest priority code point: the field is 3 bits wide. */
  const MaxPriorityCodePoint: bv8 := 0x7
  /** Largest VLAN identifier: the field is 12 bits wide. */
  const MaxVlanIdentifier: bv16 := 0xfff

  /** One VLAN tag. The fields have the widths of their in-memory types, so
      a caller can store values the 3- and 12-bit wire fields cannot carry;
      writing such a header fails. */
  datatype SingleVlanHeader = SingleVlanHeader(
    priorityCodePoint: bv8,
    dropEligibleIndicator: bool,
    vlanIdentifier: bv16,
    etherType: bv16)
  {
    /** Both sub-byte fields fit their wire widths. */
    predicate InRange() {
      priorityCodePoint <= MaxPriorityCodePoint && vlanIdentifier <= MaxVlanIdentifier
    }

    /** The validation write performs before emitting anything: the priority
        code point is checked first, then the VLAN identifier. */
    function CheckRanges(): (r: Result<(), WriteError>)
      ensures r.Ok? <==> InRange()
      ensures priorityCodePoint > MaxPriorityCodePoint ==>
        r == Err(ValueError(U8TooLarge(priorityCodePoint, MaxPriorityCodePoint, VlanTagPriorityCodePoint)))
      ensures priorityCodePoint <= MaxPriorityCodePoint && vlanIdentifier > MaxVlanIdentifier ==>
        r == Err(ValueError(U16TooLarge(vlanIdentifier, MaxVlanIdentifier, VlanTagVlanId)))
    {
      match MaxCheckU8(priorityCodePoint, MaxPriorityCodePoint, VlanTagPriorityCodePoint)
      case Err(e) => Err(ValueError(e))
      case Ok(_) =>
        match MaxCheckU16(vlanIdentifier, MaxVlanIdentifier, VlanTagVlanId)
        case Err(e) => Err(ValueError(e))
        case Ok(_) => Ok(())
    }

    /** The four wire bytes of an in-range tag: the tag control
        information, then the ether type big-endian. */
    function ToBytes(): (b: seq<bv8>)
      requires InRange()
      ensures |b| == SingleSerializedSize
    {
      TagControlInformation(priorityCodePoint, dropEligibleIndicator, vlanIdentifier)
      + U16ToBigEndian(etherType)
    }
  }

  /** The two tag control information bytes, as the layout table gives
      them. Each field can be read back from its own bits. */
  function TagControlInformation(priorityCodePoint: bv8, dropEligibleIndicator: bool, vlanIdentifier: bv16)
    : (b: seq<bv8>)
    requires priorityCodePoint <= MaxPriorityCodePoint && vlanIdentifier <= MaxVlanIdentifier
    ensures |b| == 2
    ensures b[0] >> 5 == priorityCodePoint
    ensures (b[0] & 0x10) != 0 <==> dropEligibleIndicator
    ensures b[0] & 0xf == (vlanIdentifier >> 8) as bv8 && b[1] == (vlanIdentifier & 0xff) as bv8
  {
    [ (priorityCodePoint << 5)
      | (if dropEligibleIndicator then 0x10 else 0)
      | ((vlanIdentifier >> 8) as bv8),
      (vlanIdentifier & 0xff) as bv8 ]
  }

  /** Two stacked tags, outer first. That the outer ether type is
      VlanTaggedFrame is checked when reading only. */
  datatype DoubleVlanHeader = DoubleVlanHeader(outer: SingleVlanHeader, inner: SingleVlanHeader)
  {
    predicate InRange() {
      outer.InRange() && inner.InRange()
    }

    /** The validation of a double write, as it happens: the outer tag's
        first; the inner tag's only once the outer one has passed. */
    function CheckRanges(): (r: Result<(), WriteError>)
      ensures r.Ok? <==> InRange()
      ensures !outer.InRange() ==> r == outer.CheckRanges()
      ensures outer.InRange() ==> r == inner.CheckRanges()
    {
      if outer.CheckRanges().Err? then outer.CheckRanges() else inner.CheckRanges()
    }

    /** The eight wire bytes: the outer tag's, then the inner tag's. */
    function ToBytes(): (b: seq<bv8>)
      requires InRange()
      ensures |b| == DoubleSerializedSize
      ensures b[..SingleSerializedSize] == outer.ToBytes()
      ensures b[SingleSerializedSize..] == inner.ToBytes()
    {
      outer.ToBytes() + inner.ToBytes()
    }
  }

  /** Whatever VLAN tagging a frame carries. */
  datatype VlanHeader = Single(single: SingleVlanHeader) | Double(double: DoubleVlanHeader)

  /** Reads one tag from the reader: two bytes holding the priority code
      point, the drop eligible indicator and the VLAN identifier, then the
      big-endian ether type. Fails only when fewer than four bytes remain;
      the result is what the slice view decodes from the same four bytes. */
  method ReadSingleHeader(reader: Reader) returns (r: Result<SingleVlanHeader, IoErrorKind>)
    requires reader.Valid()
    modifies reader`pos
    ensures reader.Valid()
    ensures r.Ok? <==> old(reader.pos) + SingleSerializedSize <= |reader.data|
    ensures r.Ok? ==>
      && reader.pos == old(reader.pos) + SingleSerializedSize
      && r.value == SingleVlanHeaderSlice(reader.data[old(reader.pos)..reader.pos]).ToHeader()
    ensures r.Err? ==> r.error == UnexpectedEof && old(reader.pos) <= reader.pos
  {
    var buffer := new bv8[2];
    var rx := reader.ReadExact(buffer);
    if rx.Err? {
      return Err(rx.error);
    }
    var dropEligibleIndicator := (buffer[0] & 0x10) != 0;
    var priorityCodePoint := buffer[0] >> 5;
    // mask away everything above the VLAN identifier's top four bits
    buffer[0] := buffer[0] & 0xf;
    var vlanIdentifier := U16FromBigEndian(buffer[..]);
    var etherType := reader.ReadU16BigEndian();
    if etherType.Err? {
      return Err(etherType.error);
    }
    r := Ok(SingleVlanHeader(priorityCodePoint, dropEligibleIndicator, vlanIdentifier, etherType.value));
    ghost var view := SingleVlanHeaderSlice(reader.data[old(reader.pos)..reader.pos]);
    assert view.slice[2..4] == reader.data[old(reader.pos) + 2..reader.pos];
    assert buffer[..] == [view.slice[0] & 0xf, view.slice[1]];
  }

  /** Writes one tag. Both range checks run before anything is written, so
      a failing write leaves the writer as it was; a successful one appends
      exactly the four wire bytes. */
  method WriteSingleHeader(header: SingleVlanHeader, writer: Writer) returns (r: Result<(), WriteError>)
    modifies writer
    ensures r == header.CheckRanges()
    ensures r.Ok? ==> writer.out == old(writer.out) + header.ToBytes()
    ensures r.Err? ==> writer.out == old(writer.out)
  {
    var pcp := MaxCheckU8(header.priorityCodePoint, MaxPriorityCodePoint, VlanTagPriorityCodePoint);
    if pcp.Err? {
      return Err(ValueError(pcp.error));
    }
    var vid := MaxCheckU16(header.vlanIdentifier, MaxVlanIdentifier, VlanTagVlanId);
    if vid.Err? {
      return Err(ValueError(vid.error));
    }
    var buffer := PackTagControl(header.priorityCodePoint, header.dropEligibleIndicator, header.vlanIdentifier);
    writer.WriteAll(buffer);
    writer.WriteU16BigEndian(header.etherType);
    r := Ok(());
  }

  /** The two-byte buffer write fills before the ether type: the VLAN
      identifier big-endian, then the drop eligible bit and the priority
      code point OR'd into byte 0. */
  method PackTagControl(priorityCodePoint: bv8, dropEligibleIndicator: bool, vlanIdentifier: bv16)
    returns (buffer: array<bv8>)
    requires priorityCodePoint <= MaxPriorityCodePoint && vlanIdentifier <= MaxVlanIdentifier
    ensures fresh(buffer)
    ensures buffer[..] == TagControlInformation(priorityCodePoint, dropEligibleIndicator, vlanIdentifier)
  {
    buffer := new bv8[2];
    WriteU16BigEndianInto(buffer, vlanIdentifier);
    if dropEligibleIndicator {
      buffer[0] := buffer[0] | 0x10;
    }
    buffer[0] := buffer[0] | (priorityCodePoint << 5);
    assert buffer[..] == [buffer[0], buffer[1]];
  }

  /** Reads two tags. After the outer tag its ether type must be
      VlanTaggedFrame; otherwise the read stops there, having consumed the
      outer four bytes only. The inner tag's ether type is not checked. */
  method ReadDoubleHeader(reader: Reader) returns (r: Result<DoubleVlanHeader, ReadError>)
    requires reader.Valid()
    modifies reader`pos
    ensures reader.Valid()
    ensures |reader.data| < old(reader.pos) + SingleSerializedSize ==>
      r == Err(IoError(UnexpectedEof))
    ensures old(reader.pos) + SingleSerializedSize <= |reader.data| ==>
      var tpid := SingleVlanHeaderSlice(reader.data[old(reader.pos)..old(reader.pos) + SingleSerializedSize]).EtherType();
      && (tpid != VlanTaggedFrame ==>
            r == Err(VlanDoubleTaggingUnexpectedOuterTpid(tpid))
            && reader.pos == old(reader.pos) + SingleSerializedSize)
      && (tpid == VlanTaggedFrame && |reader.data| < old(reader.pos) + DoubleSerializedSize ==>
            r == Err(IoError(UnexpectedEof)))
      && (tpid == VlanTaggedFrame && old(reader.pos) + DoubleSerializedSize <= |reader.data| ==>
            reader.pos == old(reader.pos) + DoubleSerializedSize
            && r == Ok(DoubleVlanHeaderSlice(reader.data[old(reader.pos)..old(reader.pos) + DoubleSerializedSize]).ToHeader()))
    ensures r.Err? && r.error.IoError? ==> old(reader.pos) <= reader.pos
  {
    var outer := ReadSingleHeader(reader);
    if outer.Err? {
      return Err(IoError(outer.error));
    }
    if VlanTaggedFrame != outer.value.etherType {
      return Err(VlanDoubleTaggingUnexpectedOuterTpid(outer.value.etherType));
    }
    ghost var mid := reader.pos;
    var inner := ReadSingleHeader(reader);
    if inner.Err? {
      return Err(IoError(inner.error));
    }
    r := Ok(DoubleVlanHeader(outer.value, inner.value));
    ghost var bytes := reader.data[old(reader.pos)..reader.pos];
    assert bytes[..SingleSerializedSize] == reader.data[old(reader.pos)..mid];
    assert bytes[SingleSerializedSize..] == reader.data[mid..reader.pos];
  }

  /** Writes the outer tag, then the inner one, without checking the outer
      ether type. There is no rollback: when only the inner tag is out of
      range, the outer tag's bytes stay written and the inner error is
      returned. */
  method WriteDoubleHeader(header: DoubleVlanHeader, writer: Writer) returns (r: Result<(), WriteError>)
    modifies writer
    ensures r == header.CheckRanges()
    ensures !header.outer.InRange() ==> writer.out == old(writer.out)
    ensures header.outer.InRange() && !header.inner.InRange() ==>
      writer.out == old(writer.out) + header.outer.ToBytes()
    ensures header.InRange() ==> writer.out == old(writer.out) + header.ToBytes()
  {
    r := WriteSingleHeader(header.outer, writer);
    if r.Err? {
      return;
    }
    r := WriteSingleHeader(header.inner, writer);
  }

  /** A view of one tag's four bytes inside a larger buffer; every accessor
      decodes its field from the bytes again. */
  datatype SingleVlanHeaderSlice = SingleVlanHeaderSlice(slice: seq<bv8>)
  {
    /** Views are only ever made over exactly one tag's bytes. */
    predicate Valid() {
      |slice| == SingleSerializedSize
    }

    /** The view over the first four bytes of input; fails on shorter input.
        Bytes after the first four are ignored. */
    static function FromSlice(input: seq<bv8>): (r: Result<SingleVlanHeaderSlice, ReadError>)
      ensures r.Ok? <==> |input| >= SingleSerializedSize
      ensures r.Ok? ==> r.value.Valid() && r.value.slice <= input
      ensures r.Err? ==> r.error == IoError(UnexpectedEof)
    {
      if |input| < SingleSerializedSize then Err(IoError(UnexpectedEof))
      else Ok(SingleVlanHeaderSlice(input[..SingleSerializedSize]))
    }

    /** The top three bits of byte 0. */
    function PriorityCodePoint(): (pcp: bv8)
      requires Valid()
      ensures pcp <= MaxPriorityCodePoint
    {
      slice[0] >> 5
    }

    /** Bit 4 of byte 0. */
    function DropEligibleIndicator(): bool
      requires Valid()
    {
      (slice[0] & 0x10) != 0
    }

    /** The low four bits of byte 0 followed by byte 1. */
    function VlanIdentifier(): (vid: bv16)
      requires Valid()
      ensures vid <= MaxVlanIdentifier
    {
      U16FromBigEndian([slice[0] & 0xf, slice[1]])
    }

    /** Bytes 2 and 3, big-endian. */
    function EtherType(): (et: bv16)
      requires Valid()
      ensures U16ToBigEndian(et) == slice[2..]
    {
      assert slice[2..] == slice[2..4] == [slice[2], slice[3]];
      U16FromBigEndian(slice[2..4])
    }

    /** All four fields, decoded once each. The result is always in range
        and writes back to exactly the viewed bytes. */
    function ToHeader(): (h: SingleVlanHeader)
      requires Valid()
      ensures h.InRange()
      ensures h.ToBytes() == slice
    {
      ViewWritesBack(this);
      SingleVlanHeader(PriorityCodePoint(), DropEligibleIndicator(), VlanIdentifier(), EtherType())
    }
  }

  /** The fields a view decodes are written back as exactly the viewed bytes. */
  lemma ViewWritesBack(view: SingleVlanHeaderSlice)
    requires view.Valid()
    ensures SingleVlanHeader(view.PriorityCodePoint(), view.DropEligibleIndicator(), view.VlanIdentifier(), view.EtherType()).ToBytes() == view.slice
  {
    var b := view.slice;
    var vid := view.VlanIdentifier();
    TagControlInformationOfBytes(b[0], b[1], vid);
    assert TagControlInformation(view.PriorityCodePoint(), view.DropEligibleIndicator(), vid) == b[..2];
    assert U16ToBigEndian(view.EtherType()) == b[2..];
    assert b == b[..2] + b[2..];
  }

  /** Any two bytes are the tag control information of the fields decoded
      from them: byte 0 is the OR of its PCP bits, its DEI bit and its VID
      bits. */
  lemma TagControlInformationOfBytes(b0: bv8, b1: bv8, vid: bv16)
    requires vid <= MaxVlanIdentifier
    requires (vid >> 8) as bv8 == b0 & 0xf && (vid & 0xff) as bv8 == b1
    ensures TagControlInformation(b0 >> 5, (b0 & 0x10) != 0, vid) == [b0, b1]
  {
  }

  /** A view of two stacked tags' eight bytes. Unlike ReadDoubleHeader it
      does not check the outer ether type. */
  datatype DoubleVlanHeaderSlice = DoubleVlanHeaderSlice(slice: seq<bv8>)
  {
    predicate Valid() {
      |slice| == DoubleSerializedSize
    }

    /** The view over the first eight bytes of input; fails on shorter input.
        Bytes after the first eight are ignored. */
    static function FromSlice(input: seq<bv8>): (r: Result<DoubleVlanHeaderSlice, ReadError>)
      ensures r.Ok? <==> |input| >= DoubleSerializedSize
      ensures r.Ok? ==> r.value.Valid() && r.value.slice <= input
      ensures r.Err? ==> r.error == IoError(UnexpectedEof)
    {
      if |input| < DoubleSerializedSize then Err(IoError(UnexpectedEof))
      else Ok(DoubleVlanHeaderSlice(input[..DoubleSerializedSize]))
    }

    /** The view of the outer tag: the first half of the bytes. */
    function Outer(): (v: SingleVlanHeaderSlice)
      requires Valid()
      ensures v.Valid() && v.slice <= slice
    {
      SingleVlanHeaderSlice(slice[..SingleSerializedSize])
    }

    /** The view of the inner tag: what follows the outer tag's bytes. */
    function Inner(): (v: SingleVlanHeaderSlice)
      requires Valid()
      ensures v.Valid() && Outer().slice + v.slice == slice
    {
      SingleVlanHeaderSlice(slice[SingleSerializedSize..SingleSerializedSize * 2])
    }

    /** Both tags decoded. Any outer ether type is accepted; the result
        writes back to exactly the viewed bytes. */
    function ToHeader(): (h: DoubleVlanHeader)
      requires Valid()
      ensures h.InRange()
      ensures h.ToBytes() == slice
    {
      DoubleVlanHeader(Outer().ToHeader(), Inner().ToHeader())
    }
  }
}
