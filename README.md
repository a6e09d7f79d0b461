# IEEE 802.1Q VLAN tag codec

A Dafny model of the VLAN tagging header codec of etherparse
(`src/link/vlan_tagging.rs`). A single tag is the Tag Control Information
of clause 9.6 of IEEE 802.1Q: a 3-bit priority code point (PCP), a 1-bit
drop eligible indicator (DEI) and a 12-bit VLAN identifier (VID), followed
by a 16-bit big-endian ether type; four bytes in all. A double tag
(IEEE 802.1ad Q-in-Q) is two single tags, outer first; eight bytes.

The model has four modules:

- `Errors` (`errors.dfy`): `Result`, the value-range errors `U8TooLarge` /
  `U16TooLarge` with their `ErrorField`, the `ReadError` cases
  `IoError(UnexpectedEof)` and `VlanDoubleTaggingUnexpectedOuterTpid`, the
  `WriteError` wrapper, and the range checks `MaxCheckU8` / `MaxCheckU16`.
  `ValueTooLarge` is the repository's `ValueError` enum under another name,
  so that it does not clash with the `WriteError.ValueError` case; its
  fields are `value8`/`max8` and `value16`/`max16` because Dafny requires
  destructors of the same name to have the same type.
  These are defined elsewhere in the repository; the model gives them the
  behaviour the codec and its tests rely on.
- `Streams` (`streams.dfy`): a `Reader` class (a byte sequence and a read
  position that `ReadExact` and `ReadU16BigEndian` advance), a `Writer`
  class (an output sequence that `WriteAll` and `WriteU16BigEndian` append
  to), and explicit big-endian 16-bit pack/unpack functions standing in for
  the byte-order library.
- `VlanTagging` (`vlan_tagging.dfy`): the headers as datatypes (bytes are
  `bv8`, the `u16` fields `bv16`, so shifts and masks stay bit operations),
  the stream `read`/`write` of single and double headers as methods on
  readers and writers (including the in-place 2-byte buffer they use), and
  the zero-copy slice views as datatypes whose accessors are functions.
- `VlanTaggingProperties` (`vlan_tagging_properties.dfy`): round trips,
  the byte-0 layout, slice/stream agreement, and verified client methods
  that replay the repository's tests for all inputs.

`EtherType::VlanTaggedFrame` is defined outside `src/link/vlan_tagging.rs`;
it is the 802.1Q tag protocol identifier (TPID) 0x8100.

## Model

| member | source | states |
|---|---|---|
| `Errors.MaxCheckU8` | src/link/vlan_tagging.rs:60 | passes iff value <= max; otherwise `U8TooLarge` carrying the value, the max and the field |
| `Errors.MaxCheckU16` | src/link/vlan_tagging.rs:61 | passes iff value <= max; otherwise `U16TooLarge` carrying the value, the max and the field |
| `Streams.U16FromBigEndian` | src/link/vlan_tagging.rs:45 | the decoded value's high byte is the first byte and its low byte the second |
| `Streams.U16ToBigEndian` | src/link/vlan_tagging.rs:64 | two bytes, which decode back to the value |
| `Streams.WriteU16BigEndianInto` | src/link/vlan_tagging.rs:63-64 | the buffer's first two cells become the value big-endian, the rest is untouched |
| `Streams.Reader.ReadExact` | src/link/vlan_tagging.rs:39-40 | succeeds iff enough bytes remain; then fills the buffer with the next bytes and advances by its length; on failure reports end of data and never moves back |
| `Streams.Reader.ReadU16BigEndian` | src/link/vlan_tagging.rs:52 | succeeds iff two bytes remain; then returns them big-endian and advances by two |
| `Streams.Writer.WriteAll` | src/link/vlan_tagging.rs:69 | appends exactly the buffer's bytes |
| `Streams.Writer.WriteU16BigEndian` | src/link/vlan_tagging.rs:71 | appends exactly the two big-endian bytes of the value |
| `VlanTagging.SingleVlanHeader.CheckRanges` | src/link/vlan_tagging.rs:58-61 | passes iff PCP <= 7 and VID <= 0xFFF; a PCP above 7 is reported first as `U8TooLarge{pcp, 7, VlanTagPriorityCodePoint}`, otherwise a VID above 0xFFF as `U16TooLarge{vid, 0xFFF, VlanTagVlanId}` |
| `VlanTagging.SingleVlanHeader.ToBytes` | src/link/vlan_tagging.rs:62-71 | an in-range tag is written as exactly 4 bytes |
| `VlanTagging.DoubleVlanHeader.CheckRanges` | src/link/vlan_tagging.rs:107-110 | passes iff both tags are in range; the outer tag's error wins, the inner's is reported only once the outer passes |
| `VlanTagging.DoubleVlanHeader.ToBytes` | src/link/vlan_tagging.rs:107-110 | 8 bytes: the outer tag's 4 bytes, then the inner tag's 4 bytes |
| `VlanTagging.ReadSingleHeader` | src/link/vlan_tagging.rs:37-54 | succeeds iff at least 4 bytes remain (no field is range-checked); then consumes exactly 4 and returns what the slice view's `to_header` decodes from those 4 bytes; otherwise end of data |
| `VlanTagging.WriteSingleHeader` | src/link/vlan_tagging.rs:57-73 | returns the range-check outcome; on success appends exactly the 4 wire bytes, on failure appends nothing |
| `VlanTagging.PackTagControl` | src/link/vlan_tagging.rs:62-68 | the 2-byte buffer built by writing the VID big-endian, then OR-ing in the DEI bit when set, then OR-ing in PCP << 5, is exactly the tag control information of the three fields |
| `VlanTagging.TagControlInformation` | src/link/vlan_tagging.rs:63-68 | for in-range fields, two bytes from which `>> 5` gives back the PCP, bit 4 the DEI, and the low nibble of byte 0 and all of byte 1 the VID's high and low bytes |
| `VlanTagging.TagControlInformationOfBytes` | src/link/vlan_tagging.rs:41-45 | any two bytes are the tag control information of the PCP, DEI and VID decoded from them |
| `VlanTagging.ViewWritesBack` | src/link/vlan_tagging.rs:164-171 | the four fields a view decodes are written back as exactly the viewed bytes |
| `VlanTagging.ReadDoubleHeader` | src/link/vlan_tagging.rs:92-104 | end of data when fewer than 4 bytes remain; if the outer ether type is not 0x8100, `VlanDoubleTaggingUnexpectedOuterTpid(that value)` after consuming exactly 4 bytes; else end of data when fewer than 8 remain; else consumes exactly 8 and returns the double slice view's decoding (inner ether type unchecked) |
| `VlanTagging.WriteDoubleHeader` | src/link/vlan_tagging.rs:107-110 | returns the double range-check outcome; an invalid outer writes nothing; a valid outer with an invalid inner leaves the outer's 4 bytes written; both valid appends all 8 bytes; the outer ether type is not checked |
| `VlanTagging.SingleVlanHeaderSlice.FromSlice` | src/link/vlan_tagging.rs:121-134 | fails with `IoError(UnexpectedEof)` iff the input is shorter than 4; otherwise the view is a 4-byte prefix of the input |
| `VlanTagging.SingleVlanHeaderSlice.PriorityCodePoint` | src/link/vlan_tagging.rs:143-145 | decoded PCP is at most 7 |
| `VlanTagging.SingleVlanHeaderSlice.VlanIdentifier` | src/link/vlan_tagging.rs:153-156 | decoded VID is at most 0xFFF |
| `VlanTagging.SingleVlanHeaderSlice.EtherType` | src/link/vlan_tagging.rs:159-161 | the ether type's big-endian bytes are bytes 2 and 3 of the view |
| `VlanTagging.SingleVlanHeaderSlice.ToHeader` | src/link/vlan_tagging.rs:164-171 | the decoded header is always in range and writes back to exactly the viewed bytes |
| `VlanTagging.DoubleVlanHeaderSlice.FromSlice` | src/link/vlan_tagging.rs:182-195 | fails with `IoError(UnexpectedEof)` iff the input is shorter than 8; otherwise the view is an 8-byte prefix of the input |
| `VlanTagging.DoubleVlanHeaderSlice.Outer` | src/link/vlan_tagging.rs:204-208 | a valid single view that is a prefix of the double view |
| `VlanTagging.DoubleVlanHeaderSlice.Inner` | src/link/vlan_tagging.rs:211-215 | a valid single view; outer bytes followed by inner bytes are exactly the double view |
| `VlanTagging.DoubleVlanHeaderSlice.ToHeader` | src/link/vlan_tagging.rs:218-223 | both decoded tags are in range and the result writes back to exactly the viewed bytes, whatever the outer ether type |
| `VlanTaggingProperties.TagControlLayout` | src/link/vlan_tagging.rs:63-71 | byte 0 is `(pcp << 5) \| (dei ? 0x10 : 0) \| (vid >> 8)` with pairwise disjoint parts, so `>> 5`, `& 0x10` and `& 0xf` recover PCP, DEI and VID's top bits; byte 1 is VID's low byte; bytes 2-3 the ether type big-endian |
| `VlanTaggingProperties.ToBytesInjective` | src/link/vlan_tagging.rs:62-71 | two in-range tags are written as the same bytes iff they are equal |
| `VlanTaggingProperties.SingleSliceOfWritten` | src/link/vlan_tagging.rs:143-171 | on the bytes of a written in-range tag, `from_slice` succeeds and every accessor and `to_header` give back the written fields |
| `VlanTaggingProperties.SingleBytesCorrespondence` | src/link/vlan_tagging.rs:57-73 | for in-range tags and 4-byte inputs, writing a tag gives the bytes iff viewing the bytes gives the tag |
| `VlanTaggingProperties.SingleFromSliceIgnoresTrailing` | src/link/vlan_tagging.rs:126-133 | bytes after the first 4 do not change the single view |
| `VlanTaggingProperties.DoubleFromSliceIgnoresTrailing` | src/link/vlan_tagging.rs:187-194 | bytes after the first 8 do not change the double view |
| `VlanTaggingProperties.DoubleSliceIsTwoSingleSlices` | src/link/vlan_tagging.rs:204-223 | the double view decodes bytes 0..4 as the outer tag and bytes 4..8 as the inner tag, exactly as single views of those bytes do |
| `VlanTaggingProperties.DoubleSliceOfWritten` | src/link/vlan_tagging.rs:204-223 | on the bytes of a written in-range double header, the outer and inner views and `to_header` give back the written tags, with no tag protocol identifier check |
| `VlanTaggingProperties.WrittenExample` | tests/link/vlan_tagging.rs:34-44 | PCP 2, DEI set, VID 1234, ether type 0x0800 is written as 54 D2 08 00 |
| `VlanTaggingProperties.ProviderBridgingOuterAccepted` | tests/link/vlan_tagging.rs:178-213 | a double view whose outer ether type is 0x88A8 decodes to the written header |
| `VlanTaggingProperties.WriteThenReadSingle` | tests/link/vlan_tagging.rs:30-53 | writing an in-range tag succeeds and emits 4 bytes, and reading them back returns the tag after consuming exactly 4 |
| `VlanTaggingProperties.WriteOutOfRangeSingle` | tests/link/vlan_tagging.rs:55-91 | writing an out-of-range tag emits nothing and reports the PCP error first, else the VID error |
| `VlanTaggingProperties.WriteThenReadDouble` | tests/link/vlan_tagging.rs:94-120 | an in-range double header with outer ether type 0x8100 is written successfully as 8 bytes and read back unchanged, consuming exactly 8 |
| `VlanTaggingProperties.WriteThenReadWrongOuterTpid` | tests/link/vlan_tagging.rs:121-147 | with any other outer ether type the write succeeds, and the read fails with that value after consuming only the outer 4 bytes |
| `VlanTaggingProperties.WriteDoubleInnerOutOfRange` | src/link/vlan_tagging.rs:107-110 | with a valid outer and an invalid inner tag the outer's 4 bytes stay written and the inner's range error is returned |

## Left out

- The byte-order library calls are replaced by `Streams.U16FromBigEndian`, `Streams.U16ToBigEndian` and the reader/writer methods; the library itself is not modelled.
- Standard I/O errors other than end of data, the `io::Seek` bound, and writer failures part-way through a write: the model's writer is an infallible append, so `WriteError` has only the value-range case.
- Stream position after a failed read: the model promises only that it does not move backwards and stays within the input, since the source leaves it to the underlying reader.
- Lifetimes and borrowing of the slice views: a view is the byte sequence it covers, and its `slice()` getter is the datatype's `slice` field.
- `SingleVlanHeaderSlice.DropEligibleIndicator` has no contract of its own; what it decodes is stated by `SingleSliceOfWritten` and `ToHeader`.
- The `Debug`/`Clone`/`Default`/`PartialEq` derives and the printing test at tests/link/vlan_tagging.rs:3-28.
- The serialized-size trait: its two constants 4 and 8 are `SingleSerializedSize` and `DoubleSerializedSize`.
- `VlanHeader` is a two-case datatype with no operations, as in the source.
- Only the `EtherType` value 0x8100 (VLAN-tagged frame) is named; other ether types appear as plain numbers in examples.
- `ErrorField` and `ReadError` hold only the cases this codec produces.
