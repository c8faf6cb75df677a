/** CRAM container assembly of noodles-cram (`Container`): turning a data container (a
    compression header and its slices) into the block list and the container header whose
    landmarks locate each slice, as in section 7 ("Container structure") of the CRAM 3.0
    specification; and the end-of-file container of section 9 of that specification.

    `write_compression_header` and `Block::len` (the encoded size of a block) are not part
    of this model: they are parameters. ITF-8 fields are modelled as unbounded integers. */
module CramContainer {
  import opened Wrappers

  datatype ErrorKind = InvalidInput | InvalidData | Other

  datatype IoError = IoError(kind: ErrorKind, message: string)

  /** Block compression methods (section 8 of CRAM 3.0); `Raw` is the source's `None`. */
  datatype CompressionMethod = Raw | Gzip | Bzip2 | Lzma | Rans4x8 | RansNx16

  /** Block content types (section 8.1 of CRAM 3.0). */
  datatype ContentType = FileHeader | CompressionHeader | SliceHeader | Reserved | ExternalData | CoreData

  datatype Block = Block(
    compressionMethod: CompressionMethod,
    contentType: ContentType,
    contentId: int,
    uncompressedLen: int,
    data: seq<byte>,
    crc32: u32)

  /** The reference sequence a container's records align to: one, none (-1) or many (-2). */
  datatype ReferenceSequenceId = Reference(id: int) | NoReference | ManyReferences

  datatype Header = Header(
    length: int,
    referenceSequenceId: ReferenceSequenceId,
    startPosition: int,
    alignmentSpan: int,
    recordCount: int,
    recordCounter: int,
    baseCount: int,
    blockCount: int,
    landmarks: seq<int>,
    crc32: u32)

  datatype Slice = Slice(coreDataBlock: Block, externalBlocks: seq<Block>)

  /** What the writer has gathered for one container: its compression header (of whatever
      type the serialiser takes) and its slices. */
  datatype DataContainer<CH> = DataContainer(compressionHeader: CH, slices: seq<Slice>)

  datatype Container = Container(header: Header, blocks: seq<Block>)

  // ---------------------------------------------------------------------------
  // End of file (section 9 of CRAM 3.0)

  /** The single block of the EOF container: an uncompressed compression header block
      holding six bytes. */
  const EOF_BLOCK: Block := Block(Raw, CompressionHeader, 0, 6, [0x01, 0x00, 0x01, 0x00, 0x01, 0x00], 0x4b01_63ee)

  /** The EOF container's header: 15 bytes of block data, no reference sequence, starting
      position 4542278, no records and one block. */
  const EOF_HEADER: Header := Header(15, NoReference, 4542278, 0, 0, 0, 0, 1, [], 0x4fd9_bd05)

  /** `Header::is_eof`, reconstructed from the EOF container of section 9 of CRAM 3.0: the
      header has the EOF container's length, reference sequence, starting position and
      record count. */
  predicate IsEofHeader(h: Header) {
    h.length == EOF_HEADER.length &&
    h.referenceSequenceId == EOF_HEADER.referenceSequenceId &&
    h.startPosition == EOF_HEADER.startPosition &&
    h.recordCount == EOF_HEADER.recordCount
  }

  /** `Container::new`. */
  function New(header: Header, blocks: seq<Block>): (c: Container)
    ensures c.header == header && c.blocks == blocks
  {
    Container(header, blocks)
  }

  /** `Container::is_eof`: decided by the header alone. */
  predicate IsEof(c: Container) {
    IsEofHeader(c.header)
  }

  /** `Container::eof`: the EOF header with exactly the EOF block. */
  function Eof(): (c: Container)
    ensures IsEof(c)
    ensures c.header == EOF_HEADER && c.blocks == [EOF_BLOCK]
    ensures c.header.blockCount == |c.blocks|
  {
    New(EOF_HEADER, [EOF_BLOCK])
  }

  // ---------------------------------------------------------------------------
  // Specification of `try_from_data_container`

  /** The block that carries a serialised compression header `buf`: uncompressed, content
      id 0, its size field the length of `buf`, checksum 0. */
  function CompressionHeaderBlock(buf: seq<byte>): (b: Block)
    ensures b.compressionMethod == Raw && b.contentType == CompressionHeader
    ensures b.uncompressedLen == |buf| && b.data == buf
  {
    Block(Raw, CompressionHeader, 0, |buf|, buf, 0)
  }

  /** A slice's blocks in container order: its core data block, then its external blocks. */
  function SliceBlocks(s: Slice): seq<Block> {
    [s.coreDataBlock] + s.externalBlocks
  }

  /** The blocks of a container whose first block is `first`: then each slice's blocks,
      one slice after the other. */
  function ContainerBlocks(first: Block, slices: seq<Slice>): (bs: seq<Block>)
    ensures |bs| >= 1 && bs[0] == first
  {
    if |slices| == 0 then [first] else ContainerBlocks(first, slices[..|slices| - 1]) + SliceBlocks(slices[|slices| - 1])
  }

  /** The total encoded length of a run of blocks. */
  function TotalLen(blocks: seq<Block>, blockLen: Block -> nat): nat {
    if |blocks| == 0 then 0 else TotalLen(blocks[..|blocks| - 1], blockLen) + blockLen(blocks[|blocks| - 1])
  }

  /** The landmarks after `start` for a run of slices: `start`, then after each slice the
      previous landmark plus that slice's length. */
  function Landmarks(start: int, slices: seq<Slice>, blockLen: Block -> nat): (ls: seq<int>)
    ensures |ls| == |slices| + 1
    ensures ls[0] == start
  {
    if |slices| == 0 then [start]
    else
      var prev := Landmarks(start, slices[..|slices| - 1], blockLen);
      prev + [prev[|prev| - 1] + TotalLen(SliceBlocks(slices[|slices| - 1]), blockLen)]
  }

  /** The container built from a data container whose compression header serialises to
      `buf`. Every header field but the block count and the landmarks is 0 (or no
      reference sequence). */
  function Assemble(buf: seq<byte>, slices: seq<Slice>, blockLen: Block -> nat): Container {
    var block := CompressionHeaderBlock(buf);
    var blocks := ContainerBlocks(block, slices);
    var landmarks := Landmarks(blockLen(block), slices, blockLen);
    New(Header(0, NoReference, 0, 0, 0, 0, 0, |blocks|, landmarks, 0), blocks)
  }

  /** What `try_from_data_container` returns: the serialiser's error, or the assembled
      container. */
  function FromDataContainer<CH>(
    dc: DataContainer<CH>,
    writeCompressionHeader: CH -> Result<seq<byte>, IoError>,
    blockLen: Block -> nat): Result<Container, IoError>
  {
    match writeCompressionHeader(dc.compressionHeader)
    case Err(e) => Err(e)
    case Ok(buf) => Ok(Assemble(buf, dc.slices, blockLen))
  }

  /** One more block of a run: the prefix grows by it, and so does its length. */
  lemma PrefixStep(blocks: seq<Block>, n: nat, blockLen: Block -> nat)
    requires n < |blocks|
    ensures blocks[..n + 1] == blocks[..n] + [blocks[n]]
    ensures TotalLen(blocks[..n + 1], blockLen) == TotalLen(blocks[..n], blockLen) + blockLen(blocks[n])
  {
    assert blocks[..n + 1][..n] == blocks[..n];
  }

  /** One more slice of a run: its blocks follow, and its landmark is pushed. */
  lemma SlicesStep(first: Block, start: int, slices: seq<Slice>, i: nat, blockLen: Block -> nat)
    requires i < |slices|
    ensures ContainerBlocks(first, slices[..i + 1]) == ContainerBlocks(first, slices[..i]) + SliceBlocks(slices[i])
    ensures var prev := Landmarks(start, slices[..i], blockLen);
      Landmarks(start, slices[..i + 1], blockLen) == prev + [prev[|prev| - 1] + TotalLen(SliceBlocks(slices[i]), blockLen)]
  {
    assert slices[..i + 1][..i] == slices[..i];
  }

  // ---------------------------------------------------------------------------
  // Properties of the assembled container

  /** The shape `try_from_data_container` promises: the compression header block first,
      uncompressed and sized by the serialised header; a block count equal to the number
      of blocks; one landmark more than there are slices, the first being the length of
      the compression header block and each next one adding the length of one slice; and
      a header that is not the EOF header. */
  lemma AssembleShape(buf: seq<byte>, slices: seq<Slice>, blockLen: Block -> nat)
    ensures var c := Assemble(buf, slices, blockLen);
      c.blocks[0] == CompressionHeaderBlock(buf) &&
      c.blocks[0].compressionMethod == Raw && c.blocks[0].contentType == CompressionHeader &&
      c.blocks[0].uncompressedLen == |buf| &&
      c.header.blockCount == |c.blocks| &&
      |c.header.landmarks| == |slices| + 1 &&
      c.header.landmarks[0] == blockLen(c.blocks[0]) &&
      !IsEof(c)
    ensures var ls := Assemble(buf, slices, blockLen).header.landmarks;
      forall i :: 0 <= i < |slices| ==> ls[i + 1] == ls[i] + TotalLen(SliceBlocks(slices[i]), blockLen)
  {
    var first := CompressionHeaderBlock(buf);
    forall i | 0 <= i < |slices|
      ensures Landmarks(blockLen(first), slices, blockLen)[i + 1] ==
        Landmarks(blockLen(first), slices, blockLen)[i] + TotalLen(SliceBlocks(slices[i]), blockLen)
    {
      LandmarksPrefix(blockLen(first), slices, i + 1, blockLen);
      SlicesStep(first, blockLen(first), slices, i, blockLen);
    }
  }

  /** The length of two runs of blocks is the sum of their lengths. */
  lemma {:induction false} TotalLenConcat(xs: seq<Block>, ys: seq<Block>, blockLen: Block -> nat)
    ensures TotalLen(xs + ys, blockLen) == TotalLen(xs, blockLen) + TotalLen(ys, blockLen)
    decreases |ys|
  {
    if |ys| == 0 {
      assert xs + ys == xs;
    } else {
      assert (xs + ys)[..|xs + ys| - 1] == xs + ys[..|ys| - 1];
      TotalLenConcat(xs, ys[..|ys| - 1], blockLen);
    }
  }

  /** The landmarks of the first i slices are the first i + 1 landmarks of all of them:
      a later slice never changes an earlier landmark. */
  lemma {:induction false} LandmarksPrefix(start: int, slices: seq<Slice>, i: nat, blockLen: Block -> nat)
    requires i <= |slices|
    ensures Landmarks(start, slices[..i], blockLen) == Landmarks(start, slices, blockLen)[..i + 1]
    decreases |slices|
  {
    if i == |slices| {
      assert slices[..i] == slices;
    } else {
      var init := slices[..|slices| - 1];
      assert slices[..i] == init[..i];
      LandmarksPrefix(start, init, i, blockLen);
    }
  }

  /** The blocks of the first i slices begin the container's block list: a later slice
      never changes or reorders an earlier block. */
  lemma {:induction false} BlocksPrefix(first: Block, slices: seq<Slice>, i: nat)
    requires i <= |slices|
    ensures ContainerBlocks(first, slices[..i]) <= ContainerBlocks(first, slices)
    decreases |slices|
  {
    if i < |slices| {
      var init := slices[..|slices| - 1];
      assert slices[..i] == init[..i];
      BlocksPrefix(first, init, i);
    } else {
      assert slices[..i] == slices;
    }
  }

  /** The last landmark is the encoded length of all the blocks. */
  lemma {:induction false} LastLandmarkIsLength(first: Block, slices: seq<Slice>, blockLen: Block -> nat)
    ensures Landmarks(blockLen(first), slices, blockLen)[|slices|] == TotalLen(ContainerBlocks(first, slices), blockLen)
    decreases |slices|
  {
    if |slices| == 0 {
      assert [first][..0] == [];
    } else {
      var init := slices[..|slices| - 1];
      LastLandmarkIsLength(first, init, blockLen);
      TotalLenConcat(ContainerBlocks(first, init), SliceBlocks(slices[|slices| - 1]), blockLen);
    }
  }

  /** Landmark i is where slice i starts: the encoded length of the compression header
      block and of the blocks of the slices before it. The last landmark is where the
      container's blocks end. */
  lemma LandmarksAreOffsets(first: Block, slices: seq<Slice>, blockLen: Block -> nat)
    ensures forall i :: 0 <= i <= |slices| ==>
      Landmarks(blockLen(first), slices, blockLen)[i] == TotalLen(ContainerBlocks(first, slices[..i]), blockLen)
  {
    forall i | 0 <= i <= |slices|
      ensures Landmarks(blockLen(first), slices, blockLen)[i] == TotalLen(ContainerBlocks(first, slices[..i]), blockLen)
    {
      LandmarksPrefix(blockLen(first), slices, i, blockLen);
      LastLandmarkIsLength(first, slices[..i], blockLen);
    }
  }

  /** The landmarks never decrease. */
  lemma LandmarksNondecreasing(first: Block, slices: seq<Slice>, blockLen: Block -> nat)
    ensures var ls := Landmarks(blockLen(first), slices, blockLen);
      forall i, j :: 0 <= i <= j <= |slices| ==> ls[i] <= ls[j]
  {
    var ls := Landmarks(blockLen(first), slices, blockLen);
    LandmarksAreOffsets(first, slices, blockLen);
    forall i, j | 0 <= i <= j <= |slices| ensures ls[i] <= ls[j] {
      var shorter := ContainerBlocks(first, slices[..i]);
      var longer := ContainerBlocks(first, slices[..j]);
      assert slices[..j][..i] == slices[..i];
      BlocksPrefix(first, slices[..j], i);
      assert longer == shorter + longer[|shorter|..];
      TotalLenConcat(shorter, longer[|shorter|..], blockLen);
    }
  }

  /** `try_from_data_container` fails exactly when serialising the compression header
      fails, and then with that error. */
  lemma FromDataContainerFails<CH>(
    dc: DataContainer<CH>,
    writeCompressionHeader: CH -> Result<seq<byte>, IoError>,
    blockLen: Block -> nat)
    ensures FromDataContainer(dc, writeCompressionHeader, blockLen).Err? <==>
      writeCompressionHeader(dc.compressionHeader).Err?
    ensures FromDataContainer(dc, writeCompressionHeader, blockLen).Err? ==>
      FromDataContainer(dc, writeCompressionHeader, blockLen).error == writeCompressionHeader(dc.compressionHeader).error
  {
  }

  // ---------------------------------------------------------------------------
  // `try_from_data_container`

  /** The body of the slice loop of `try_from_data_container`: pushes the slice's core
      data block and then its external blocks, summing their lengths into the slice's
      length. */
  method AppendSlice(blocks: seq<Block>, slice: Slice, blockLen: Block -> nat)
    returns (blocks': seq<Block>, sliceLen: nat)
    ensures blocks' == blocks + SliceBlocks(slice)
    ensures sliceLen == TotalLen(SliceBlocks(slice), blockLen)
  {
    blocks' := blocks + [slice.coreDataBlock];
    sliceLen := 0;
    sliceLen := sliceLen + blockLen(slice.coreDataBlock);
    assert SliceBlocks(slice)[..1] == [slice.coreDataBlock];
    var j := 0;
    while j < |slice.externalBlocks|
      invariant 0 <= j <= |slice.externalBlocks|
      invariant blocks' == blocks + SliceBlocks(slice)[..j + 1]
      invariant sliceLen == TotalLen(SliceBlocks(slice)[..j + 1], blockLen)
    {
      PrefixStep(SliceBlocks(slice), j + 1, blockLen);
      blocks' := blocks' + [slice.externalBlocks[j]];
      sliceLen := sliceLen + blockLen(slice.externalBlocks[j]);
      j := j + 1;
    }
    assert SliceBlocks(slice)[..j + 1] == SliceBlocks(slice);
  }

  /** `Container::try_from_data_container`: serialises the compression header into its own
      block, then appends each slice's core data block and external blocks, pushing after
      each slice the landmark that ends it. */
  method TryFromDataContainer<CH>(
    dc: DataContainer<CH>,
    writeCompressionHeader: CH -> Result<seq<byte>, IoError>,
    blockLen: Block -> nat)
    returns (r: Result<Container, IoError>)
    ensures r == FromDataContainer(dc, writeCompressionHeader, blockLen)
  {
    var buf :- writeCompressionHeader(dc.compressionHeader);
    var block := Block(Raw, CompressionHeader, 0, |buf|, buf, 0);
    var landmarks := [blockLen(block)];
    var blocks := [block];
    var i := 0;
    while i < |dc.slices|
      invariant 0 <= i <= |dc.slices|
      invariant blocks == ContainerBlocks(block, dc.slices[..i])
      invariant landmarks == Landmarks(blockLen(block), dc.slices[..i], blockLen)
    {
      var sliceLen;
      blocks, sliceLen := AppendSlice(blocks, dc.slices[i], blockLen);
      SlicesStep(block, blockLen(block), dc.slices, i, blockLen);
      var lastLandmark := landmarks[|landmarks| - 1];
      landmarks := landmarks + [lastLandmark + sliceLen];
      i := i + 1;
    }
    assert dc.slices[..i] == dc.slices;
    var header := Header(0, NoReference, 0, 0, 0, 0, 0, |blocks|, landmarks, 0);
    return Ok(New(header, blocks));
  }
}
