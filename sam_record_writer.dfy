/** The SAM record line writer of noodles-sam (`write_record`) and its check of the
    header's reference sequence names against the `[:rname:∧*=][:rname:]*` rule of
    section 1.2.1 ("Character set restrictions") of the SAMv1 specification.

    The per-field writers (`write_name`, `write_flags`, ..., `write_data`) and the record
    accessors they are fed from are not part of this model. Each of the twelve steps of a
    record is given as the outcome of "read the field, then write it": the bytes written,
    or the error that ended the step. */
module SamRecordWriter {
  import opened Wrappers

  const TAB: byte := 0x09
  const LF: byte := 0x0A
  const ASTERISK: byte := 0x2A
  const EQUALS: byte := 0x3D

  datatype ErrorKind = InvalidInput | InvalidData | Other

  datatype IoError = IoError(kind: ErrorKind, message: string)

  /** The error `write_record` returns for a header with an invalid reference sequence name. */
  const INVALID_NAMES: IoError := IoError(InvalidInput, "invalid reference sequence names")

  datatype ReferenceSequence = ReferenceSequence(name: seq<byte>, length: nat)

  /** The part of a SAM header the writer consults: its reference sequences, keyed by name
      in insertion order. */
  datatype Header = Header(referenceSequences: seq<ReferenceSequence>)

  /** The outcome of one step of `write_record`. */
  type FieldOutput = Result<seq<byte>, IoError>

  /** A record as `write_record` sees it: for each mandatory field in SAM column order, and
      for the optional data, what reading and writing that field produces. The data writer
      emits a tab before each optional field itself. */
  datatype EncodedRecord = EncodedRecord(
    name: FieldOutput,
    flags: FieldOutput,
    referenceSequenceName: FieldOutput,
    alignmentStart: FieldOutput,
    mappingQuality: FieldOutput,
    cigar: FieldOutput,
    mateReferenceSequenceName: FieldOutput,
    mateAlignmentStart: FieldOutput,
    templateLength: FieldOutput,
    sequence: FieldOutput,
    qualityScores: FieldOutput,
    data: FieldOutput)

  /** Number of mandatory SAM fields. */
  const MANDATORY_FIELD_COUNT: nat := 11

  // ---------------------------------------------------------------------------
  // Reference sequence names

  /** `u8::is_ascii_graphic`: 0x21 ('!') through 0x7E ('~'). */
  predicate IsAsciiGraphic(b: byte) {
    0x21 <= b <= 0x7E
  }

  /** `is_valid_name_char`: graphic ASCII other than \ , " ` ' ( ) [ ] { } < > */
  predicate IsValidNameChar(b: byte) {
    IsAsciiGraphic(b) &&
    !(b == 0x5C || b == 0x2C || b == 0x22 || b == 0x60 || b == 0x27 || b == 0x28 ||
      b == 0x29 || b == 0x5B || b == 0x5D || b == 0x7B || b == 0x7D || b == 0x3C || b == 0x3E)
  }

  /** `iter.all(is_valid_name_char)`. */
  predicate AllValidNameChars(s: seq<byte>) {
    |s| == 0 || (IsValidNameChar(s[0]) && AllValidNameChars(s[1..]))
  }

  /** `is_valid_name`: a first byte that is a name char other than '*' and '=', then any
      number of name chars. */
  predicate IsValidName(name: seq<byte>) {
    if |name| == 0 then false
    else
      var b := name[0];
      if b == ASTERISK || b == EQUALS || !IsValidNameChar(b) then false
      else AllValidNameChars(name[1..])
  }

  /** `.keys().all(|name| is_valid_name(name))`. */
  predicate AllValidNames(rs: seq<ReferenceSequence>) {
    |rs| == 0 || (IsValidName(rs[0].name) && AllValidNames(rs[1..]))
  }

  /** `has_valid_reference_sequence_names`. */
  predicate HasValidReferenceSequenceNames(header: Header) {
    AllValidNames(header.referenceSequences)
  }

  /** Independent reference definition: the `[:rname:]` class of section 1.2.1 of the
      SAMv1 specification, `[0-9A-Za-z!#$%&*+./:;=?@^_|~-]`. */
  predicate IsRnameChar(b: byte) {
    (0x30 <= b <= 0x39) || (0x41 <= b <= 0x5A) || (0x61 <= b <= 0x7A) ||
    b in {0x21, 0x23, 0x24, 0x25, 0x26, 0x2A, 0x2B, 0x2E, 0x2F, 0x3A, 0x3B, 0x3D, 0x3F,
          0x40, 0x5E, 0x5F, 0x7C, 0x7E, 0x2D}
  }

  lemma NameCharIsRnameChar(b: byte)
    ensures IsValidNameChar(b) <==> IsRnameChar(b)
  {
  }

  lemma {:induction false} AllValidNameCharsIff(s: seq<byte>)
    ensures AllValidNameChars(s) <==> forall i :: 0 <= i < |s| ==> IsRnameChar(s[i])
  {
    if |s| > 0 {
      AllValidNameCharsIff(s[1..]);
      NameCharIsRnameChar(s[0]);
      assert forall i :: 1 <= i < |s| ==> s[i] == s[1..][i - 1];
    }
  }

  /** A name is valid exactly when it matches `[:rname:∧*=][:rname:]*`: it is non-empty,
      does not start with '*' or '=', and every byte is in `[:rname:]` ('*' and '=' are
      allowed after the first byte). */
  lemma IsValidNameIff(name: seq<byte>)
    ensures IsValidName(name) <==>
      |name| > 0 && name[0] != ASTERISK && name[0] != EQUALS &&
      forall i :: 0 <= i < |name| ==> IsRnameChar(name[i])
  {
    if |name| > 0 {
      AllValidNameCharsIff(name[1..]);
      NameCharIsRnameChar(name[0]);
      assert forall i :: 1 <= i < |name| ==> name[i] == name[1..][i - 1];
    }
  }

  lemma {:induction false} AllValidNamesIff(rs: seq<ReferenceSequence>)
    ensures AllValidNames(rs) <==> forall i :: 0 <= i < |rs| ==> IsValidName(rs[i].name)
  {
    if |rs| > 0 {
      AllValidNamesIff(rs[1..]);
      assert forall i :: 1 <= i < |rs| ==> rs[i] == rs[1..][i - 1];
    }
  }

  /** A header is valid iff every reference sequence name is valid; in particular a header
      without reference sequences is valid. */
  lemma HeaderValidIff(header: Header)
    ensures HasValidReferenceSequenceNames(header) <==>
      forall i :: 0 <= i < |header.referenceSequences| ==> IsValidName(header.referenceSequences[i].name)
    ensures header.referenceSequences == [] ==> HasValidReferenceSequenceNames(header)
  {
    AllValidNamesIff(header.referenceSequences);
  }

  /** Sample names: "sq0" and "chr1*=" are valid; the empty name, "*", "=sq0" and "sq 0"
      are not. */
  lemma NameExamples()
    ensures IsValidName([0x73, 0x71, 0x30])
    ensures IsValidName([0x63, 0x68, 0x72, 0x31, 0x2A, 0x3D])
    ensures !IsValidName([])
    ensures !IsValidName([ASTERISK])
    ensures !IsValidName([EQUALS, 0x73, 0x71, 0x30])
    ensures !IsValidName([0x73, 0x71, 0x20, 0x30])
  {
    assert AllValidNameChars([0x30]) by { assert AllValidNameChars([0x30][1..]); }
    assert [0x71, 0x30][1..] == [0x30];
    assert [0x68, 0x72, 0x31, 0x2A, 0x3D][1..] == [0x72, 0x31, 0x2A, 0x3D];
    assert [0x72, 0x31, 0x2A, 0x3D][1..] == [0x31, 0x2A, 0x3D];
    assert [0x31, 0x2A, 0x3D][1..] == [0x2A, 0x3D];
    assert [0x2A, 0x3D][1..] == [0x3D];
    assert AllValidNameChars([0x3D]) by { assert AllValidNameChars([0x3D][1..]); }
    assert [0x71, 0x20, 0x30][1..] == [0x20, 0x30];
  }

  // ---------------------------------------------------------------------------
  // Framing

  /** Byte strings joined with tabs, as a SAM line joins its mandatory fields. */
  function Join(fs: seq<seq<byte>>): seq<byte>
    requires |fs| >= 1
  {
    if |fs| == 1 then fs[0] else fs[0] + [TAB] + Join(fs[1..])
  }

  /** The bytes written by the first six steps (QNAME through CIGAR): the fields that
      succeed joined by tabs, and the tab written before the field that fails. */
  function LeadingEmitted(record: EncodedRecord): seq<byte> {
    if record.name.Err? then []
    else if record.flags.Err? then Join([record.name.value]) + [TAB]
    else if record.referenceSequenceName.Err? then Join([record.name.value, record.flags.value]) + [TAB]
    else if record.alignmentStart.Err? then Join([record.name.value, record.flags.value, record.referenceSequenceName.value]) + [TAB]
    else if record.mappingQuality.Err? then Join([record.name.value, record.flags.value, record.referenceSequenceName.value, record.alignmentStart.value]) + [TAB]
    else if record.cigar.Err? then Join([record.name.value, record.flags.value, record.referenceSequenceName.value, record.alignmentStart.value, record.mappingQuality.value]) + [TAB]
    else Join([record.name.value, record.flags.value, record.referenceSequenceName.value, record.alignmentStart.value, record.mappingQuality.value, record.cigar.value])
  }

  /** The outcome of the first six steps: the error of the first that fails. */
  function LeadingOutcome(record: EncodedRecord): Result<(), IoError> {
    if record.name.Err? then Err(record.name.error)
    else if record.flags.Err? then Err(record.flags.error)
    else if record.referenceSequenceName.Err? then Err(record.referenceSequenceName.error)
    else if record.alignmentStart.Err? then Err(record.alignmentStart.error)
    else if record.mappingQuality.Err? then Err(record.mappingQuality.error)
    else if record.cigar.Err? then Err(record.cigar.error)
    else Ok(())
  }

  /** The bytes written by the last six steps (RNEXT through the optional data): a tab,
      the mandatory fields that succeed joined by tabs and the tab written before the
      field that fails, or, when all succeed, the data and a newline. */
  function TrailingEmitted(record: EncodedRecord): seq<byte> {
    if record.mateReferenceSequenceName.Err? then [TAB]
    else if record.mateAlignmentStart.Err? then [TAB] + Join([record.mateReferenceSequenceName.value]) + [TAB]
    else if record.templateLength.Err? then [TAB] + Join([record.mateReferenceSequenceName.value, record.mateAlignmentStart.value]) + [TAB]
    else if record.sequence.Err? then [TAB] + Join([record.mateReferenceSequenceName.value, record.mateAlignmentStart.value, record.templateLength.value]) + [TAB]
    else if record.qualityScores.Err? then [TAB] + Join([record.mateReferenceSequenceName.value, record.mateAlignmentStart.value, record.templateLength.value, record.sequence.value]) + [TAB]
    else if record.data.Err? then [TAB] + Join([record.mateReferenceSequenceName.value, record.mateAlignmentStart.value, record.templateLength.value, record.sequence.value, record.qualityScores.value])
    else [TAB] + Join([record.mateReferenceSequenceName.value, record.mateAlignmentStart.value, record.templateLength.value, record.sequence.value, record.qualityScores.value]) + record.data.value + [LF]
  }

  /** The outcome of the last six steps: the error of the first that fails. */
  function TrailingOutcome(record: EncodedRecord): Result<(), IoError> {
    if record.mateReferenceSequenceName.Err? then Err(record.mateReferenceSequenceName.error)
    else if record.mateAlignmentStart.Err? then Err(record.mateAlignmentStart.error)
    else if record.templateLength.Err? then Err(record.templateLength.error)
    else if record.sequence.Err? then Err(record.sequence.error)
    else if record.qualityScores.Err? then Err(record.qualityScores.error)
    else if record.data.Err? then Err(record.data.error)
    else Ok(())
  }

  /** Everything `write_record` writes to the sink for this header and record: nothing for
      an invalid header; otherwise the bytes of each step that succeeds, a tab before each
      mandatory field after the first, and after the data a newline; nothing more once a
      step fails. */
  function Emitted(header: Header, record: EncodedRecord): seq<byte> {
    if !HasValidReferenceSequenceNames(header) then []
    else if LeadingOutcome(record).Err? then LeadingEmitted(record)
    else LeadingEmitted(record) + TrailingEmitted(record)
  }

  /** What `write_record` returns for this header and record: the header error, else the
      error of the first step that fails, else success. */
  function Outcome(header: Header, record: EncodedRecord): Result<(), IoError> {
    if !HasValidReferenceSequenceNames(header) then Err(INVALID_NAMES)
    else if LeadingOutcome(record).Err? then LeadingOutcome(record)
    else TrailingOutcome(record)
  }

  /** Index of the first tab in s, or |s| when there is none. */
  function IndexOfTab(s: seq<byte>): (i: nat)
    ensures i <= |s|
    ensures forall j :: 0 <= j < i ==> s[j] != TAB
    ensures i < |s| ==> s[i] == TAB
  {
    if |s| == 0 || s[0] == TAB then 0 else 1 + IndexOfTab(s[1..])
  }

  /** A line cut at its tabs: the inverse of Join on tab-free fields. */
  function Split(s: seq<byte>): (fs: seq<seq<byte>>)
    ensures |fs| >= 1
    decreases |s|
  {
    var i := IndexOfTab(s);
    if i == |s| then [s] else [s[..i]] + Split(s[i + 1..])
  }

  predicate TabFree(f: seq<byte>) {
    forall j :: 0 <= j < |f| ==> f[j] != TAB
  }

  predicate AllTabFree(fs: seq<seq<byte>>) {
    forall k :: 0 <= k < |fs| ==> TabFree(fs[k])
  }

  lemma {:induction false} JoinAppend(fs: seq<seq<byte>>, f: seq<byte>)
    requires |fs| >= 1
    ensures Join(fs + [f]) == Join(fs) + [TAB] + f
    decreases |fs|
  {
    if |fs| > 1 {
      assert (fs + [f])[1..] == fs[1..] + [f];
      JoinAppend(fs[1..], f);
    }
  }

  lemma {:induction false} JoinConcat(xs: seq<seq<byte>>, ys: seq<seq<byte>>)
    requires |xs| >= 1 && |ys| >= 1
    ensures Join(xs + ys) == Join(xs) + [TAB] + Join(ys)
    decreases |xs|
  {
    if |xs| == 1 {
      assert (xs + ys)[1..] == ys;
    } else {
      assert (xs + ys)[1..] == xs[1..] + ys;
      JoinConcat(xs[1..], ys);
    }
  }

  /** Splitting tab-joined, tab-free fields at their tabs gives the fields back. */
  lemma {:induction false} SplitJoin(fs: seq<seq<byte>>)
    requires |fs| >= 1 && AllTabFree(fs)
    ensures Split(Join(fs)) == fs
    decreases |fs|
  {
    var s := Join(fs);
    if |fs| == 1 {
      assert IndexOfTab(s) == |s|;
    } else {
      var rest := Join(fs[1..]);
      assert s == fs[0] + [TAB] + rest;
      var i := IndexOfTab(s);
      assert s[|fs[0]|] == TAB;
      assert i == |fs[0]|;
      assert s[..i] == fs[0];
      assert s[i + 1..] == rest;
      assert AllTabFree(fs[1..]) by {
        forall k | 0 <= k < |fs[1..]| ensures TabFree(fs[1..][k]) { assert fs[1..][k] == fs[k + 1]; }
      }
      SplitJoin(fs[1..]);
      assert [fs[0]] + fs[1..] == fs;
    }
  }

  /** Tab-joining n tab-free fields puts exactly n - 1 tabs in the result. */
  lemma {:induction false} JoinTabCount(fs: seq<seq<byte>>)
    requires |fs| >= 1 && AllTabFree(fs)
    ensures multiset(Join(fs))[TAB] == |fs| - 1
    decreases |fs|
  {
    assert TabFree(fs[0]);
    assert TAB !in multiset(fs[0]);
    if |fs| > 1 {
      assert AllTabFree(fs[1..]) by {
        forall k | 0 <= k < |fs[1..]| ensures TabFree(fs[1..][k]) { assert fs[1..][k] == fs[k + 1]; }
      }
      JoinTabCount(fs[1..]);
      assert multiset(Join(fs)) == multiset(fs[0]) + multiset([TAB]) + multiset(Join(fs[1..]));
    }
  }

  /** The eleven mandatory steps all succeed. */
  predicate MandatoryOk(record: EncodedRecord) {
    record.name.Ok? && record.flags.Ok? && record.referenceSequenceName.Ok? &&
    record.alignmentStart.Ok? && record.mappingQuality.Ok? && record.cigar.Ok? &&
    record.mateReferenceSequenceName.Ok? && record.mateAlignmentStart.Ok? &&
    record.templateLength.Ok? && record.sequence.Ok? && record.qualityScores.Ok?
  }

  /** The bytes of the eleven mandatory fields, in SAM column order. */
  function MandatoryFields(record: EncodedRecord): (fs: seq<seq<byte>>)
    requires MandatoryOk(record)
    ensures |fs| == MANDATORY_FIELD_COUNT
  {
    [record.name.value, record.flags.value, record.referenceSequenceName.value,
     record.alignmentStart.value, record.mappingQuality.value, record.cigar.value,
     record.mateReferenceSequenceName.value, record.mateAlignmentStart.value,
     record.templateLength.value, record.sequence.value, record.qualityScores.value]
  }

  /** `write_record` succeeds exactly when the header's names are valid and every step
      succeeds. */
  lemma OutcomeOkIff(header: Header, record: EncodedRecord)
    ensures Outcome(header, record).Ok? <==>
      HasValidReferenceSequenceNames(header) && MandatoryOk(record) && record.data.Ok?
  {
  }

  /** An invalid header name is reported as an InvalidInput error before any byte is
      written, whatever the record. */
  lemma InvalidHeaderWritesNothing(header: Header, record: EncodedRecord)
    requires !HasValidReferenceSequenceNames(header)
    ensures Outcome(header, record) == Err(INVALID_NAMES)
    ensures Outcome(header, record).error.kind == InvalidInput
    ensures Emitted(header, record) == []
  {
  }

  /** The first eleven fields of a record whose mandatory steps all succeed, split where
      `write_record` is split into its two halves. */
  lemma MandatoryFieldsHalves(record: EncodedRecord)
    requires MandatoryOk(record)
    ensures MandatoryFields(record) == [record.name.value, record.flags.value, record.referenceSequenceName.value, record.alignmentStart.value, record.mappingQuality.value, record.cigar.value] + [record.mateReferenceSequenceName.value, record.mateAlignmentStart.value, record.templateLength.value, record.sequence.value, record.qualityScores.value]
  {
  }

  /** A successful write emits the eleven mandatory fields joined by tabs, the optional
      data, and one newline (with SplitJoin and JoinTabCount: exactly ten tabs between
      tab-free fields, and the fields can be read back by splitting at them). */
  lemma {:induction false} SuccessfulLine(header: Header, record: EncodedRecord)
    requires Outcome(header, record).Ok?
    ensures MandatoryOk(record) && record.data.Ok?
    ensures Emitted(header, record) == Join(MandatoryFields(record)) + record.data.value + [LF]
  {
    OutcomeOkIff(header, record);
    MandatoryFieldsHalves(record);
    var lead := [record.name.value, record.flags.value, record.referenceSequenceName.value, record.alignmentStart.value, record.mappingQuality.value, record.cigar.value];
    var trail := [record.mateReferenceSequenceName.value, record.mateAlignmentStart.value, record.templateLength.value, record.sequence.value, record.qualityScores.value];
    JoinConcat(lead, trail);
    assert LeadingEmitted(record) == Join(lead);
    assert TrailingEmitted(record) == [TAB] + Join(trail) + record.data.value + [LF];
    AppendTerminated(Join(lead), [TAB] + Join(trail), record.data.value);
  }

  /** The sink `write_record` writes to (a growable byte buffer, which never fails). */
  class ByteSink {
    var bytes: seq<byte>

    constructor ()
      ensures bytes == []
    {
      bytes := [];
    }

    /** `write_all`. */
    method WriteAll(b: seq<byte>)
      modifies this
      ensures bytes == old(bytes) + b
    {
      bytes := bytes + b;
    }
  }

  /** One step of `write_record` after the first: the tab delimiter, then the field. */
  method WriteDelimitedField(writer: ByteSink, field: FieldOutput) returns (r: Result<(), IoError>)
    modifies writer
    ensures r == if field.Ok? then Ok(()) else Err(field.error)
    ensures writer.bytes == old(writer.bytes) + [TAB] + (if field.Ok? then field.value else [])
  {
    writer.WriteAll([TAB]);
    var bytes :- field;
    writer.WriteAll(bytes);
    return Ok(());
  }

  /** Appending a delimited field to what is already written. */
  lemma AppendDelimited(start: seq<byte>, line: seq<byte>, field: seq<byte>)
    ensures start + line + [TAB] + field == start + (line + [TAB] + field)
  {
  }

  /** Appending the data and the newline to what is already written. */
  lemma AppendTerminated(start: seq<byte>, line: seq<byte>, data: seq<byte>)
    ensures start + line + data + [LF] == start + (line + data + [LF])
  {
  }

  /** The first six steps of `write_record`: QNAME, then FLAG, RNAME, POS, MAPQ and CIGAR,
      each after a tab. (`write_record` is written here in two halves, each a method of
      its own.) */
  method WriteLeadingFields(writer: ByteSink, record: EncodedRecord) returns (r: Result<(), IoError>)
    modifies writer
    ensures r == LeadingOutcome(record)
    ensures writer.bytes == old(writer.bytes) + LeadingEmitted(record)
  {
    var name :- record.name;
    writer.WriteAll(name);
    ghost var done := [name];

    r := WriteDelimitedField(writer, record.flags);
    if r.Err? { return; }
    AppendDelimited(old(writer.bytes), Join(done), record.flags.value);
    JoinAppend(done, record.flags.value);
    done := done + [record.flags.value];
    assert done == [record.name.value, record.flags.value];

    r := WriteDelimitedField(writer, record.referenceSequenceName);
    if r.Err? { return; }
    AppendDelimited(old(writer.bytes), Join(done), record.referenceSequenceName.value);
    JoinAppend(done, record.referenceSequenceName.value);
    done := done + [record.referenceSequenceName.value];
    assert done == [record.name.value, record.flags.value, record.referenceSequenceName.value];

    r := WriteDelimitedField(writer, record.alignmentStart);
    if r.Err? { return; }
    AppendDelimited(old(writer.bytes), Join(done), record.alignmentStart.value);
    JoinAppend(done, record.alignmentStart.value);
    done := done + [record.alignmentStart.value];
    assert done == [record.name.value, record.flags.value, record.referenceSequenceName.value, record.alignmentStart.value];

    r := WriteDelimitedField(writer, record.mappingQuality);
    if r.Err? { return; }
    AppendDelimited(old(writer.bytes), Join(done), record.mappingQuality.value);
    JoinAppend(done, record.mappingQuality.value);
    done := done + [record.mappingQuality.value];
    assert done == [record.name.value, record.flags.value, record.referenceSequenceName.value, record.alignmentStart.value, record.mappingQuality.value];

    r := WriteDelimitedField(writer, record.cigar);
    if r.Err? { return; }
    AppendDelimited(old(writer.bytes), Join(done), record.cigar.value);
    JoinAppend(done, record.cigar.value);
    done := done + [record.cigar.value];
    assert done == [record.name.value, record.flags.value, record.referenceSequenceName.value, record.alignmentStart.value, record.mappingQuality.value, record.cigar.value];
  }

  /** The last six steps of `write_record`: RNEXT, PNEXT, TLEN, SEQ and QUAL, each after a
      tab, then the optional data and a newline. */
  method WriteTrailingFields(writer: ByteSink, record: EncodedRecord) returns (r: Result<(), IoError>)
    modifies writer
    ensures r == TrailingOutcome(record)
    ensures writer.bytes == old(writer.bytes) + TrailingEmitted(record)
  {
    r := WriteDelimitedField(writer, record.mateReferenceSequenceName);
    if r.Err? { return; }
    ghost var done := [record.mateReferenceSequenceName.value];
    assert writer.bytes == old(writer.bytes) + [TAB] + Join(done);

    r := WriteDelimitedField(writer, record.mateAlignmentStart);
    if r.Err? { return; }
    AppendDelimited(old(writer.bytes) + [TAB], Join(done), record.mateAlignmentStart.value);
    JoinAppend(done, record.mateAlignmentStart.value);
    done := done + [record.mateAlignmentStart.value];
    assert done == [record.mateReferenceSequenceName.value, record.mateAlignmentStart.value];

    r := WriteDelimitedField(writer, record.templateLength);
    if r.Err? { return; }
    AppendDelimited(old(writer.bytes) + [TAB], Join(done), record.templateLength.value);
    JoinAppend(done, record.templateLength.value);
    done := done + [record.templateLength.value];
    assert done == [record.mateReferenceSequenceName.value, record.mateAlignmentStart.value, record.templateLength.value];

    r := WriteDelimitedField(writer, record.sequence);
    if r.Err? { return; }
    AppendDelimited(old(writer.bytes) + [TAB], Join(done), record.sequence.value);
    JoinAppend(done, record.sequence.value);
    done := done + [record.sequence.value];
    assert done == [record.mateReferenceSequenceName.value, record.mateAlignmentStart.value, record.templateLength.value, record.sequence.value];

    r := WriteDelimitedField(writer, record.qualityScores);
    if r.Err? { return; }
    AppendDelimited(old(writer.bytes) + [TAB], Join(done), record.qualityScores.value);
    JoinAppend(done, record.qualityScores.value);
    done := done + [record.qualityScores.value];
    assert done == [record.mateReferenceSequenceName.value, record.mateAlignmentStart.value, record.templateLength.value, record.sequence.value, record.qualityScores.value];

    var data :- record.data;
    writer.WriteAll(data);
    writer.WriteAll([LF]);
    AppendTerminated(old(writer.bytes), [TAB] + Join(done), data);
    return Ok(());
  }

  /** `write_record`: refuses a header with an invalid reference sequence name before
      writing anything, then writes the eleven mandatory fields separated by tabs, the
      optional data and a newline, stopping at the first step that fails. */
  method WriteRecord(writer: ByteSink, header: Header, record: EncodedRecord) returns (r: Result<(), IoError>)
    modifies writer
    ensures r == Outcome(header, record)
    ensures writer.bytes == old(writer.bytes) + Emitted(header, record)
  {
    if !HasValidReferenceSequenceNames(header) {
      return Err(INVALID_NAMES);
    }
    r := WriteLeadingFields(writer, record);
    if r.Err? { return; }
    r := WriteTrailingFields(writer, record);
  }
}
