/** The BAM-to-SAM record conversion of noodles-bam (`Record::try_into_sam_record`) and
    its reference sequence lookup (`get_reference_sequence_name`).

    The conversion feeds a SAM record builder field by field, copying some fields always
    and others only when the BAM record has them. The conversions of the individual fields
    (read name decoding and parsing, reference sequence name parsing, and the CIGAR,
    sequence, quality score and data conversions) and the SAM builder's own `build`
    validation are not part of this model: they are parameters, with abstract types for
    the SAM-side values they produce. The BAM record is given through its accessors:
    positions are already the optional 1-based positions they return. */
module BamConvert {
  import opened Wrappers

  datatype ErrorKind = InvalidInput | InvalidData | Other

  datatype IoError = IoError(kind: ErrorKind, message: string)

  /** The error of a reference sequence id the header cannot resolve. */
  const INVALID_REFERENCE_SEQUENCE_ID: IoError :=
    IoError(InvalidInput, "invalid reference sequence ID")

  /** The SAM read name that stands for a missing one. */
  const MISSING_READ_NAME: string := "*"

  /** 2^64: `usize` on a 64-bit target. */
  const USIZE_MODULUS: int := 0x1_0000_0000_0000_0000

  /** `id as usize` for an `i32`: a negative id wraps round to the top of the range. */
  function AsUsize(id: i32): (n: nat)
    ensures n < USIZE_MODULUS
    ensures 0 <= id ==> n == id
    ensures id < 0 ==> n >= USIZE_MODULUS - 0x8000_0000
  {
    if id < 0 then id + USIZE_MODULUS else id
  }

  /** `get_reference_sequence_name`: no id, no name; otherwise the name of the reference
      sequence at that index of the header, which must exist and parse. `names` lists the
      header's reference sequence names in order; `parseName` is the name parser. */
  function GetReferenceSequenceName(
    names: seq<string>, id: Option<i32>, parseName: string -> Option<string>)
    : (r: Result<Option<string>, IoError>)
    ensures id.None? ==> r == Ok(None)
    ensures id.Some? ==>
      (r.Ok? <==> AsUsize(id.value) < |names| && parseName(names[AsUsize(id.value)]).Some?)
    ensures id.Some? && r.Ok? ==> r.value == Some(parseName(names[AsUsize(id.value)]).value)
    ensures r.Err? ==> r.error == INVALID_REFERENCE_SEQUENCE_ID
  {
    match id
    case None => Ok(None)
    case Some(i) =>
      var index := AsUsize(i);
      if index < |names| && parseName(names[index]).Some? then
        Ok(Some(parseName(names[index]).value))
      else
        Err(INVALID_REFERENCE_SEQUENCE_ID)
  }

  /** An id naming a reference sequence whose name parses gives that name. */
  lemma ValidReferenceSequenceId(names: seq<string>, i: i32, parseName: string -> Option<string>)
    requires 0 <= i < |names| && parseName(names[i]).Some?
    ensures GetReferenceSequenceName(names, Some(i), parseName) == Ok(Some(parseName(names[i]).value))
  {
  }

  /** A negative id, an id past the last reference sequence, or a name that does not parse
      is the one error, for every header short enough to be held in memory. */
  lemma InvalidReferenceSequenceId(names: seq<string>, i: i32, parseName: string -> Option<string>)
    requires |names| <= USIZE_MODULUS - 0x8000_0000
    requires i < 0 || i >= |names| || parseName(names[i]).None?
    ensures GetReferenceSequenceName(names, Some(i), parseName) == Err(INVALID_REFERENCE_SEQUENCE_ID)
  {
  }

  /** The header of the conversion test: ids 0, 1 and 2 name "sq0", "sq1" and "sq2"; id 3
      and id -1 name nothing. */
  lemma ReferenceSequenceNameExamples()
    ensures GetReferenceSequenceName(["sq0", "sq1", "sq2"], Some(1), s => Some(s)) == Ok(Some("sq1"))
    ensures GetReferenceSequenceName(["sq0", "sq1", "sq2"], Some(3), s => Some(s)) ==
      Err(INVALID_REFERENCE_SEQUENCE_ID)
    ensures GetReferenceSequenceName(["sq0", "sq1", "sq2"], Some(-1), s => Some(s)) ==
      Err(INVALID_REFERENCE_SEQUENCE_ID)
    ensures GetReferenceSequenceName(["sq0", "sq1", "sq2"], None, s => Some(s)) == Ok(None)
  {
  }

  /** A BAM record, through its accessors. */
  datatype BamRecord = BamRecord(
    readName: seq<byte>,
    flags: u16,
    referenceSequenceId: Option<i32>,
    position: Option<nat>,
    mappingQuality: byte,
    cigar: seq<u32>,
    mateReferenceSequenceId: Option<i32>,
    matePosition: Option<nat>,
    templateLength: i32,
    sequence: seq<byte>,
    qualityScores: seq<byte>,
    data: seq<byte>)

  /** The SAM record builder as the conversion drives it: each field is unset (`None`)
      until its setter is called. */
  datatype SamBuilder<C, S, Q, D> = SamBuilder(
    readName: Option<string>,
    flags: Option<u16>,
    referenceSequenceName: Option<string>,
    position: Option<nat>,
    mappingQuality: Option<byte>,
    cigar: Option<C>,
    mateReferenceSequenceName: Option<string>,
    matePosition: Option<nat>,
    templateLength: Option<i32>,
    sequence: Option<S>,
    qualityScores: Option<Q>,
    data: Option<D>)

  /** `sam::Record::builder()`: nothing set. */
  function NewSamBuilder<C, S, Q, D>(): SamBuilder<C, S, Q, D> {
    SamBuilder(None, None, None, None, None, None, None, None, None, None, None, None)
  }

  /** The field conversions the source delegates to. The errors of those that report a
      message are wrapped by the conversion with the kind it chooses. */
  datatype Conversions<C, S, Q, D> = Conversions(
    readNameText: seq<byte> -> Result<string, string>,
    parseReadName: string -> Result<string, string>,
    parseReferenceSequenceName: string -> Option<string>,
    cigar: seq<u32> -> Result<C, IoError>,
    sequence: seq<byte> -> S,
    qualityScores: seq<byte> -> Result<Q, string>,
    data: seq<byte> -> Result<D, string>)

  /** `map_err(|e| io::Error::new(kind, e))`. */
  function WithKind<T>(r: Result<T, string>, kind: ErrorKind): (w: Result<T, IoError>)
    ensures w.Ok? <==> r.Ok?
    ensures w.Ok? ==> w.value == r.value
    ensures w.Err? ==> w.error == IoError(kind, r.error)
  {
    match r
    case Ok(v) => Ok(v)
    case Err(e) => Err(IoError(kind, e))
  }

  /** The read name step: the raw name is decoded, and unless it is "*" it is parsed and
      set; either failure is InvalidInput. */
  function WithReadName<C, S, Q, D>(b: SamBuilder<C, S, Q, D>, rec: BamRecord, conv: Conversions<C, S, Q, D>)
    : (r: Result<SamBuilder<C, S, Q, D>, IoError>)
    ensures var raw := conv.readNameText(rec.readName);
      && (raw.Err? ==> r == Err(IoError(InvalidInput, raw.error)))
      && (raw == Ok(MISSING_READ_NAME) ==> r == Ok(b))
      && (raw.Ok? && raw.value != MISSING_READ_NAME ==>
        var n := conv.parseReadName(raw.value);
        r == if n.Ok? then Ok(b.(readName := Some(n.value))) else Err(IoError(InvalidInput, n.error)))
  {
    var rawReadName :- WithKind(conv.readNameText(rec.readName), InvalidInput);
    if rawReadName != MISSING_READ_NAME then
      var readName :- WithKind(conv.parseReadName(rawReadName), InvalidInput);
      Ok(b.(readName := Some(readName)))
    else Ok(b)
  }

  /** The alignment step: the flags, the reference sequence name when the record has an
      id, the position when it has one, the mapping quality, and the converted CIGAR. */
  function WithAlignment<C, S, Q, D>(
    b: SamBuilder<C, S, Q, D>, rec: BamRecord, names: seq<string>, conv: Conversions<C, S, Q, D>)
    : (r: Result<SamBuilder<C, S, Q, D>, IoError>)
    ensures var rname := GetReferenceSequenceName(names, rec.referenceSequenceId, conv.parseReferenceSequenceName);
      var cigar := conv.cigar(rec.cigar);
      && (rname.Err? ==> r == Err(rname.error))
      && (rname.Ok? && cigar.Err? ==> r == Err(cigar.error))
      && (rname.Ok? && cigar.Ok? ==>
        (r.Ok? &&
         r.value == b.(flags := Some(rec.flags),
           referenceSequenceName := if rname.value.Some? then rname.value else b.referenceSequenceName,
           position := if rec.position.Some? then rec.position else b.position,
           mappingQuality := Some(rec.mappingQuality),
           cigar := Some(cigar.value))))
  {
    var b := b.(flags := Some(rec.flags));
    var rname :- GetReferenceSequenceName(names, rec.referenceSequenceId, conv.parseReferenceSequenceName);
    var b := if rname.Some? then b.(referenceSequenceName := rname) else b;
    var b := if rec.position.Some? then b.(position := rec.position) else b;
    var b := b.(mappingQuality := Some(rec.mappingQuality));
    var cigar :- conv.cigar(rec.cigar);
    Ok(b.(cigar := Some(cigar)))
  }

  /** The mate step: the mate reference sequence name when the record has a mate id, the
      mate position when it has one, and the template length. */
  function WithMate<C, S, Q, D>(
    b: SamBuilder<C, S, Q, D>, rec: BamRecord, names: seq<string>, conv: Conversions<C, S, Q, D>)
    : (r: Result<SamBuilder<C, S, Q, D>, IoError>)
    ensures var rnext := GetReferenceSequenceName(names, rec.mateReferenceSequenceId, conv.parseReferenceSequenceName);
      && (rnext.Err? ==> r == Err(rnext.error))
      && (rnext.Ok? ==>
        (r.Ok? &&
         r.value == b.(
           mateReferenceSequenceName := if rnext.value.Some? then rnext.value else b.mateReferenceSequenceName,
           matePosition := if rec.matePosition.Some? then rec.matePosition else b.matePosition,
           templateLength := Some(rec.templateLength))))
  {
    var rnext :- GetReferenceSequenceName(names, rec.mateReferenceSequenceId, conv.parseReferenceSequenceName);
    var b := if rnext.Some? then b.(mateReferenceSequenceName := rnext) else b;
    var b := if rec.matePosition.Some? then b.(matePosition := rec.matePosition) else b;
    Ok(b.(templateLength := Some(rec.templateLength)))
  }

  /** The last step: the sequence and the quality scores, each only when not empty, then
      the data; a failed quality score or data conversion is InvalidData. */
  function WithSequenceAndData<C, S, Q, D>(
    b: SamBuilder<C, S, Q, D>, rec: BamRecord, conv: Conversions<C, S, Q, D>)
    : (r: Result<SamBuilder<C, S, Q, D>, IoError>)
    ensures var qual := conv.qualityScores(rec.qualityScores);
      var data := conv.data(rec.data);
      var b1 := if |rec.sequence| != 0 then b.(sequence := Some(conv.sequence(rec.sequence))) else b;
      && (|rec.qualityScores| != 0 && qual.Err? ==> r == Err(IoError(InvalidData, qual.error)))
      && ((|rec.qualityScores| == 0 || qual.Ok?) && data.Err? ==> r == Err(IoError(InvalidData, data.error)))
      && ((|rec.qualityScores| == 0 || qual.Ok?) && data.Ok? ==>
        (r.Ok? &&
         r.value == b1.(
           qualityScores := if |rec.qualityScores| != 0 then Some(qual.value) else b.qualityScores,
           data := Some(data.value))))
  {
    var b := if |rec.sequence| != 0 then b.(sequence := Some(conv.sequence(rec.sequence))) else b;
    var b :- if |rec.qualityScores| != 0 then
        var qual :- WithKind(conv.qualityScores(rec.qualityScores), InvalidData);
        Ok(b.(qualityScores := Some(qual)))
      else Ok(b);
    var data :- WithKind(conv.data(rec.data), InvalidData);
    Ok(b.(data := Some(data)))
  }

  /** The body of `try_into_sam_record` up to `build`: the builder it fills in, or the
      first error met. */
  function FillBuilder<C, S, Q, D>(
    rec: BamRecord, names: seq<string>, conv: Conversions<C, S, Q, D>)
    : Result<SamBuilder<C, S, Q, D>, IoError>
  {
    var b :- WithReadName(NewSamBuilder(), rec, conv);
    var b :- WithAlignment(b, rec, names, conv);
    var b :- WithMate(b, rec, names, conv);
    WithSequenceAndData(b, rec, conv)
  }

  /** `try_into_sam_record`: the filled builder, built; a failed `build` is InvalidData. */
  function TryIntoSamRecord<C, S, Q, D, R>(
    rec: BamRecord, names: seq<string>, conv: Conversions<C, S, Q, D>,
    build: SamBuilder<C, S, Q, D> -> Result<R, string>)
    : (r: Result<R, IoError>)
    ensures FillBuilder(rec, names, conv).Err? ==> r == Err(FillBuilder(rec, names, conv).error)
    ensures FillBuilder(rec, names, conv).Ok? ==>
      r == WithKind(build(FillBuilder(rec, names, conv).value), InvalidData)
  {
    var b :- FillBuilder(rec, names, conv);
    WithKind(build(b), InvalidData)
  }

  /** The read name decodes and, unless it is "*", parses. */
  predicate ReadNameOk<C, S, Q, D>(rec: BamRecord, conv: Conversions<C, S, Q, D>) {
    var raw := conv.readNameText(rec.readName);
    raw.Ok? && (raw.value == MISSING_READ_NAME || conv.parseReadName(raw.value).Ok?)
  }

  /** The reference sequence id, if any, names a reference sequence of the header. */
  predicate ReferenceOk<C, S, Q, D>(rec: BamRecord, names: seq<string>, conv: Conversions<C, S, Q, D>) {
    GetReferenceSequenceName(names, rec.referenceSequenceId, conv.parseReferenceSequenceName).Ok?
  }

  /** The mate reference sequence id, if any, names a reference sequence of the header. */
  predicate MateReferenceOk<C, S, Q, D>(rec: BamRecord, names: seq<string>, conv: Conversions<C, S, Q, D>) {
    GetReferenceSequenceName(names, rec.mateReferenceSequenceId, conv.parseReferenceSequenceName).Ok?
  }

  /** The quality scores are empty or convert. */
  predicate QualityScoresOk<C, S, Q, D>(rec: BamRecord, conv: Conversions<C, S, Q, D>) {
    |rec.qualityScores| == 0 || conv.qualityScores(rec.qualityScores).Ok?
  }

  /** Every step of the conversion that can fail succeeds, in the order they run. */
  predicate StepsSucceed<C, S, Q, D>(rec: BamRecord, names: seq<string>, conv: Conversions<C, S, Q, D>) {
    ReadNameOk(rec, conv) &&
    ReferenceOk(rec, names, conv) &&
    conv.cigar(rec.cigar).Ok? &&
    MateReferenceOk(rec, names, conv) &&
    QualityScoresOk(rec, conv) &&
    conv.data(rec.data).Ok?
  }

  /** The builder is filled exactly when every step succeeds. */
  lemma FillBuilderOkIff<C, S, Q, D>(rec: BamRecord, names: seq<string>, conv: Conversions<C, S, Q, D>)
    ensures FillBuilder(rec, names, conv).Ok? <==> StepsSucceed(rec, names, conv)
  {
  }

  /** The names the filled builder holds: a read name only when the raw one is not "*",
      and then the parsed one; each reference sequence name only when the record has that
      id, and then the name the header gives it. */
  lemma {:induction false} FilledNames<C, S, Q, D>(
    rec: BamRecord, names: seq<string>, conv: Conversions<C, S, Q, D>)
    requires FillBuilder(rec, names, conv).Ok?
    ensures var b := FillBuilder(rec, names, conv).value;
      var raw := conv.readNameText(rec.readName).value;
      var rs := conv.parseReferenceSequenceName;
      && (raw == MISSING_READ_NAME ==> b.readName.None?)
      && (raw != MISSING_READ_NAME ==> b.readName == Some(conv.parseReadName(raw).value))
      && b.referenceSequenceName == GetReferenceSequenceName(names, rec.referenceSequenceId, rs).value
      && (b.referenceSequenceName.Some? <==> rec.referenceSequenceId.Some?)
      && b.mateReferenceSequenceName ==
        GetReferenceSequenceName(names, rec.mateReferenceSequenceId, rs).value
      && (b.mateReferenceSequenceName.Some? <==> rec.mateReferenceSequenceId.Some?)
  {
    var rs := conv.parseReferenceSequenceName;
    var a := GetReferenceSequenceName(names, rec.referenceSequenceId, rs);
    var m := GetReferenceSequenceName(names, rec.mateReferenceSequenceId, rs);
    assert a.Ok? && m.Ok?;
    assert a.value.Some? <==> rec.referenceSequenceId.Some?;
    assert m.value.Some? <==> rec.mateReferenceSequenceId.Some?;
  }

  /** The other fields of the filled builder: the flags, mapping quality, CIGAR, template
      length and data always; each position only when the record has it; the sequence and
      the quality scores only when they are not empty. */
  lemma FilledValues<C, S, Q, D>(
    rec: BamRecord, names: seq<string>, conv: Conversions<C, S, Q, D>)
    requires FillBuilder(rec, names, conv).Ok?
    ensures var b := FillBuilder(rec, names, conv).value;
      && b.flags == Some(rec.flags)
      && b.position == rec.position
      && b.mappingQuality == Some(rec.mappingQuality)
      && b.cigar == Some(conv.cigar(rec.cigar).value)
      && b.matePosition == rec.matePosition
      && b.templateLength == Some(rec.templateLength)
      && (|rec.sequence| == 0 <==> b.sequence.None?)
      && (|rec.sequence| != 0 ==> b.sequence == Some(conv.sequence(rec.sequence)))
      && (|rec.qualityScores| == 0 <==> b.qualityScores.None?)
      && (|rec.qualityScores| != 0 ==>
        b.qualityScores == Some(conv.qualityScores(rec.qualityScores).value))
      && b.data == Some(conv.data(rec.data).value)
  {
  }

  /** The errors of the read name step, the first to run: a raw name that does not decode
      and a name other than "*" that does not parse are both InvalidInput. */
  lemma ReadNameErrors<C, S, Q, D>(rec: BamRecord, names: seq<string>, conv: Conversions<C, S, Q, D>)
    ensures var raw := conv.readNameText(rec.readName);
      raw.Err? ==> FillBuilder(rec, names, conv) == Err(IoError(InvalidInput, raw.error))
    ensures var raw := conv.readNameText(rec.readName);
      (raw.Ok? && raw.value != MISSING_READ_NAME && conv.parseReadName(raw.value).Err?) ==>
        FillBuilder(rec, names, conv) == Err(IoError(InvalidInput, conv.parseReadName(raw.value).error))
  {
  }

  /** The errors of the alignment and mate steps, once every earlier step has succeeded: an
      unknown reference sequence id is the one InvalidInput error, and a CIGAR that does not
      convert returns the conversion's own error. */
  lemma AlignmentErrors<C, S, Q, D>(rec: BamRecord, names: seq<string>, conv: Conversions<C, S, Q, D>)
    ensures (ReadNameOk(rec, conv) && !ReferenceOk(rec, names, conv)) ==>
      FillBuilder(rec, names, conv) == Err(INVALID_REFERENCE_SEQUENCE_ID)
    ensures (ReadNameOk(rec, conv) && ReferenceOk(rec, names, conv) && conv.cigar(rec.cigar).Err?) ==>
      FillBuilder(rec, names, conv) == Err(conv.cigar(rec.cigar).error)
    ensures (ReadNameOk(rec, conv) && ReferenceOk(rec, names, conv) && conv.cigar(rec.cigar).Ok? &&
      !MateReferenceOk(rec, names, conv)) ==>
        FillBuilder(rec, names, conv) == Err(INVALID_REFERENCE_SEQUENCE_ID)
  {
  }

  /** The errors of the last step, once every earlier step has succeeded: quality scores
      that are not empty and do not convert, and then data that does not convert, are
      InvalidData. */
  lemma FieldErrors<C, S, Q, D>(rec: BamRecord, names: seq<string>, conv: Conversions<C, S, Q, D>)
    ensures (ReadNameOk(rec, conv) && ReferenceOk(rec, names, conv) && conv.cigar(rec.cigar).Ok? &&
      MateReferenceOk(rec, names, conv) &&
      |rec.qualityScores| != 0 && conv.qualityScores(rec.qualityScores).Err?) ==>
        FillBuilder(rec, names, conv) ==
          Err(IoError(InvalidData, conv.qualityScores(rec.qualityScores).error))
    ensures (ReadNameOk(rec, conv) && ReferenceOk(rec, names, conv) && conv.cigar(rec.cigar).Ok? &&
      MateReferenceOk(rec, names, conv) && QualityScoresOk(rec, conv) && conv.data(rec.data).Err?) ==>
        FillBuilder(rec, names, conv) == Err(IoError(InvalidData, conv.data(rec.data).error))
  {
  }
}
