/** The SAM record builder of noodles-sam (`record::Builder`): twelve fields, one setter for
    each, and `build`, which fills the three names nobody set with the missing-value
    marker "*".

    The field types other than names and integers (`Flags`, `MappingQuality`, `Cigar`,
    `Sequence`, `QualityScores`, `Data`) are not part of this model beyond their raw
    values: a flag word, a quality byte, and lists of operations, bases, scores and
    tag-value fields. */
module SamRecordBuilder {
  import opened Wrappers

  /** `NULL_FIELD`: the value of a missing name. */
  const NULL_FIELD: string := "*"

  /** `MappingQuality::default()`: 255, mapping quality unavailable. */
  const DEFAULT_MAPPING_QUALITY: byte := 255

  datatype CigarOp = CigarOp(kind: char, len: nat)

  datatype DataField = DataField(tag: string, value: string)

  /** A built SAM record: every name is present. */
  datatype Record = Record(
    name: string,
    flags: u16,
    referenceSequenceName: string,
    position: u32,
    mappingQuality: byte,
    cigar: seq<CigarOp>,
    mateReferenceSequenceName: string,
    matePosition: u32,
    templateLen: i32,
    sequence: seq<char>,
    qualityScores: seq<byte>,
    data: seq<DataField>)

  /** The builder's fields; the names are absent until set. */
  datatype BuilderState = BuilderState(
    name: Option<string>,
    flags: u16,
    referenceSequenceName: Option<string>,
    position: u32,
    mappingQuality: byte,
    cigar: seq<CigarOp>,
    mateReferenceSequenceName: Option<string>,
    matePosition: u32,
    templateLen: i32,
    sequence: seq<char>,
    qualityScores: seq<byte>,
    data: seq<DataField>)

  /** `Builder::default()`. */
  const DEFAULT_STATE: BuilderState :=
    BuilderState(None, 0, None, 0, DEFAULT_MAPPING_QUALITY, [], None, 0, 0, [], [], [])

  /** `unwrap_or_else(null_field)`. */
  function OrNull(name: Option<string>): string {
    match name
    case Some(s) => s
    case None => NULL_FIELD
  }

  /** `build`: a set name is kept, an unset one becomes "*"; every other field is copied
      verbatim. */
  function BuildRecord(s: BuilderState): (r: Record)
    ensures s.name.Some? ==> r.name == s.name.value
    ensures s.name.None? ==> r.name == NULL_FIELD
    ensures s.referenceSequenceName.Some? ==> r.referenceSequenceName == s.referenceSequenceName.value
    ensures s.referenceSequenceName.None? ==> r.referenceSequenceName == NULL_FIELD
    ensures s.mateReferenceSequenceName.Some? ==>
      r.mateReferenceSequenceName == s.mateReferenceSequenceName.value
    ensures s.mateReferenceSequenceName.None? ==> r.mateReferenceSequenceName == NULL_FIELD
    ensures r.flags == s.flags && r.position == s.position && r.mappingQuality == s.mappingQuality
    ensures r.cigar == s.cigar && r.matePosition == s.matePosition && r.templateLen == s.templateLen
    ensures r.sequence == s.sequence && r.qualityScores == s.qualityScores && r.data == s.data
  {
    Record(OrNull(s.name), s.flags, OrNull(s.referenceSequenceName), s.position,
      s.mappingQuality, s.cigar, OrNull(s.mateReferenceSequenceName), s.matePosition,
      s.templateLen, s.sequence, s.qualityScores, s.data)
  }

  /** `test_default`: "*" names, zero positions and template length, mapping quality 255
      and nothing else. */
  lemma DefaultRecord()
    ensures BuildRecord(DEFAULT_STATE) ==
      Record("*", 0, "*", 0, 255, [], "*", 0, 0, [], [], [])
  {
  }

  /** A name set to "*" builds the same record as an unset one: after `build` the two
      cannot be told apart. */
  lemma NullNameIsUnset(s: BuilderState)
    ensures BuildRecord(s.(name := Some(NULL_FIELD))) == BuildRecord(s.(name := None))
    ensures BuildRecord(s.(referenceSequenceName := Some(NULL_FIELD))) ==
      BuildRecord(s.(referenceSequenceName := None))
    ensures BuildRecord(s.(mateReferenceSequenceName := Some(NULL_FIELD))) ==
      BuildRecord(s.(mateReferenceSequenceName := None))
  {
  }

  /** Any other name is told apart from an unset one. */
  lemma SetNameIsKept(s: BuilderState, n: string)
    requires n != NULL_FIELD
    ensures BuildRecord(s.(name := Some(n))) != BuildRecord(s.(name := None))
    ensures BuildRecord(s.(referenceSequenceName := Some(n))) !=
      BuildRecord(s.(referenceSequenceName := None))
    ensures BuildRecord(s.(mateReferenceSequenceName := Some(n))) !=
      BuildRecord(s.(mateReferenceSequenceName := None))
  {
  }

  class Builder {
    var name: Option<string>
    var flags: u16
    var referenceSequenceName: Option<string>
    var position: u32
    var mappingQuality: byte
    var cigar: seq<CigarOp>
    var mateReferenceSequenceName: Option<string>
    var matePosition: u32
    var templateLen: i32
    var sequence: seq<char>
    var qualityScores: seq<byte>
    var data: seq<DataField>

    /** The builder's fields, as a value. */
    function State(): BuilderState
      reads this
    {
      BuilderState(name, flags, referenceSequenceName, position, mappingQuality, cigar,
        mateReferenceSequenceName, matePosition, templateLen, sequence, qualityScores, data)
    }

    /** `build`: the record of the builder's fields, with `*` for each name not set. */
    function Build(): (r: Record)
      reads this
      ensures r == BuildRecord(State())
      ensures name.None? ==> r.name == NULL_FIELD
      ensures referenceSequenceName.None? ==> r.referenceSequenceName == NULL_FIELD
      ensures mateReferenceSequenceName.None? ==> r.mateReferenceSequenceName == NULL_FIELD
    {
      BuildRecord(State())
    }

    /** `Builder::new`. */
    constructor ()
      ensures State() == DEFAULT_STATE
    {
      name := None;
      flags := 0;
      referenceSequenceName := None;
      position := 0;
      mappingQuality := DEFAULT_MAPPING_QUALITY;
      cigar := [];
      mateReferenceSequenceName := None;
      matePosition := 0;
      templateLen := 0;
      sequence := [];
      qualityScores := [];
      data := [];
    }

    method SetName(n: string)
      modifies this
      ensures State() == old(State()).(name := Some(n))
    {
      name := Some(n);
    }

    method SetFlags(f: u16)
      modifies this
      ensures State() == old(State()).(flags := f)
    {
      flags := f;
    }

    method SetReferenceSequenceName(n: string)
      modifies this
      ensures State() == old(State()).(referenceSequenceName := Some(n))
    {
      referenceSequenceName := Some(n);
    }

    method SetPosition(p: u32)
      modifies this
      ensures State() == old(State()).(position := p)
    {
      position := p;
    }

    method SetMappingQuality(q: byte)
      modifies this
      ensures State() == old(State()).(mappingQuality := q)
    {
      mappingQuality := q;
    }

    method SetCigar(c: seq<CigarOp>)
      modifies this
      ensures State() == old(State()).(cigar := c)
    {
      cigar := c;
    }

    method SetMateReferenceSequenceName(n: string)
      modifies this
      ensures State() == old(State()).(mateReferenceSequenceName := Some(n))
    {
      mateReferenceSequenceName := Some(n);
    }

    method SetMatePosition(p: u32)
      modifies this
      ensures State() == old(State()).(matePosition := p)
    {
      matePosition := p;
    }

    method SetTemplateLen(t: i32)
      modifies this
      ensures State() == old(State()).(templateLen := t)
    {
      templateLen := t;
    }

    method SetSequence(s: seq<char>)
      modifies this
      ensures State() == old(State()).(sequence := s)
    {
      sequence := s;
    }

    method SetQualityScores(q: seq<byte>)
      modifies this
      ensures State() == old(State()).(qualityScores := q)
    {
      qualityScores := q;
    }

    method SetData(d: seq<DataField>)
      modifies this
      ensures State() == old(State()).(data := d)
    {
      data := d;
    }
  }

  /** `test_default`, through the builder: a record nothing was set on. */
  method BuildDefault() returns (r: Record)
    ensures r.name == "*" && r.referenceSequenceName == "*" && r.mateReferenceSequenceName == "*"
    ensures r.flags == 0 && r.position == 0 && r.matePosition == 0 && r.templateLen == 0
    ensures r.mappingQuality == 255
    ensures r.cigar == [] && r.sequence == [] && r.qualityScores == [] && r.data == []
  {
    var b := new Builder();
    r := b.Build();
  }

  /** `test_build`, for every value: setting all twelve fields builds a record holding
      exactly the values set. */
  method BuildPopulated(
    name: string, flags: u16, referenceSequenceName: string, position: u32,
    mappingQuality: byte, cigar: seq<CigarOp>, mateReferenceSequenceName: string,
    matePosition: u32, templateLen: i32, sequence: seq<char>, qualityScores: seq<byte>,
    data: seq<DataField>)
    returns (r: Record)
    ensures r == Record(name, flags, referenceSequenceName, position, mappingQuality, cigar,
      mateReferenceSequenceName, matePosition, templateLen, sequence, qualityScores, data)
  {
    var b := new Builder();
    b.SetName(name);
    b.SetFlags(flags);
    b.SetReferenceSequenceName(referenceSequenceName);
    b.SetPosition(position);
    b.SetMappingQuality(mappingQuality);
    b.SetCigar(cigar);
    b.SetMateReferenceSequenceName(mateReferenceSequenceName);
    b.SetMatePosition(matePosition);
    b.SetTemplateLen(templateLen);
    b.SetSequence(sequence);
    b.SetQualityScores(qualityScores);
    b.SetData(data);
    r := b.Build();
  }

  /** A setter called twice keeps its last value, whatever else was set in between. */
  method SetNameTwice(first: string, pos: u32, second: string) returns (r: Record)
    ensures r == Record(second, 0, "*", pos, DEFAULT_MAPPING_QUALITY, [], "*", 0, 0, [], [], [])
  {
    var b := new Builder();
    b.SetName(first);
    b.SetPosition(pos);
    b.SetName(second);
    r := b.Build();
  }
}
