/** The VCF header builder of noodles-vcf (`header::Builder`): a file format, seven
    insertion-ordered maps of structured meta-information records keyed by their ids, the
    breakpoint assembly and pedigree database URIs, the list of sample names, and a
    multimap of unstructured records keyed by their key string. `build` moves all of them
    into a `Header`.

    The record types themselves (`Info`, `Filter`, `Format`, `AlternativeAllele`,
    `Contig`, `Meta`, `Sample`, `Record`) are not part of this model beyond their ids and
    a description or value; their typed keys (info and genotype field keys, allele
    symbols) are modelled by their string forms. */
module VcfHeaderBuilder {
  import opened Wrappers
  import OrderedMap

  /** A `fileformat` version, such as VCFv4.3. */
  datatype FileFormat = FileFormat(major: nat, minor: nat)

  /** `FileFormat::default()`. */
  const DEFAULT_FILE_FORMAT: FileFormat := FileFormat(4, 3)

  datatype Info = Info(id: string, description: string)
  datatype Filter = Filter(id: string, description: string)
  datatype Format = Format(id: string, description: string)
  datatype AlternativeAllele = AlternativeAllele(id: string, description: string)
  datatype Contig = Contig(id: string)
  datatype Meta = Meta(id: string, values: seq<string>)
  datatype Sample = Sample(id: string, fields: seq<(string, string)>)

  /** An unstructured record (`##key=value`), filed under its key's string. */
  datatype Record = Record(key: string, value: string)

  /** The built header: every field of the builder, moved unchanged. */
  datatype Header = Header(
    fileFormat: FileFormat,
    infos: seq<(string, Info)>,
    filters: seq<(string, Filter)>,
    formats: seq<(string, Format)>,
    alternativeAlleles: seq<(string, AlternativeAllele)>,
    assembly: Option<string>,
    contigs: seq<(string, Contig)>,
    meta: seq<(string, Meta)>,
    samples: seq<(string, Sample)>,
    pedigreeDb: Option<string>,
    sampleNames: seq<string>,
    records: seq<(string, seq<Record>)>)

  /** The header of a builder no method was called on (`Builder::default().build()`). */
  const DEFAULT_HEADER: Header :=
    Header(DEFAULT_FILE_FORMAT, [], [], [], [], None, [], [], [], None, [], [])

  /** Each map holds every id at most once, under the id of the record stored there. */
  ghost predicate KeyedBy<V>(m: seq<(string, V)>, id: V -> string) {
    OrderedMap.DistinctKeys(m) &&
    forall k :: OrderedMap.Get(m, k).Some? ==> id(OrderedMap.Get(m, k).value) == k
  }

  /** What every header the builder makes satisfies: each record map is keyed by the ids of
      its records, and every unstructured record is filed under its own key. */
  ghost predicate WellFormed(h: Header) {
    KeyedBy(h.infos, (r: Info) => r.id) &&
    KeyedBy(h.filters, (r: Filter) => r.id) &&
    KeyedBy(h.formats, (r: Format) => r.id) &&
    KeyedBy(h.alternativeAlleles, (r: AlternativeAllele) => r.id) &&
    KeyedBy(h.contigs, (r: Contig) => r.id) &&
    KeyedBy(h.meta, (r: Meta) => r.id) &&
    KeyedBy(h.samples, (r: Sample) => r.id) &&
    OrderedMap.DistinctKeys(h.records) &&
    forall k, i :: 0 <= i < |OrderedMap.Values(h.records, k)| ==> OrderedMap.Values(h.records, k)[i].key == k
  }

  /** Inserting a record under its own id keeps a map keyed by its records' ids. */
  lemma InsertKeepsKeyed<V>(m: seq<(string, V)>, v: V, id: V -> string)
    requires KeyedBy(m, id)
    ensures KeyedBy(OrderedMap.Insert(m, id(v), v), id)
  {
    var r := OrderedMap.Insert(m, id(v), v);
    forall k | OrderedMap.Get(r, k).Some? ensures id(OrderedMap.Get(r, k).value) == k {
      if k != id(v) {
        assert OrderedMap.Get(r, k) == OrderedMap.Get(m, k);
      }
    }
  }

  /** Pushing a record onto the list under its own key keeps every record filed under its
      key. */
  lemma PushKeepsFiled(m: seq<(string, seq<Record>)>, record: Record)
    requires forall k, i :: 0 <= i < |OrderedMap.Values(m, k)| ==> OrderedMap.Values(m, k)[i].key == k
    ensures var r := OrderedMap.Push(m, record.key, record);
      forall k, i :: 0 <= i < |OrderedMap.Values(r, k)| ==> OrderedMap.Values(r, k)[i].key == k
  {
    var r := OrderedMap.Push(m, record.key, record);
    forall k, i | 0 <= i < |OrderedMap.Values(r, k)| ensures OrderedMap.Values(r, k)[i].key == k {
      if k != record.key {
        assert OrderedMap.Get(r, k) == OrderedMap.Get(m, k);
        assert OrderedMap.Values(r, k) == OrderedMap.Values(m, k);
      } else if i < |OrderedMap.Values(m, k)| {
        assert OrderedMap.Values(r, k)[i] == OrderedMap.Values(m, k)[i];
      }
    }
  }

  class Builder {
    var fileFormat: FileFormat
    var infos: seq<(string, Info)>
    var filters: seq<(string, Filter)>
    var formats: seq<(string, Format)>
    var alternativeAlleles: seq<(string, AlternativeAllele)>
    var assembly: Option<string>
    var contigs: seq<(string, Contig)>
    var meta: seq<(string, Meta)>
    var samples: seq<(string, Sample)>
    var pedigreeDb: Option<string>
    var sampleNames: seq<string>
    var records: seq<(string, seq<Record>)>

    /** `build`: every field of the builder moves into the header unchanged. */
    function Build(): (h: Header)
      reads this
      ensures h.fileFormat == fileFormat && h.assembly == assembly && h.pedigreeDb == pedigreeDb
      ensures h.infos == infos && h.filters == filters && h.formats == formats
      ensures h.alternativeAlleles == alternativeAlleles && h.contigs == contigs
      ensures h.meta == meta && h.samples == samples
      ensures h.sampleNames == sampleNames && h.records == records
    {
      Header(fileFormat, infos, filters, formats, alternativeAlleles, assembly, contigs,
        meta, samples, pedigreeDb, sampleNames, records)
    }

    ghost predicate Valid()
      reads this
    {
      WellFormed(Build())
    }

    /** `Builder::default`: the default file format and nothing else. */
    constructor ()
      ensures Build() == DEFAULT_HEADER
      ensures Valid()
    {
      fileFormat := DEFAULT_FILE_FORMAT;
      infos := [];
      filters := [];
      formats := [];
      alternativeAlleles := [];
      assembly := None;
      contigs := [];
      meta := [];
      samples := [];
      pedigreeDb := None;
      sampleNames := [];
      records := [];
    }

    /** `set_file_format`. */
    method SetFileFormat(f: FileFormat)
      modifies this
      ensures Build() == old(Build()).(fileFormat := f)
      ensures old(Valid()) ==> Valid()
    {
      fileFormat := f;
    }

    /** `add_info`: keyed by the info's id. */
    method AddInfo(info: Info)
      modifies this
      ensures Build() == old(Build()).(infos := OrderedMap.Insert(old(infos), info.id, info))
      ensures old(Valid()) ==> Valid()
    {
      if Valid() { InsertKeepsKeyed(infos, info, (r: Info) => r.id); }
      infos := OrderedMap.Insert(infos, info.id, info);
    }

    /** `add_filter`. */
    method AddFilter(filter: Filter)
      modifies this
      ensures Build() == old(Build()).(filters := OrderedMap.Insert(old(filters), filter.id, filter))
      ensures old(Valid()) ==> Valid()
    {
      if Valid() { InsertKeepsKeyed(filters, filter, (r: Filter) => r.id); }
      filters := OrderedMap.Insert(filters, filter.id, filter);
    }

    /** `add_format`. */
    method AddFormat(format: Format)
      modifies this
      ensures Build() == old(Build()).(formats := OrderedMap.Insert(old(formats), format.id, format))
      ensures old(Valid()) ==> Valid()
    {
      if Valid() { InsertKeepsKeyed(formats, format, (r: Format) => r.id); }
      formats := OrderedMap.Insert(formats, format.id, format);
    }

    /** `add_alternative_allele`. */
    method AddAlternativeAllele(allele: AlternativeAllele)
      modifies this
      ensures Build() == old(Build()).(alternativeAlleles :=
        OrderedMap.Insert(old(alternativeAlleles), allele.id, allele))
      ensures old(Valid()) ==> Valid()
    {
      if Valid() { InsertKeepsKeyed(alternativeAlleles, allele, (r: AlternativeAllele) => r.id); }
      alternativeAlleles := OrderedMap.Insert(alternativeAlleles, allele.id, allele);
    }

    /** `set_assembly`. */
    method SetAssembly(uri: string)
      modifies this
      ensures Build() == old(Build()).(assembly := Some(uri))
      ensures old(Valid()) ==> Valid()
    {
      assembly := Some(uri);
    }

    /** `add_contig`. */
    method AddContig(contig: Contig)
      modifies this
      ensures Build() == old(Build()).(contigs := OrderedMap.Insert(old(contigs), contig.id, contig))
      ensures old(Valid()) ==> Valid()
    {
      if Valid() { InsertKeepsKeyed(contigs, contig, (r: Contig) => r.id); }
      contigs := OrderedMap.Insert(contigs, contig.id, contig);
    }

    /** `add_meta`. */
    method AddMeta(m: Meta)
      modifies this
      ensures Build() == old(Build()).(meta := OrderedMap.Insert(old(meta), m.id, m))
      ensures old(Valid()) ==> Valid()
    {
      if Valid() { InsertKeepsKeyed(meta, m, (r: Meta) => r.id); }
      meta := OrderedMap.Insert(meta, m.id, m);
    }

    /** `add_sample`. */
    method AddSample(sample: Sample)
      modifies this
      ensures Build() == old(Build()).(samples := OrderedMap.Insert(old(samples), sample.id, sample))
      ensures old(Valid()) ==> Valid()
    {
      if Valid() { InsertKeepsKeyed(samples, sample, (r: Sample) => r.id); }
      samples := OrderedMap.Insert(samples, sample.id, sample);
    }

    /** `set_pedigree_db`. */
    method SetPedigreeDb(uri: string)
      modifies this
      ensures Build() == old(Build()).(pedigreeDb := Some(uri))
      ensures old(Valid()) ==> Valid()
    {
      pedigreeDb := Some(uri);
    }

    /** `add_sample_name`: appended, duplicates kept. */
    method AddSampleName(name: string)
      modifies this
      ensures Build() == old(Build()).(sampleNames := old(sampleNames) + [name])
      ensures old(Valid()) ==> Valid()
    {
      sampleNames := sampleNames + [name];
    }

    /** `insert`: the record goes at the end of the list under its key. */
    method Insert(record: Record)
      modifies this
      ensures Build() == old(Build()).(records := OrderedMap.Push(old(records), record.key, record))
      ensures old(Valid()) ==> Valid()
    {
      if Valid() { PushKeepsFiled(records, record); }
      records := OrderedMap.Push(records, record.key, record);
    }
  }

  /** `test_default`: a builder nothing was called on builds the default file format, empty
      maps and lists, and no assembly. */
  method BuildDefault() returns (h: Header)
    ensures h.fileFormat == DEFAULT_FILE_FORMAT
    ensures h.infos == [] && h.filters == [] && h.formats == [] && h.alternativeAlleles == []
    ensures h.assembly == None
    ensures h.contigs == [] && h.meta == [] && h.samples == [] && h.sampleNames == []
    ensures WellFormed(h)
  {
    var b := new Builder();
    h := b.Build();
  }

  /** `test_build`, the first records: the file format, one record of each of four kinds,
      and the assembly. */
  method BuildExample() returns (h: Header)
    ensures h.fileFormat == FileFormat(4, 3)
    ensures |h.infos| == 1 && |h.filters| == 1 && |h.formats| == 1
    ensures |h.alternativeAlleles| == 1
    ensures h.assembly == Some("file:///assemblies.fasta")
  {
    var b := new Builder();
    b.SetFileFormat(FileFormat(4, 3));
    b.AddInfo(Info("NS", "Number of samples with data"));
    assert |b.infos| == 1;
    b.AddFilter(Filter("q10", "Quality below 10"));
    assert |b.filters| == 1;
    b.AddFormat(Format("GT", "Genotype"));
    assert |b.formats| == 1;
    b.AddAlternativeAllele(AlternativeAllele("DEL", "Deletion"));
    b.SetAssembly("file:///assemblies.fasta");
    h := b.Build();
  }

  /** `test_build`, continued: two contigs with distinct ids are both kept, in insertion
      order, beside one meta and one sample record. */
  method BuildContigsExample() returns (h: Header)
    ensures OrderedMap.Keys(h.contigs) == ["sq0", "sq1"]
    ensures |h.meta| == 1 && |h.samples| == 1
  {
    var b := new Builder();
    b.AddContig(Contig("sq0"));
    assert OrderedMap.Keys(b.contigs) == ["sq0"];
    b.AddContig(Contig("sq1"));
    assert OrderedMap.Keys(b.contigs) == ["sq0", "sq1"];
    b.AddMeta(Meta("Assay", ["WholeGenome", "Exome"]));
    assert |b.meta| == 1;
    b.AddSample(Sample("sample0", []));
    h := b.Build();
  }

  /** `test_build`, the rest: one sample name, and the same unstructured record inserted
      twice, which is stored twice under its key. */
  method BuildRecordsExample() returns (h: Header)
    ensures h.sampleNames == ["sample0"]
    ensures OrderedMap.Get(h.records, "fileDate") ==
      Some([Record("fileDate", "20200709"), Record("fileDate", "20200709")])
    ensures WellFormed(h)
  {
    var record := Record("fileDate", "20200709");
    var b := new Builder();
    b.AddSampleName("sample0");
    b.Insert(record);
    b.Insert(record);
    OrderedMap.PushTwice(record.key, record);
    h := b.Build();
  }
}
