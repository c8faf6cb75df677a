# A verified model of the noodles record and container core

noodles is a Rust library for the file formats of bioinformatics: SAM, BAM, CRAM, VCF
and BCF, together with the BGZF compression they share. This project models eight
small pieces of it in Dafny and proves properties of each:

- **BGZF virtual positions** (`BgzfVirtualPosition`): a 64-bit word that packs a
  48-bit compressed block offset with a 16-bit offset inside the uncompressed block.
- **The SAM record writer** (`SamRecordWriter`): the header check that refuses invalid
  reference sequence names, and the tab-separated line of eleven mandatory fields
  followed by the optional data and a newline. The writer's byte sink is a class.
- **CRAM container assembly** (`CramContainer`): a data container becomes a list of
  blocks (the compression header block, then each slice's core and external blocks)
  and a header whose landmarks give each slice's byte offset. Also the end-of-file
  container (section 9 of the CRAM 3.0 specification).
- **The indexed CRAM reader builder** (`CramIndexedReaderBuilder`): it uses an index
  that was set, or else reads `<path>.crai`.
- **The VCF genotype value** (`VcfGenotype`):
  - its conversions from a list of alleles and from a (position, phasing) iterator;
  - the GT text syntax (section 1.6.2 of VCF 4.4), with a proved parse/format round trip.
- **The VCF header builder** (`VcfHeaderBuilder`, on top of the insertion-ordered map
  `OrderedMap`): builder methods that insert records keyed by id, and `build`.
- **The SAM record builder** (`SamRecordBuilder`): twelve setters, and `build`, which
  writes `*` for each name that was never set.
- **BAM-to-SAM conversion** (`BamConvert`): `try_into_sam_record` and its lookup of
  reference sequence names.

`Wrappers` holds `Option`, `Result` and the machine integer types.

## Model

| member | source | states |
|---|---|---|
| BgzfVirtualPosition.Compressed | noodles-bgzf/src/virtual_position.rs:5-7 | the compressed offset is below 2^48 |
| BgzfVirtualPosition.Uncompressed | noodles-bgzf/src/virtual_position.rs:9-11 | the uncompressed offset is below 2^16 |
| BgzfVirtualPosition.FromU64 | noodles-bgzf/src/virtual_position.rs:14-18 | the position's two offsets recompose to the given word |
| BgzfVirtualPosition.ToU64 | noodles-bgzf/src/virtual_position.rs:20-24 | the word is the compressed offset times 2^16 plus the uncompressed offset |
| BgzfVirtualPosition.Recompose | noodles-bgzf/src/virtual_position.rs:5-11 | the raw word is compressed·2^16 + uncompressed |
| BgzfVirtualPosition.RoundTrip | noodles-bgzf/src/virtual_position.rs:14-24 | converting from u64 and back returns the same value, in both directions |
| BgzfVirtualPosition.OffsetsDetermine | noodles-bgzf/src/virtual_position.rs:5-11 | two positions with equal offsets are equal |
| BgzfVirtualPosition.OrderIsLexicographic | noodles-bgzf/src/virtual_position.rs:5-11 | ordering raw words is ordering by (compressed, uncompressed) |
| BgzfVirtualPosition.TestVectors | noodles-bgzf/src/virtual_position.rs:31-53 | the test's three words split and join as the tests expect |
| SamRecordWriter.NameCharIsRnameChar | noodles-sam/src/io/writer/record.rs:128-146 | a valid name byte is a printable ASCII byte outside the excluded punctuation set, and the converse |
| SamRecordWriter.IsValidNameChar | noodles-sam/src/io/writer/record.rs:128-146 | a byte is a name character when it is graphic ASCII and none of the thirteen excluded punctuation bytes |
| SamRecordWriter.IsValidName | noodles-sam/src/io/writer/record.rs:114-126 | a name is valid when its first byte is a name character other than `*` and `=` and every later byte is a name character; the empty name is invalid |
| SamRecordWriter.AllValidNames | noodles-sam/src/io/writer/record.rs:148-151 | every reference sequence name of the list is valid |
| SamRecordWriter.HasValidReferenceSequenceNames | noodles-sam/src/io/writer/record.rs:112-152 | the header's reference sequence names are all valid |
| SamRecordWriter.AllValidNameCharsIff | noodles-sam/src/io/writer/record.rs:114-126 | every byte is checked |
| SamRecordWriter.IsValidNameIff | noodles-sam/src/io/writer/record.rs:114-126 | a name is valid exactly when it is non-empty, does not start with `*` or `=`, and uses only allowed bytes |
| SamRecordWriter.AllValidNamesIff | noodles-sam/src/io/writer/record.rs:148-151 | every reference sequence name is checked |
| SamRecordWriter.HeaderValidIff | noodles-sam/src/io/writer/record.rs:112-152 | a header is accepted exactly when all its names are valid; the empty header is accepted |
| SamRecordWriter.NameExamples | noodles-sam/src/io/writer/record.rs:114-146 | concrete names are accepted or refused |
| SamRecordWriter.SplitJoin | noodles-sam/src/io/writer/record.rs:46-105 | tab-free fields joined with tabs split back into the same fields |
| SamRecordWriter.JoinTabCount | noodles-sam/src/io/writer/record.rs:46-105 | n tab-free fields joined contain exactly n-1 tabs |
| SamRecordWriter.MandatoryFields | noodles-sam/src/io/writer/record.rs:46-103 | the line has exactly eleven mandatory fields |
| SamRecordWriter.OutcomeOkIff | noodles-sam/src/io/writer/record.rs:32-110 | a write succeeds exactly when the header is valid and every field writer succeeds |
| SamRecordWriter.InvalidHeaderWritesNothing | noodles-sam/src/io/writer/record.rs:39-44 | with an invalid header, the error is InvalidInput "invalid reference sequence names" and no byte is written |
| SamRecordWriter.SuccessfulLine | noodles-sam/src/io/writer/record.rs:46-107 | a successful write emits the tab-joined mandatory fields, then the data, then a newline |
| SamRecordWriter.WriteDelimitedField | noodles-sam/src/io/writer/record.rs:48-103 | one step after the first: a tab is written, then the field's bytes if it succeeds; the result is the field's error or success |
| SamRecordWriter.WriteLeadingFields | noodles-sam/src/io/writer/record.rs:46-72 | the name, flags, rname, pos, mapq and cigar are written in order, each followed by a tab, stopping at the first error |
| SamRecordWriter.WriteTrailingFields | noodles-sam/src/io/writer/record.rs:74-107 | rnext, pnext, tlen, seq and qual are written in order, each after a tab, then the data and the newline, stopping at the first error |
| SamRecordWriter.WriteRecord | noodles-sam/src/io/writer/record.rs:32-110 | the result and the bytes appended to the sink are those of the specification function |
| CramContainer.Eof | noodles-cram/src/container.rs:23-26 | the EOF container is recognised as EOF, has the EOF header and exactly the EOF block, and its block count matches |
| CramContainer.New | noodles-cram/src/container.rs:80-82 | the container holds exactly the given header and blocks |
| CramContainer.IsEof | noodles-cram/src/container.rs:92-94 | whether a container is the EOF container is decided by its header alone |
| CramContainer.CompressionHeaderBlock | noodles-cram/src/container.rs:32-39 | the first block is raw, of content type compression header, and holds the serialised header with its length |
| CramContainer.AssembleShape | noodles-cram/src/container.rs:41-77 | the block list starts with the compression header block; there is one more landmark than slices; the first landmark is that block's length; the block count is the number of blocks; the container is not EOF |
| CramContainer.LandmarksAreOffsets | noodles-cram/src/container.rs:42-60 | landmark i is the total length of the blocks before slice i |
| CramContainer.LastLandmarkIsLength | noodles-cram/src/container.rs:42-60 | the last landmark is the total length of all blocks |
| CramContainer.LandmarksNondecreasing | noodles-cram/src/container.rs:42-60 | the landmarks never decrease |
| CramContainer.FromDataContainerFails | noodles-cram/src/container.rs:28-30 | the conversion fails exactly when serialising the compression header fails, and with that error |
| CramContainer.AppendSlice | noodles-cram/src/container.rs:46-56 | a slice's core block and external blocks are appended in order, and its length is their total length |
| CramContainer.TryFromDataContainer | noodles-cram/src/container.rs:28-78 | the loop's blocks and landmarks are those of the specification |
| CramIndexedReaderBuilder.WithExtension | noodles-cram/src/indexed_reader/builder.rs:53-61 | the result is the whole path, then one dot, then the extension, and it is the only string of that form |
| CramIndexedReaderBuilder.PushExt | noodles-cram/src/indexed_reader/builder.rs:53-61 | the in-place pushes give the path with the extension appended |
| CramIndexedReaderBuilder.BuildIndexSrc | noodles-cram/src/indexed_reader/builder.rs:45-51 | the index path is the source path with ".crai" appended |
| CramIndexedReaderBuilder.IndexSrcExample | noodles-cram/src/indexed_reader/builder.rs:67-73 | "sample.cram" gives "sample.cram.crai" and nothing else |
| CramIndexedReaderBuilder.UsesSetIndex | noodles-cram/src/indexed_reader/builder.rs:31-32 | with an index set, no index file is read and only opening the file can fail |
| CramIndexedReaderBuilder.ReadsIndexBeside | noodles-cram/src/indexed_reader/builder.rs:33-41 | with no index, `<src>.crai` is read and its error is returned before the file is opened; success needs both steps |
| CramIndexedReaderBuilder.Builder.constructor | noodles-cram/src/indexed_reader/builder.rs:12-15 | a new builder holds no index |
| CramIndexedReaderBuilder.Builder.SetIndex | noodles-cram/src/indexed_reader/builder.rs:19-22 | the given index replaces whatever was set |
| CramIndexedReaderBuilder.Builder.BuildFromPath | noodles-cram/src/indexed_reader/builder.rs:25-42 | the reader or error is the one the specification gives |
| CramIndexedReaderBuilder.SetIndexTwice | noodles-cram/src/indexed_reader/builder.rs:19-42 | after two `set_index` calls the built reader uses the second index, no index file is read, and only opening the file can fail |
| VcfGenotype.TryFromAlleles | noodles-vcf/src/variant/record_buf/samples/sample/value/genotype.rs:41-51 | fails exactly on the empty list, with Empty; otherwise the alleles are kept as given |
| VcfGenotype.TryFromAllelesNeverChecksPhasing | noodles-vcf/src/variant/record_buf/samples/sample/value/genotype.rs:41-62 | the InvalidFirstAllelePhasing error is never returned |
| VcfGenotype.Iter | noodles-vcf/src/variant/record_buf/samples/sample/value/genotype.rs:89-97 | one successful item per allele, in order, carrying its position and phasing |
| VcfGenotype.TryFromIter | noodles-vcf/src/variant/record_buf/samples/sample/value/genotype.rs:75-87 | succeeds exactly when no item is an error; otherwise returns the first error; on success, one allele per item |
| VcfGenotype.IterRoundTrip | noodles-vcf/src/variant/record_buf/samples/sample/value/genotype.rs:75-97 | iterating a genotype and collecting the items gives back the genotype |
| VcfGenotype.TryFromIterRoundTrip | noodles-vcf/src/variant/record_buf/samples/sample/value/genotype.rs:75-97 | collecting successful items and iterating gives back the items |
| VcfGenotype.TryFromIterEmpty | noodles-vcf/src/variant/record_buf/samples/sample/value/genotype.rs:41-87 | an empty iterator is collected into a genotype with no alleles, while an empty list is refused |
| VcfGenotype.TryFromAllelesExamples | noodles-vcf/src/variant/record_buf/samples/sample/value/genotype.rs:167-179 | the test's "0/1" alleles are accepted and the empty list gives Empty |
| VcfGenotype.Parse | noodles-vcf/src/variant/record_buf/samples/sample/value/genotype.rs:33-39 | EmptyInput exactly for empty text; a parsed genotype has at least one allele |
| VcfGenotype.ParsePosition | noodles-vcf/src/variant/record_buf/samples/sample/value/genotype.rs:103-165 | "." is a missing allele; a position fits in a usize; any other failure is InvalidAllele |
| VcfGenotype.DecimalRoundTrip | noodles-vcf/src/variant/record_buf/samples/sample/value/genotype.rs:103-165 | the decimal text of a number reads back as that number |
| VcfGenotype.ParseFormat | noodles-vcf/src/variant/record_buf/samples/sample/value/genotype.rs:33-39 | parsing the GT text of a genotype with at least one allele and usize-sized positions gives back the genotype |
| VcfGenotype.ParseExampleUnphased | noodles-vcf/src/variant/record_buf/samples/sample/value/genotype.rs:105-111 | "0/1" parses to two unphased alleles |
| VcfGenotype.ParseExamplePhased | noodles-vcf/src/variant/record_buf/samples/sample/value/genotype.rs:113-119 | "0\|1" parses to two phased alleles |
| VcfGenotype.ParseExampleMissing | noodles-vcf/src/variant/record_buf/samples/sample/value/genotype.rs:121-127 | "./." parses to two missing alleles |
| VcfGenotype.ParseExampleHaploid | noodles-vcf/src/variant/record_buf/samples/sample/value/genotype.rs:129-132 | "0" parses to one phased allele |
| VcfGenotype.ParseExampleTriploid | noodles-vcf/src/variant/record_buf/samples/sample/value/genotype.rs:134-141 | "0/1/2" parses to three unphased alleles |
| VcfGenotype.ParseExampleMixed | noodles-vcf/src/variant/record_buf/samples/sample/value/genotype.rs:143-150 | "0/1\|2" takes each allele's phasing from the separator before it |
| VcfGenotype.ParseExampleLeadingPhasing | noodles-vcf/src/variant/record_buf/samples/sample/value/genotype.rs:152-159 | a leading "\|" gives the first allele its phasing explicitly |
| VcfGenotype.ParseExampleInvalid | noodles-vcf/src/variant/record_buf/samples/sample/value/genotype.rs:161-164 | "0:1" is refused with InvalidAllele |
| OrderedMap.Find | noodles-vcf/src/header/builder.rs:69 | finds the first entry holding the key, and finds nothing exactly when the key is absent |
| OrderedMap.Insert | noodles-vcf/src/header/builder.rs:69 | the key then maps to the value; other keys keep their values; a present key stays where it is, and a new key comes last; distinct keys stay distinct |
| OrderedMap.Push | noodles-vcf/src/header/builder.rs:309-314 | the value is appended to the list under the key, which is created last when absent; other keys are unchanged |
| OrderedMap.InsertLastWins | noodles-vcf/src/header/builder.rs:68-71 | inserting twice under one key equals inserting only the second value |
| OrderedMap.InsertIdempotent | noodles-vcf/src/header/builder.rs:68-71 | reinserting the same value changes nothing |
| OrderedMap.InsertTwoKeys | noodles-vcf/src/header/builder.rs:195-198 | distinct keys are kept in insertion order, and reinserting the first key keeps its place |
| OrderedMap.PushTwice | noodles-vcf/src/header/builder.rs:309-314 | pushing one record twice stores both copies under one key |
| VcfHeaderBuilder.InsertKeepsKeyed | noodles-vcf/src/header/builder.rs:68-71 | inserting a record under its own id keeps every map keyed by the ids of its records |
| VcfHeaderBuilder.PushKeepsFiled | noodles-vcf/src/header/builder.rs:309-314 | every unstructured record stays filed under its own key |
| VcfHeaderBuilder.Builder.constructor | noodles-vcf/src/header/builder.rs:9-23 | a new builder builds the default header, which is well formed |
| VcfHeaderBuilder.Builder.SetFileFormat | noodles-vcf/src/header/builder.rs:39-42 | only the file format changes |
| VcfHeaderBuilder.Builder.AddInfo | noodles-vcf/src/header/builder.rs:68-71 | only the info map changes, with the info inserted under its id; well-formedness is kept |
| VcfHeaderBuilder.Builder.AddFilter | noodles-vcf/src/header/builder.rs:91-94 | only the filter map changes, with the filter inserted under its id; well-formedness is kept |
| VcfHeaderBuilder.Builder.AddFormat | noodles-vcf/src/header/builder.rs:120-123 | only the format map changes, with the format inserted under its id; well-formedness is kept |
| VcfHeaderBuilder.Builder.AddAlternativeAllele | noodles-vcf/src/header/builder.rs:153-157 | only the alternative allele map changes, with the allele inserted under its id; well-formedness is kept |
| VcfHeaderBuilder.Builder.SetAssembly | noodles-vcf/src/header/builder.rs:172-178 | only the assembly changes |
| VcfHeaderBuilder.Builder.AddContig | noodles-vcf/src/header/builder.rs:195-198 | only the contig map changes, with the contig inserted under its id; well-formedness is kept |
| VcfHeaderBuilder.Builder.AddMeta | noodles-vcf/src/header/builder.rs:220-223 | only the meta map changes, with the record inserted under its id; well-formedness is kept |
| VcfHeaderBuilder.Builder.AddSample | noodles-vcf/src/header/builder.rs:242-245 | only the sample map changes, with the sample inserted under its id; well-formedness is kept |
| VcfHeaderBuilder.Builder.SetPedigreeDb | noodles-vcf/src/header/builder.rs:260-266 | only the pedigree database changes |
| VcfHeaderBuilder.Builder.AddSampleName | noodles-vcf/src/header/builder.rs:285-291 | the name is appended to the sample names, duplicates included |
| VcfHeaderBuilder.Builder.Insert | noodles-vcf/src/header/builder.rs:309-314 | the record is appended to the list under its key, and nothing else changes |
| VcfHeaderBuilder.Builder.Build | noodles-vcf/src/header/builder.rs:324-339 | every field of the builder moves into the header unchanged |
| VcfHeaderBuilder.BuildDefault | noodles-vcf/src/header/builder.rs:346-360 | the default header has the default file format, empty maps and lists, no assembly, and is well formed |
| VcfHeaderBuilder.BuildExample | noodles-vcf/src/header/builder.rs:362-422 | the test's file format, one record of each of four kinds, and the assembly |
| VcfHeaderBuilder.BuildContigsExample | noodles-vcf/src/header/builder.rs:362-422 | two contigs are kept in insertion order, beside one meta and one sample record |
| VcfHeaderBuilder.BuildRecordsExample | noodles-vcf/src/header/builder.rs:362-422 | one sample name, and a record inserted twice is stored twice under its key |
| SamRecordBuilder.BuildRecord | noodles-sam/src/record/builder.rs:86-103 | each set name is kept, each unset name becomes `*`, and every other field is copied unchanged |
| SamRecordBuilder.DefaultRecord | noodles-sam/src/record/builder.rs:112-128 | the default record has `*` names, zero positions and template length, and mapping quality 255 |
| SamRecordBuilder.NullNameIsUnset | noodles-sam/src/record/builder.rs:86-103 | a name set to `*` builds the same record as an unset one |
| SamRecordBuilder.SetNameIsKept | noodles-sam/src/record/builder.rs:86-103 | any other name gives a different record from an unset one |
| SamRecordBuilder.Builder.constructor | noodles-sam/src/record/builder.rs:22-24 | a new builder holds the default state |
| SamRecordBuilder.Builder.Build | noodles-sam/src/record/builder.rs:86-103 | the built record is BuildRecord of the builder's fields: each unset name is `*` |
| SamRecordBuilder.Builder.SetName | noodles-sam/src/record/builder.rs:26-29 | only the read name changes |
| SamRecordBuilder.Builder.SetFlags | noodles-sam/src/record/builder.rs:31-34 | only the flags change |
| SamRecordBuilder.Builder.SetReferenceSequenceName | noodles-sam/src/record/builder.rs:36-39 | only the reference sequence name changes |
| SamRecordBuilder.Builder.SetPosition | noodles-sam/src/record/builder.rs:41-44 | only the position changes |
| SamRecordBuilder.Builder.SetMappingQuality | noodles-sam/src/record/builder.rs:46-49 | only the mapping quality changes |
| SamRecordBuilder.Builder.SetCigar | noodles-sam/src/record/builder.rs:51-54 | only the CIGAR changes |
| SamRecordBuilder.Builder.SetMateReferenceSequenceName | noodles-sam/src/record/builder.rs:56-59 | only the mate reference sequence name changes |
| SamRecordBuilder.Builder.SetMatePosition | noodles-sam/src/record/builder.rs:61-64 | only the mate position changes |
| SamRecordBuilder.Builder.SetTemplateLen | noodles-sam/src/record/builder.rs:66-69 | only the template length changes |
| SamRecordBuilder.Builder.SetSequence | noodles-sam/src/record/builder.rs:71-74 | only the sequence changes |
| SamRecordBuilder.Builder.SetQualityScores | noodles-sam/src/record/builder.rs:76-79 | only the quality scores change |
| SamRecordBuilder.Builder.SetData | noodles-sam/src/record/builder.rs:81-84 | only the data changes |
| SamRecordBuilder.BuildDefault | noodles-sam/src/record/builder.rs:112-128 | a record built with nothing set has the default fields |
| SamRecordBuilder.BuildPopulated | noodles-sam/src/record/builder.rs:130-171 | setting all twelve fields builds exactly the record of those values |
| SamRecordBuilder.SetNameTwice | noodles-sam/src/record/builder.rs:26-29 | the last name set wins, the position is the one set, and every other field keeps its default: unset names are `*`, mapping quality 255, zero integers and empty lists |
| BamConvert.AsUsize | noodles-bam/src/record/convert.rs:142 | a non-negative id is unchanged; a negative id wraps to the top of the 64-bit range |
| BamConvert.GetReferenceSequenceName | noodles-bam/src/record/convert.rs:134-149 | no id gives no name; otherwise success exactly when the index exists and its name parses, and then that name; every failure is InvalidInput "invalid reference sequence ID" |
| BamConvert.ValidReferenceSequenceId | noodles-bam/src/record/convert.rs:138-148 | an in-range id whose name parses gives that name |
| BamConvert.InvalidReferenceSequenceId | noodles-bam/src/record/convert.rs:138-148 | a negative id, an id past the end, or a name that does not parse gives the one error |
| BamConvert.ReferenceSequenceNameExamples | noodles-bam/src/record/convert.rs:155-163 | with the test's header, ids 1, 3 and -1, and no id, give "sq1", an error, an error, and no name |
| BamConvert.WithKind | noodles-bam/src/record/convert.rs:65-75 | a message error is wrapped with the given kind; a success is kept |
| BamConvert.WithReadName | noodles-bam/src/record/convert.rs:63-78 | an undecodable or unparsable read name is InvalidInput with the conversion's message; a raw `*` leaves the builder as it was; otherwise the parsed name is set |
| BamConvert.WithAlignment | noodles-bam/src/record/convert.rs:80-94 | an unknown reference id returns the lookup error, then a failed CIGAR conversion returns its own error; otherwise the flags, mapping quality and CIGAR are set, and the reference name and position only when present |
| BamConvert.WithMate | noodles-bam/src/record/convert.rs:96-106 | an unknown mate reference id returns the lookup error; otherwise the template length is set, and the mate reference name and mate position only when present |
| BamConvert.WithSequenceAndData | noodles-bam/src/record/convert.rs:108-126 | non-empty quality scores that do not convert, then data that does not convert, are InvalidData; otherwise the sequence and quality scores are set when non-empty, and the data always |
| BamConvert.FillBuilder | noodles-bam/src/record/convert.rs:61-126 | the builder after the four steps in order, or the first step's error |
| BamConvert.TryIntoSamRecord | noodles-bam/src/record/convert.rs:57-131 | a failing field step returns its error; otherwise the filled builder is built, and a build failure is InvalidData |
| BamConvert.FillBuilderOkIff | noodles-bam/src/record/convert.rs:61-126 | the builder is filled exactly when every fallible step succeeds |
| BamConvert.FilledNames | noodles-bam/src/record/convert.rs:63-100 | the read name is set only when the raw name is not `*`, and then parsed; each reference name is set exactly when its id is present, and then to the header's name |
| BamConvert.FilledValues | noodles-bam/src/record/convert.rs:80-126 | flags, mapping quality, cigar, template length and data are always set; positions only when present; sequence and quality scores only when non-empty |
| BamConvert.ReadNameErrors | noodles-bam/src/record/convert.rs:63-78 | a raw read name that does not decode, and a name other than `*` that does not parse, make the conversion fail with InvalidInput and that message |
| BamConvert.AlignmentErrors | noodles-bam/src/record/convert.rs:82-100 | once the read name succeeds: an unknown reference id is the InvalidInput lookup error; once that succeeds, a failed CIGAR conversion is its own error; once that succeeds, an unknown mate reference id is the lookup error |
| BamConvert.FieldErrors | noodles-bam/src/record/convert.rs:112-124 | once every earlier step succeeds: non-empty quality scores that do not convert are InvalidData; once they succeed, data that does not convert is InvalidData |

## Left out

- The per-field SAM writers (name, flags, position, mapping quality, cigar, sequence,
  quality scores, data) are not part of this model. Each is a parameter given as its
  bytes or its error. The writer's test (noodles-sam/src/io/writer/record.rs:160-177)
  depends on them and so is not restated.
- Writing RNEXT as `=` when it equals RNAME happens inside
  `write_mate_reference_sequence_name`, so it is part of that field's given bytes.
  Resolving a record's reference sequences against the header, and the read-length
  check on the sequence, are folded into those steps' outcomes in the same way.
- SamRecordWriter.WriteRecord: the sink is a growable byte buffer whose `write_all`
  never fails, so a failing tab delimiter or a failing final newline on some other
  `Write` sink is not modelled. A per-field writer is taken to either write all its
  bytes or fail before writing any, so partial writes followed by an error are not
  modelled either.
- SamRecordWriter.WriteLeadingFields: the same two assumptions as `WriteRecord`, for
  the first six steps.
- SamRecordWriter.WriteTrailingFields: the same two assumptions as `WriteRecord`, for
  the last six steps and the newline.
- CRAM `write_compression_header`, `Block::len`, `Header::eof` and `Block::eof` are
  not part of this model. The first two are parameters. The EOF header and block values
  are taken from section 9 of the CRAM 3.0 specification.
- CRAM `Header::is_eof` is not part of this model either; it is reconstructed as
  `CramContainer.IsEofHeader`, which compares four header fields with `EOF_HEADER`: the
  length (15), the reference sequence id (none), the starting position (4542278) and the
  record count (0). These fields and their values come from the EOF container of
  section 9 of the CRAM 3.0 specification, not from the code.
- CRAM ITF-8 fields and the `usize` to `Itf8` casts (container.rs:36, 42, 50, 55, 72)
  are modelled as unbounded integers: the model does not capture the truncation of a
  length above 2^31-1.
- CRAM `TryFromDataContainer` works on a list of blocks held as a value. Its inner loop
  over external blocks is the method `AppendSlice`.
- CRAM fields the source leaves as FIXME or TODO placeholders are carried as those
  placeholders: the block's content id and checksum and the header's counts and
  checksum as 0, and the reference sequence id as `ReferenceSequenceId::None`
  (`NoReference`).
- CRAM index reading (`crai::read`) and opening a file (`File::open`) are parameters.
  Paths are strings; operating-system path encoding is not modelled.
- The genotype parser module (`genotype/parser.rs`) is not part of this model. `Parse`
  follows section 1.6.2 of VCF 4.4 and the test cases in genotype.rs:103-165. Where
  the two leave a choice, the first allele of a value with no leading separator is
  phased when every later allele is, and a lone allele is phased.
- VcfGenotype.ParseFormat: stated only for genotypes with at least one allele and
  positions below 2^64. `Format` of an empty genotype is outside `Parse`'s range.
- The genotype's `Deref` and `DerefMut` implementations and the `Display` and
  `error::Error` implementations of `TryFromAllelesError` are not modelled; they only
  expose the alleles or print the error.
- `FileFormat::default` is not part of this model. The default is taken to be VCF 4.3.
- The VCF header record types (`Info`, `Filter`, `Format`, `AlternativeAllele`,
  `Contig`, `Meta`, `Sample`) are reduced to their ids and a description or values.
  Their typed keys are modelled by their string forms.
- `IndexMap` is modelled as an association list in insertion order. Hashing and
  `swap_remove` are not used by the builder and are left out.
- SAM record builder field types (`Flags`, `MappingQuality`, `Cigar`, `Sequence`,
  `QualityScores`, `Data`) are reduced to their raw values.
- BAM conversion uses a newer SAM builder (`set_read_name`, a fallible `build`) than
  noodles-sam/src/record/builder.rs. It is modelled as its own value-typed builder
  with optional fields.
- BAM field conversions (read name decoding and parsing, reference name parsing,
  cigar, sequence, quality scores, data) and the SAM builder's `build` validation are
  parameters. So the conversion test's concrete record (convert.rs:190-225) is not
  restated.
- BamConvert.AsUsize: assumes a 64-bit `usize`.
- BamConvert.InvalidReferenceSequenceId: stated for headers with at most
  2^64 - 2^31 reference sequences. With more, a wrapped negative id could index one.
- `try_from_sam_record` (convert.rs:24-38) is left out. It serialises through the BAM
  writer and reader, neither of which is part of this model.
- The asynchronous BCF writer, the BCF view example, the variant-format indexed reader
  of noodles-util and the alternative allele tag type are outside the modelled core.
