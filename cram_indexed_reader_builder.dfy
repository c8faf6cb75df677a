/** The indexed CRAM reader builder of noodles-cram (`indexed_reader::Builder`): it holds
    an optional CRAM index and, when building a reader from a path, uses that index or
    reads the one stored beside the file under the path with ".crai" appended.

    Reading an index file (`crai::read`) and opening the CRAM file (`File::open`) are not
    part of this model: they are parameters, with whatever index and file types they
    produce. Paths are modelled as strings. */
module CramIndexedReaderBuilder {
  import opened Wrappers

  datatype ErrorKind = NotFound | InvalidData | Other

  datatype IoError = IoError(kind: ErrorKind, message: string)

  /** The extension of a CRAM index file. */
  const CRAI_EXT: string := "crai"

  /** `p` is `path` followed by a dot and `ext`. */
  predicate HasExtension(p: string, path: string, ext: string) {
    |p| == |path| + 1 + |ext| &&
    p[..|path|] == path &&
    p[|path|] == '.' &&
    p[|path| + 1..] == ext
  }

  /** The extension is appended, never substituted: the path is kept whole, followed by one
      dot and the extension, and only one string has that form. */
  function WithExtension(path: string, ext: string): (p: string)
    ensures HasExtension(p, path, ext)
    ensures forall q :: HasExtension(q, path, ext) ==> q == p
  {
    var p := path + "." + ext;
    assert forall q :: HasExtension(q, path, ext) ==> q == p by {
      forall q | HasExtension(q, path, ext) ensures q == p {
        assert q == q[..|path|] + [q[|path|]] + q[|path| + 1..];
      }
    }
    p
  }

  /** `push_ext`: the path, then "." and the extension pushed onto it in place. */
  method PushExt(path: string, ext: string) returns (p: string)
    ensures p == WithExtension(path, ext)
  {
    var s := path;
    s := s + ".";
    s := s + ext;
    p := s;
  }

  /** `build_index_src`: the index path beside a CRAM file. */
  method BuildIndexSrc(src: string) returns (p: string)
    ensures p == WithExtension(src, CRAI_EXT)
  {
    p := PushExt(src, CRAI_EXT);
  }

  /** The index of "sample.cram" is "sample.cram.crai": the ".cram" extension stays. */
  lemma IndexSrcExample()
    ensures WithExtension("sample.cram", CRAI_EXT) == "sample.cram.crai"
    ensures forall q :: HasExtension(q, "sample.cram", CRAI_EXT) <==> q == "sample.cram.crai"
  {
    assert HasExtension("sample.cram.crai", "sample.cram", CRAI_EXT);
  }

  /** An indexed reader: the opened file and the index used to query it. */
  datatype IndexedReader<F, I> = IndexedReader(inner: F, index: I)

  /** What `build_from_path` returns: the set index if there is one, else the index read
      from the path beside `src` (or that read's error); then the opened file (or that
      error). */
  function BuildOutcome<F, I>(
    index: Option<I>,
    src: string,
    readIndex: string -> Result<I, IoError>,
    open: string -> Result<F, IoError>): Result<IndexedReader<F, I>, IoError>
  {
    var idx := match index
      case Some(i) => Ok(i)
      case None => readIndex(WithExtension(src, CRAI_EXT));
    match idx
    case Err(e) => Err(e)
    case Ok(i) =>
      match open(src)
      case Err(e) => Err(e)
      case Ok(f) => Ok(IndexedReader(f, i))
  }

  /** With an index set, no index file is read: the reader uses that index, and only
      opening the file can fail. */
  lemma UsesSetIndex<F, I>(
    index: I, src: string,
    readIndex: string -> Result<I, IoError>,
    open: string -> Result<F, IoError>)
    ensures BuildOutcome(Some(index), src, readIndex, open).Ok? <==> open(src).Ok?
    ensures BuildOutcome(Some(index), src, readIndex, open).Ok? ==>
      BuildOutcome(Some(index), src, readIndex, open).value == IndexedReader(open(src).value, index)
  {
  }

  /** Without one, the index is read from `src` + ".crai"; a failed read is returned before
      the CRAM file is opened. */
  lemma ReadsIndexBeside<F, I>(
    src: string,
    readIndex: string -> Result<I, IoError>,
    open: string -> Result<F, IoError>)
    ensures readIndex(src + ".crai").Err? ==>
      BuildOutcome(None, src, readIndex, open) == Err(readIndex(src + ".crai").error)
    ensures BuildOutcome(None, src, readIndex, open).Ok? <==> readIndex(src + ".crai").Ok? && open(src).Ok?
    ensures BuildOutcome(None, src, readIndex, open).Ok? ==>
      BuildOutcome(None, src, readIndex, open).value == IndexedReader(open(src).value, readIndex(src + ".crai").value)
  {
    assert CRAI_EXT == "crai";
    assert WithExtension(src, CRAI_EXT) == src + ".crai";
  }

  /** The builder: an index, or none yet. */
  class Builder<I> {
    var index: Option<I>

    /** `Builder::default`: no index. */
    constructor ()
      ensures index == None
    {
      index := None;
    }

    /** `set_index`: the given index replaces whatever was set before. */
    method SetIndex(idx: I)
      modifies this
      ensures index == Some(idx)
    {
      index := Some(idx);
    }

    /** `build_from_path`. */
    method BuildFromPath<F>(
      src: string,
      readIndex: string -> Result<I, IoError>,
      open: string -> Result<F, IoError>)
      returns (r: Result<IndexedReader<F, I>, IoError>)
      ensures r == BuildOutcome(index, src, readIndex, open)
    {
      var idx;
      match index {
        case Some(i) =>
          idx := i;
        case None =>
          var indexSrc := BuildIndexSrc(src);
          idx :- readIndex(indexSrc);
      }
      var file :- open(src);
      return Ok(IndexedReader(file, idx));
    }
  }

  /** Setting an index twice keeps the second: a reader built afterwards uses it, and no
      index file is read. */
  method SetIndexTwice<F, I>(
    first: I, second: I, src: string,
    readIndex: string -> Result<I, IoError>,
    open: string -> Result<F, IoError>)
    returns (r: Result<IndexedReader<F, I>, IoError>)
    ensures r == BuildOutcome(Some(second), src, readIndex, open)
    ensures r.Ok? <==> open(src).Ok?
    ensures r.Ok? ==> r.value == IndexedReader(open(src).value, second)
  {
    var b := new Builder();
    b.SetIndex(first);
    b.SetIndex(second);
    r := b.BuildFromPath(src, readIndex, open);
    UsesSetIndex(second, src, readIndex, open);
  }
}
