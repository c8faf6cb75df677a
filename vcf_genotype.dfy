/** The genotype value of a VCF record sample in noodles-vcf (`Genotype`): a list of
    alleles, each an optional allele position with the phasing of the separator before
    it; its non-empty-list constructor; its conversions to and from an iterator of
    (position, phasing) pairs; and the GT field syntax of section 1.6.2 ("Genotype
    fields") of the VCF 4.4 specification that its `FromStr` implementation parses.

    The parser module (`genotype/parser.rs`) is not part of this model: `Parse` follows
    VCF 4.4 and the cases in the tests of genotype.rs. */
module VcfGenotype {
  import opened Wrappers

  datatype Phasing = Phased | Unphased

  /** One allele: its position in the REF/ALT list, or none for a missing call ("."). */
  datatype Allele = Allele(position: Option<nat>, phasing: Phasing)

  /** The alleles of a genotype, in order. */
  datatype Genotype = Genotype(alleles: seq<Allele>)

  datatype TryFromAllelesError = Empty | InvalidFirstAllelePhasing

  datatype IoError = IoError(message: string)

  /** One item of a genotype iterator: a position and a phasing, or an error. */
  type Item = Result<(Option<nat>, Phasing), IoError>

  // ---------------------------------------------------------------------------
  // Conversions

  /** `TryFrom<Vec<Allele>>`: an empty list is refused; any other list is the genotype's
      alleles as given (the first allele's phasing is never checked). */
  function TryFromAlleles(alleles: seq<Allele>): (r: Result<Genotype, TryFromAllelesError>)
    ensures r.Err? <==> |alleles| == 0
    ensures r.Err? ==> r.error == Empty
    ensures r.Ok? ==> r.value.alleles == alleles
  {
    if |alleles| == 0 then Err(Empty) else Ok(Genotype(alleles))
  }

  /** `iter` on `&Genotype`: every allele's position and phasing, in order, none failing. */
  function Iter(g: Genotype): (items: seq<Item>)
    ensures |items| == |g.alleles|
    ensures forall i :: 0 <= i < |items| ==>
      items[i] == Ok((g.alleles[i].position, g.alleles[i].phasing))
    decreases |g.alleles|
  {
    if |g.alleles| == 0 then []
    else [Ok((g.alleles[0].position, g.alleles[0].phasing))] + Iter(Genotype(g.alleles[1..]))
  }

  /** `TryFrom<&dyn Genotype>`: the items collected into alleles, stopping at the first
      item that is an error and returning that error. */
  function TryFromIter(items: seq<Item>): (r: Result<Genotype, IoError>)
    ensures r.Ok? <==> forall i :: 0 <= i < |items| ==> items[i].Ok?
    ensures r.Err? ==> exists k :: (0 <= k < |items| && items[k] == Err(r.error) &&
      forall i :: 0 <= i < k ==> items[i].Ok?)
    ensures r.Ok? ==> (|r.value.alleles| == |items| && forall i :: 0 <= i < |items| ==>
      r.value.alleles[i] == Allele(items[i].value.0, items[i].value.1))
  {
    if |items| == 0 then Ok(Genotype([]))
    else match items[0]
      case Err(e) => Err(e)
      case Ok((position, phasing)) =>
        match TryFromIter(items[1..])
        case Err(e) =>
          assert forall i :: 0 <= i < |items[1..]| ==> items[1..][i] == items[i + 1];
          Err(e)
        case Ok(rest) => Ok(Genotype([Allele(position, phasing)] + rest.alleles))
  }

  /** Converting a genotype to its iterator and back gives the same genotype. */
  lemma IterRoundTrip(g: Genotype)
    ensures TryFromIter(Iter(g)) == Ok(g)
  {
    var r := TryFromIter(Iter(g));
    assert r.value.alleles == g.alleles;
  }

  /** Collecting items that are all successes and iterating the result gives the same
      items back. */
  lemma TryFromIterRoundTrip(items: seq<Item>)
    requires forall i :: 0 <= i < |items| ==> items[i].Ok?
    ensures Iter(TryFromIter(items).value) == items
  {
  }

  /** Unlike `TryFromAlleles`, collecting an empty iterator succeeds, with no alleles. */
  lemma TryFromIterEmpty()
    ensures TryFromIter([]) == Ok(Genotype([]))
    ensures TryFromAlleles([]) == Err(Empty)
  {
  }

  /** `TryFromAlleles` keeps a first allele that carries a phasing; the
      `InvalidFirstAllelePhasing` error is declared but never returned. */
  lemma TryFromAllelesNeverChecksPhasing(alleles: seq<Allele>)
    ensures TryFromAlleles(alleles) != Err(InvalidFirstAllelePhasing)
  {
  }

  /** The test of `TryFrom<Vec<Allele>>`: "0/1" as alleles, and the empty list. */
  lemma TryFromAllelesExamples()
    ensures TryFromAlleles([Allele(Some(0), Unphased), Allele(Some(1), Unphased)]) ==
      Ok(Genotype([Allele(Some(0), Unphased), Allele(Some(1), Unphased)]))
    ensures TryFromAlleles([]) == Err(Empty)
  {
  }

  // ---------------------------------------------------------------------------
  // GT field syntax (section 1.6.2 of VCF 4.4)

  datatype ParseError = EmptyInput | InvalidAllele

  /** Allele positions are `usize` values: below 2^64. */
  const USIZE_LIMIT: nat := 0x1_0000_0000_0000_0000

  predicate IsSeparator(c: char) {
    c == '|' || c == '/'
  }

  /** The phasing a separator stands for: '|' phased, '/' unphased. */
  function SeparatorPhasing(c: char): Phasing
    requires IsSeparator(c)
  {
    if c == '|' then Phased else Unphased
  }

  predicate IsDigit(c: char) {
    '0' <= c <= '9'
  }

  predicate AllDigits(s: string) {
    forall i :: 0 <= i < |s| ==> IsDigit(s[i])
  }

  /** The value of a string of decimal digits. */
  function DecimalValue(s: string): nat
    requires AllDigits(s)
  {
    if |s| == 0 then 0 else 10 * DecimalValue(s[..|s| - 1]) + (s[|s| - 1] as int - '0' as int)
  }

  /** An allele position as `usize::from_str` reads it: an optional '+' and then at least
      one digit, with a value that fits in a `usize`; "." is the missing allele. */
  function ParsePosition(t: string): (r: Result<Option<nat>, ParseError>)
    ensures r.Ok? && r.value.Some? ==> r.value.value < USIZE_LIMIT
    ensures r.Err? ==> r.error == InvalidAllele
  {
    if t == "." then Ok(None)
    else
      var digits := if |t| > 0 && t[0] == '+' then t[1..] else t;
      if |digits| > 0 && AllDigits(digits) && DecimalValue(digits) < USIZE_LIMIT then Ok(Some(DecimalValue(digits)))
      else Err(InvalidAllele)
  }

  /** Index of the first separator in s, or |s| when there is none. */
  function IndexOfSeparator(s: string): (i: nat)
    ensures i <= |s|
    ensures forall j :: 0 <= j < i ==> !IsSeparator(s[j])
    ensures i < |s| ==> IsSeparator(s[i])
  {
    if |s| == 0 || IsSeparator(s[0]) then 0 else 1 + IndexOfSeparator(s[1..])
  }

  /** An allele after the first: the phasing of the separator before it and its text. */
  datatype Piece = Piece(phasing: Phasing, text: string)

  /** A GT value cut at its separators: the first allele's text, then each later allele
      with the separator that precedes it. */
  datatype Pieces = Pieces(first: string, rest: seq<Piece>)

  function Tokenize(s: string): (p: Pieces)
    decreases |s|
  {
    var i := IndexOfSeparator(s);
    if i == |s| then Pieces(s, [])
    else
      var tail := Tokenize(s[i + 1..]);
      Pieces(s[..i], [Piece(SeparatorPhasing(s[i]), tail.first)] + tail.rest)
  }

  /** Without a leading separator, the first allele is phased when every other allele is
      (and so a lone allele is phased), and unphased otherwise. */
  function ImpliedFirstPhasing(rest: seq<Piece>): Phasing {
    if forall k :: 0 <= k < |rest| ==> rest[k].phasing == Phased then Phased else Unphased
  }

  /** The alleles after the first, in order, or the error of the first that is invalid. */
  function ParsePieces(rest: seq<Piece>): (r: Result<seq<Allele>, ParseError>)
    ensures r.Ok? ==> (|r.value| == |rest| &&
      forall k :: 0 <= k < |rest| ==> r.value[k].phasing == rest[k].phasing)
    ensures r.Err? ==> r.error == InvalidAllele
  {
    if |rest| == 0 then Ok([])
    else
      match ParsePosition(rest[0].text)
      case Err(e) => Err(e)
      case Ok(position) =>
        match ParsePieces(rest[1..])
        case Err(e) => Err(e)
        case Ok(others) => Ok([Allele(position, rest[0].phasing)] + others)
  }

  /** The alleles of a GT value after its optional leading separator, the first taking
      the explicit phasing if there was one and the implied one otherwise. */
  function ParseAlleles(explicit: Option<Phasing>, body: string): (r: Result<Genotype, ParseError>)
    ensures r.Ok? ==> |r.value.alleles| >= 1
    ensures r.Err? ==> r.error == InvalidAllele
  {
    var pieces := Tokenize(body);
    var firstPhasing := if explicit.Some? then explicit.value else ImpliedFirstPhasing(pieces.rest);
    match ParsePosition(pieces.first)
    case Err(e) => Err(e)
    case Ok(position) =>
      match ParsePieces(pieces.rest)
      case Err(e) => Err(e)
      case Ok(others) => Ok(Genotype([Allele(position, firstPhasing)] + others))
  }

  /** `Genotype::from_str`: an empty value is refused; an optional leading '|' or '/' gives
      the first allele's phasing explicitly; then alleles separated by '|' or '/', each
      taking the phasing of the separator before it. */
  function Parse(s: string): (r: Result<Genotype, ParseError>)
    ensures r == Err(EmptyInput) <==> |s| == 0
    ensures r.Ok? ==> |r.value.alleles| >= 1
  {
    if |s| == 0 then Err(EmptyInput)
    else if IsSeparator(s[0]) then ParseAlleles(Some(SeparatorPhasing(s[0])), s[1..])
    else ParseAlleles(None, s)
  }

  // ---------------------------------------------------------------------------
  // Cutting at separators

  predicate NoSeparator(s: string) {
    forall j :: 0 <= j < |s| ==> !IsSeparator(s[j])
  }

  /** Text without a separator is one allele's text. */
  lemma TokenizeWhole(s: string)
    requires NoSeparator(s)
    ensures Tokenize(s) == Pieces(s, [])
  {
    assert IndexOfSeparator(s) == |s|;
  }

  /** Text, a separator and more: the text is the first allele's, and the separator's
      phasing goes with the allele that follows it. */
  lemma TokenizeAt(a: string, c: char, rest: string)
    requires NoSeparator(a) && IsSeparator(c)
    ensures Tokenize(a + [c] + rest) ==
      Pieces(a, [Piece(SeparatorPhasing(c), Tokenize(rest).first)] + Tokenize(rest).rest)
  {
    var s := a + [c] + rest;
    assert IndexOfSeparator(s) == |a| by {
      assert s[|a|] == c;
      assert forall j :: 0 <= j < |a| ==> s[j] == a[j];
    }
    assert s[..|a|] == a;
    assert s[|a| + 1..] == rest;
  }

  /** A single digit is the allele position it names. */
  lemma ParseDigit(c: char)
    requires IsDigit(c)
    ensures ParsePosition([c]) == Ok(Some(c as int - '0' as int))
  {
    assert [c] != "." by { assert [c][0] != "."[0]; }
    assert [c][..0] == [];
    assert AllDigits([c]);
    assert DecimalValue([c]) == c as int - '0' as int;
  }

  // ---------------------------------------------------------------------------
  // Writing a GT value (the syntax of section 1.6.2 of VCF 4.4, written out)

  function DigitChar(d: nat): (c: char)
    requires d < 10
    ensures IsDigit(c) && c as int - '0' as int == d
  {
    ('0' as int + d) as char
  }

  /** The decimal digits of n, without leading zeros. */
  function Decimal(n: nat): (s: string)
    ensures |s| >= 1 && AllDigits(s)
  {
    if n < 10 then [DigitChar(n)] else Decimal(n / 10) + [DigitChar(n % 10)]
  }

  /** Reading the decimal digits of n gives n. */
  lemma {:induction false} DecimalRoundTrip(n: nat)
    ensures DecimalValue(Decimal(n)) == n
  {
    var s := Decimal(n);
    if n < 10 {
      assert s[..0] == [];
    } else {
      assert s[..|s| - 1] == Decimal(n / 10);
      DecimalRoundTrip(n / 10);
    }
  }

  /** An allele position as written: "." for a missing one. */
  function PositionText(p: Option<nat>): (s: string)
    ensures |s| >= 1 && NoSeparator(s) && s[0] != '+'
  {
    match p
    case None => "."
    case Some(n) => Decimal(n)
  }

  /** Reading a written allele position gives it back. */
  lemma ParsePositionText(p: Option<nat>)
    requires p.Some? ==> p.value < USIZE_LIMIT
    ensures ParsePosition(PositionText(p)) == Ok(p)
  {
    if p.Some? {
      DecimalRoundTrip(p.value);
      assert PositionText(p) != "." by { assert IsDigit(PositionText(p)[0]); }
    }
  }

  function SeparatorChar(phasing: Phasing): (c: char)
    ensures IsSeparator(c) && SeparatorPhasing(c) == phasing
  {
    match phasing
    case Phased => '|'
    case Unphased => '/'
  }

  /** The alleles after the first, each written after its separator. */
  function FormatRest(alleles: seq<Allele>): string {
    if |alleles| == 0 then ""
    else [SeparatorChar(alleles[0].phasing)] + PositionText(alleles[0].position) + FormatRest(alleles[1..])
  }

  /** The pieces a reader cuts the written alleles into. */
  function PiecesOf(alleles: seq<Allele>): (ps: seq<Piece>)
    ensures |ps| == |alleles|
    ensures forall k :: 0 <= k < |alleles| ==> ps[k] == Piece(alleles[k].phasing, PositionText(alleles[k].position))
  {
    if |alleles| == 0 then [] else [Piece(alleles[0].phasing, PositionText(alleles[0].position))] + PiecesOf(alleles[1..])
  }

  /** The leading separator of a written genotype: present only when the first allele's
      phasing differs from the one the other alleles imply. */
  function FormatPrefix(g: Genotype): Option<Phasing>
    requires |g.alleles| >= 1
  {
    var first := g.alleles[0];
    if first.phasing == ImpliedFirstPhasing(PiecesOf(g.alleles[1..])) then None else Some(first.phasing)
  }

  /** The alleles of a written genotype, separated by the separators of their phasings. */
  function FormatBody(g: Genotype): string
    requires |g.alleles| >= 1
  {
    PositionText(g.alleles[0].position) + FormatRest(g.alleles[1..])
  }

  /** A genotype with at least one allele written as a GT value. */
  function Format(g: Genotype): string
    requires |g.alleles| >= 1
  {
    match FormatPrefix(g)
    case None => FormatBody(g)
    case Some(phasing) => [SeparatorChar(phasing)] + FormatBody(g)
  }

  /** Positions that fit in a `usize`. */
  predicate PositionsFit(alleles: seq<Allele>) {
    forall k :: 0 <= k < |alleles| ==> (alleles[k].position.Some? ==> alleles[k].position.value < USIZE_LIMIT)
  }

  /** Written alleles are cut back into their texts and phasings. */
  lemma {:induction false} TokenizeFormat(first: string, alleles: seq<Allele>)
    requires NoSeparator(first)
    ensures Tokenize(first + FormatRest(alleles)) == Pieces(first, PiecesOf(alleles))
    decreases |alleles|
  {
    if |alleles| == 0 {
      assert first + FormatRest(alleles) == first;
      TokenizeWhole(first);
    } else {
      var next := PositionText(alleles[0].position);
      var c := SeparatorChar(alleles[0].phasing);
      assert first + FormatRest(alleles) == first + [c] + (next + FormatRest(alleles[1..]));
      TokenizeAt(first, c, next + FormatRest(alleles[1..]));
      TokenizeFormat(next, alleles[1..]);
    }
  }

  /** Written alleles are read back as they were. */
  lemma {:induction false} ParsePiecesOf(alleles: seq<Allele>)
    requires PositionsFit(alleles)
    ensures ParsePieces(PiecesOf(alleles)) == Ok(alleles)
    decreases |alleles|
  {
    if |alleles| > 0 {
      ParsePositionText(alleles[0].position);
      assert PiecesOf(alleles)[1..] == PiecesOf(alleles[1..]);
      assert PositionsFit(alleles[1..]) by {
        forall k | 0 <= k < |alleles[1..]| ensures alleles[1..][k] == alleles[k + 1] { }
      }
      ParsePiecesOf(alleles[1..]);
      assert [alleles[0]] + alleles[1..] == alleles;
    }
  }

  /** How the alleles of a GT value are read, once it is cut into pieces that each read
      successfully. */
  lemma ParseAllelesOf(explicit: Option<Phasing>, body: string, position: Option<nat>, others: seq<Allele>)
    requires ParsePosition(Tokenize(body).first) == Ok(position)
    requires ParsePieces(Tokenize(body).rest) == Ok(others)
    ensures ParseAlleles(explicit, body) == Ok(Genotype([Allele(position,
      if explicit.Some? then explicit.value else ImpliedFirstPhasing(Tokenize(body).rest))] + others))
  {
  }

  /** A written genotype is read by its leading separator, if any, and then its body. */
  lemma ParseFormatSplit(g: Genotype)
    requires |g.alleles| >= 1
    ensures Parse(Format(g)) == ParseAlleles(FormatPrefix(g), FormatBody(g))
  {
    var body := FormatBody(g);
    assert body[0] == PositionText(g.alleles[0].position)[0];
    if FormatPrefix(g).Some? {
      assert Format(g)[1..] == body;
    }
  }

  /** The body of a written genotype is read back as its alleles, the first taking the
      phasing the prefix states or the others imply. */
  lemma ParseFormatBody(g: Genotype)
    requires |g.alleles| >= 1 && PositionsFit(g.alleles)
    ensures ParseAlleles(FormatPrefix(g), FormatBody(g)) == Ok(g)
  {
    var first := g.alleles[0];
    var rest := g.alleles[1..];
    var text := PositionText(first.position);
    var body := FormatBody(g);
    assert Tokenize(body) == Pieces(text, PiecesOf(rest)) by {
      TokenizeFormat(text, rest);
    }
    assert ParsePosition(text) == Ok(first.position) by {
      ParsePositionText(first.position);
    }
    assert ParsePieces(PiecesOf(rest)) == Ok(rest) by {
      assert PositionsFit(rest) by {
        forall k | 0 <= k < |rest| ensures rest[k] == g.alleles[k + 1] { }
      }
      ParsePiecesOf(rest);
    }
    ParseAllelesOf(FormatPrefix(g), body, first.position, rest);
    assert [first] + rest == g.alleles;
  }

  /** Reading a written GT value gives back the genotype, for every genotype with at least
      one allele and positions that fit in a `usize`. */
  lemma ParseFormat(g: Genotype)
    requires |g.alleles| >= 1 && PositionsFit(g.alleles)
    ensures Parse(Format(g)) == Ok(g)
  {
    ParseFormatSplit(g);
    ParseFormatBody(g);
  }

  // The tests of `FromStr` in genotype.rs, one lemma each: the genotype written out is
  // the test's text, and ParseFormat reads it back.

  lemma FormatExampleUnphased()
    ensures Format(Genotype([Allele(Some(0), Unphased), Allele(Some(1), Unphased)])) == "0/1"
  {
    var g := Genotype([Allele(Some(0), Unphased), Allele(Some(1), Unphased)]);
    assert Decimal(0) == "0" && Decimal(1) == "1";
    var rest := g.alleles[1..];
    assert FormatRest(rest[1..]) == "";
    assert FormatRest(rest) == "/1";
    assert PiecesOf(rest)[0].phasing == Unphased;
    assert ImpliedFirstPhasing(PiecesOf(rest)) == Unphased;
  }

  lemma ParseExampleUnphased()
    ensures Parse("0/1") == Ok(Genotype([Allele(Some(0), Unphased), Allele(Some(1), Unphased)]))
  {
    FormatExampleUnphased();
    ParseFormat(Genotype([Allele(Some(0), Unphased), Allele(Some(1), Unphased)]));
  }

  lemma FormatExamplePhased()
    ensures Format(Genotype([Allele(Some(0), Phased), Allele(Some(1), Phased)])) == "0|1"
  {
    var g := Genotype([Allele(Some(0), Phased), Allele(Some(1), Phased)]);
    assert Decimal(0) == "0" && Decimal(1) == "1";
    var rest := g.alleles[1..];
    assert FormatRest(rest[1..]) == "";
    assert FormatRest(rest) == "|1";
    assert forall j :: 0 <= j < |PiecesOf(rest)| ==> PiecesOf(rest)[j].phasing == Phased;
    assert ImpliedFirstPhasing(PiecesOf(rest)) == Phased;
  }

  lemma ParseExamplePhased()
    ensures Parse("0|1") == Ok(Genotype([Allele(Some(0), Phased), Allele(Some(1), Phased)]))
  {
    FormatExamplePhased();
    ParseFormat(Genotype([Allele(Some(0), Phased), Allele(Some(1), Phased)]));
  }

  lemma FormatExampleMissing()
    ensures Format(Genotype([Allele(None, Unphased), Allele(None, Unphased)])) == "./."
  {
    var g := Genotype([Allele(None, Unphased), Allele(None, Unphased)]);
    var rest := g.alleles[1..];
    assert FormatRest(rest[1..]) == "";
    assert FormatRest(rest) == "/.";
    assert PiecesOf(rest)[0].phasing == Unphased;
    assert ImpliedFirstPhasing(PiecesOf(rest)) == Unphased;
  }

  lemma ParseExampleMissing()
    ensures Parse("./.") == Ok(Genotype([Allele(None, Unphased), Allele(None, Unphased)]))
  {
    FormatExampleMissing();
    ParseFormat(Genotype([Allele(None, Unphased), Allele(None, Unphased)]));
  }

  lemma FormatExampleHaploid()
    ensures Format(Genotype([Allele(Some(0), Phased)])) == "0"
  {
    var g := Genotype([Allele(Some(0), Phased)]);
    assert Decimal(0) == "0";
    var rest := g.alleles[1..];
    assert FormatRest(rest) == "";
    assert ImpliedFirstPhasing(PiecesOf(rest)) == Phased;
  }

  lemma ParseExampleHaploid()
    ensures Parse("0") == Ok(Genotype([Allele(Some(0), Phased)]))
  {
    FormatExampleHaploid();
    ParseFormat(Genotype([Allele(Some(0), Phased)]));
  }

  lemma FormatExampleTriploid()
    ensures Format(Genotype([Allele(Some(0), Unphased), Allele(Some(1), Unphased), Allele(Some(2), Unphased)])) == "0/1/2"
  {
    var g := Genotype([Allele(Some(0), Unphased), Allele(Some(1), Unphased), Allele(Some(2), Unphased)]);
    assert Decimal(0) == "0" && Decimal(1) == "1" && Decimal(2) == "2";
    var rest := g.alleles[1..];
    assert FormatRest(rest[1..][1..]) == "";
    assert FormatRest(rest[1..]) == "/2";
    assert FormatRest(rest) == "/1/2";
    assert PiecesOf(rest)[0].phasing == Unphased;
    assert ImpliedFirstPhasing(PiecesOf(rest)) == Unphased;
  }

  lemma ParseExampleTriploid()
    ensures Parse("0/1/2") == Ok(Genotype([Allele(Some(0), Unphased), Allele(Some(1), Unphased), Allele(Some(2), Unphased)]))
  {
    FormatExampleTriploid();
    ParseFormat(Genotype([Allele(Some(0), Unphased), Allele(Some(1), Unphased), Allele(Some(2), Unphased)]));
  }

  lemma FormatExampleMixed()
    ensures Format(Genotype([Allele(Some(0), Unphased), Allele(Some(1), Unphased), Allele(Some(2), Phased)])) == "0/1|2"
  {
    var g := Genotype([Allele(Some(0), Unphased), Allele(Some(1), Unphased), Allele(Some(2), Phased)]);
    assert Decimal(0) == "0" && Decimal(1) == "1" && Decimal(2) == "2";
    var rest := g.alleles[1..];
    assert FormatRest(rest[1..][1..]) == "";
    assert FormatRest(rest[1..]) == "|2";
    assert FormatRest(rest) == "/1|2";
    assert PiecesOf(rest)[0].phasing == Unphased;
    assert ImpliedFirstPhasing(PiecesOf(rest)) == Unphased;
  }

  lemma ParseExampleMixed()
    ensures Parse("0/1|2") == Ok(Genotype([Allele(Some(0), Unphased), Allele(Some(1), Unphased), Allele(Some(2), Phased)]))
  {
    FormatExampleMixed();
    ParseFormat(Genotype([Allele(Some(0), Unphased), Allele(Some(1), Unphased), Allele(Some(2), Phased)]));
  }

  lemma FormatExampleLeadingPhasing()
    ensures Format(Genotype([Allele(Some(0), Phased), Allele(Some(1), Unphased), Allele(Some(2), Unphased)])) == "|0/1/2"
  {
    var g := Genotype([Allele(Some(0), Phased), Allele(Some(1), Unphased), Allele(Some(2), Unphased)]);
    assert Decimal(0) == "0" && Decimal(1) == "1" && Decimal(2) == "2";
    var rest := g.alleles[1..];
    assert FormatRest(rest[1..][1..]) == "";
    assert FormatRest(rest[1..]) == "/2";
    assert FormatRest(rest) == "/1/2";
    assert PiecesOf(rest)[0].phasing == Unphased;
    assert ImpliedFirstPhasing(PiecesOf(rest)) == Unphased;
    assert FormatBody(g) == "0/1/2";
  }

  lemma ParseExampleLeadingPhasing()
    ensures Parse("|0/1/2") == Ok(Genotype([Allele(Some(0), Phased), Allele(Some(1), Unphased), Allele(Some(2), Unphased)]))
  {
    FormatExampleLeadingPhasing();
    ParseFormat(Genotype([Allele(Some(0), Phased), Allele(Some(1), Unphased), Allele(Some(2), Unphased)]));
  }

  lemma ParseExampleInvalid()
    ensures Parse("0:1") == Err(InvalidAllele)
  {
    assert "0:1"[0] == '0' && "0:1"[1] == ':';
  }
}
