/** Properties of the trait classifier over all inputs: which characters it
    reads, how genes spread over the mutant slots, and which classifications
    it can reach. */
module TraitProperties {
  import Hex
  import opened Traits

  /** Characters before the last four never affect the classification. */
  lemma {:induction false} PrefixIrrelevant(prefix: seq<char>, tail: seq<char>)
    requires |tail| >= GENE_DIGITS
    requires WellFormedDna(tail)
    ensures WellFormedDna(prefix + tail)
    ensures MutantGene(prefix + tail) == MutantGene(tail)
    ensures IsMutantDnaHex(prefix + tail) == IsMutantDnaHex(tail)
  {
    var whole := prefix + tail;
    assert LastFour(whole) == LastFour(tail) by {
      assert whole[|whole| - GENE_DIGITS..] == tail[|tail| - GENE_DIGITS..];
    }
  }

  /** Every gene in [0, 65535] is the gene of its own four-digit rendering, and
      every well-formed suffix, in either letter case, is recovered (in lower
      case) from its gene: the gene is exactly the suffix read as an unsigned
      number. */
  lemma GeneRoundTrip(g: nat, hex: seq<char>)
    requires g < GENE_SPACE
    requires WellFormedDna(hex) && |hex| >= GENE_DIGITS
    ensures WellFormedDna(Hex.Encode(g, GENE_DIGITS))
    ensures MutantGene(Hex.Encode(g, GENE_DIGITS)) == g
    ensures Hex.Encode(MutantGene(hex), GENE_DIGITS) == Hex.ToLower(LastFour(hex))
  {
    assert Hex.Pow16(GENE_DIGITS) == GENE_SPACE;
    Hex.DecodeEncode(g, GENE_DIGITS);
    Hex.DecodeIgnoresCase(LastFour(hex));
    Hex.EncodeDecode(Hex.ToLower(LastFour(hex)));
  }

  /** The genes in [lo, hi). */
  function Interval(lo: nat, hi: nat): (s: set<nat>)
    ensures forall g :: g in s <==> lo <= g < hi
    ensures |s| == if lo <= hi then hi - lo else 0
    decreases hi
  {
    if hi <= lo then {} else Interval(lo, hi - 1) + {hi - 1}
  }

  /** The genes that classify as `c`. */
  function GenesClassifiedAs(c: Classification): set<nat> {
    set g: nat | g < GENE_SPACE && ClassifyGene(g) == c
  }

  /** Mutant slot `id` is produced by exactly the six genes 6(id-1) .. 6id-1. */
  lemma SlotHasSixGenes(id: int)
    requires 1 <= id <= NUMBER_MUTANT_CORGIS
    ensures GenesClassifiedAs(Classification(true, id))
         == Interval(GENES_PER_MUTANT * (id - 1), GENES_PER_MUTANT * id)
    ensures |GenesClassifiedAs(Classification(true, id))| == GENES_PER_MUTANT
  {
    var lo := GENES_PER_MUTANT * (id - 1);
    var hi := GENES_PER_MUTANT * id;
    forall g: nat | g < GENE_SPACE
      ensures ClassifyGene(g) == Classification(true, id) <==> lo <= g < hi
    {
      if lo <= g < hi {
        assert g / GENES_PER_MUTANT == id - 1;
      }
    }
    assert GenesClassifiedAs(Classification(true, id)) == Interval(lo, hi);
  }

  /** Exactly 186 of the 65536 genes are mutant and the rest classify as
      `[false, 0]`. */
  lemma MutantGeneCount()
    ensures |set g: nat | g < GENE_SPACE && ClassifyGene(g).isMutant| == MUTANT_CORGI_PROBABILITY
    ensures GenesClassifiedAs(Classification(false, 0)) == Interval(MUTANT_CORGI_PROBABILITY, GENE_SPACE)
    ensures |GenesClassifiedAs(Classification(false, 0))| == GENE_SPACE - MUTANT_CORGI_PROBABILITY
  {
    assert (set g: nat | g < GENE_SPACE && ClassifyGene(g).isMutant) == Interval(0, MUTANT_CORGI_PROBABILITY);
    assert GenesClassifiedAs(Classification(false, 0)) == Interval(MUTANT_CORGI_PROBABILITY, GENE_SPACE);
  }

  /** Every classification the classifier may produce is produced by some DNA
      string. */
  lemma ClassificationReachable(c: Classification)
    requires ValidClassification(c)
    ensures exists hex :: WellFormedDna(hex) && IsMutantDnaHex(hex) == c
  {
    var g: nat := if c.isMutant then GENES_PER_MUTANT * (c.mutantId - 1) else GENE_SPACE - 1;
    var hex := Hex.Encode(g, GENE_DIGITS);
    assert Hex.Pow16(GENE_DIGITS) == GENE_SPACE;
    Hex.DecodeEncode(g, GENE_DIGITS);
    assert MutantGene(hex) == g;
    assert IsMutantDnaHex(hex) == c;
  }

  /** A byte of a 32-byte digest. */
  type Byte = b: nat | b < 256

  /** The digest bytes as lower-case hex, two characters per byte. */
  function HexBody(d: seq<Byte>): (s: seq<char>)
    ensures |s| == 2 * |d|
    ensures Hex.AllHexDigits(s)
  {
    if d == [] then []
    else
      var init := HexBody(d[..|d| - 1]);
      var last := Hex.Encode(d[|d| - 1], 2);
      Hex.AppendAllHex(init, last);
      init + last
  }

  /** The `0x`-prefixed rendering of a digest, the form a hash string takes. */
  function DigestHex(d: seq<Byte>): seq<char> {
    "0x" + HexBody(d)
  }

  /** On the hex rendering of a digest of at least two bytes, the mutant gene
      is the digest's low two bytes read big-endian. */
  lemma GeneIsLowTwoBytes(d: seq<Byte>)
    requires |d| >= 2
    ensures WellFormedDna(DigestHex(d))
    ensures MutantGene(DigestHex(d)) == 256 * (d[|d| - 2] as int) + d[|d| - 1] as int
  {
    var hi := Hex.Encode(d[|d| - 2], 2);
    var lo := Hex.Encode(d[|d| - 1], 2);
    var front := HexBody(d[..|d| - 2]);
    assert d[..|d| - 1][..|d| - 2] == d[..|d| - 2];
    assert HexBody(d) == (front + hi) + lo;
    var s := DigestHex(d);
    assert s == ("0x" + front) + (hi + lo);
    assert LastFour(s) == hi + lo;
    Hex.DecodeAppend(hi, lo);
    assert Hex.Pow16(2) == 256;
    Hex.DecodeEncode(d[|d| - 2], 2);
    Hex.DecodeEncode(d[|d| - 1], 2);
  }
}
