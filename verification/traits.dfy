/** The corgi trait classifier: the last four hex characters of a DNA hex
    string are the 16-bit "mutant gene"; a gene below
    `MUTANT_CORGI_PROBABILITY` makes a mutant with a 1-based slot id. */
module Traits {
  import Hex

  /** Number of mutant slots. */
  const NUMBER_MUTANT_CORGIS: nat := 31
  /** Gene values that share one mutant slot (the divisor of the slot mapping). */
  const GENES_PER_MUTANT: nat := 6
  /** Genes below this bound are mutant. */
  const MUTANT_CORGI_PROBABILITY: nat := NUMBER_MUTANT_CORGIS * GENES_PER_MUTANT
  /** Number of distinct genes: four hex characters. */
  const GENE_SPACE: nat := 0x1_0000
  /** Width of the mutant gene in hex characters. */
  const GENE_DIGITS: nat := 4

  /** The `[isMutant, mutantId]` pair the classifier returns. */
  datatype Classification = Classification(isMutant: bool, mutantId: int)

  /** A classification the classifier can produce: not a mutant with id 0,
      or a mutant with an id among the slots. */
  predicate ValidClassification(c: Classification) {
    if c.isMutant then 1 <= c.mutantId <= NUMBER_MUTANT_CORGIS else c.mutantId == 0
  }

  /** JavaScript's `s.slice(-4)`: the last four characters, or the whole
      string when it is shorter. */
  function LastFour(s: seq<char>): (t: seq<char>)
    ensures |t| == if |s| < GENE_DIGITS then |s| else GENE_DIGITS
    ensures s == s[..|s| - |t|] + t
  {
    if |s| < GENE_DIGITS then s else s[|s| - GENE_DIGITS..]
  }

  /** The inputs on which the classifier is modelled: a non-empty string whose
      last four characters are hex digits. */
  predicate WellFormedDna(hex: seq<char>) {
    |hex| > 0 && Hex.AllHexDigits(LastFour(hex))
  }

  /** `hexToNumber("0x" + hex.slice(-4))`. */
  function MutantGene(hex: seq<char>): (g: nat)
    requires WellFormedDna(hex)
    ensures g < GENE_SPACE
  {
    var digits := LastFour(hex);
    Hex.Pow16Monotonic(|digits|, GENE_DIGITS);
    assert Hex.Pow16(GENE_DIGITS) == GENE_SPACE;
    Hex.Decode(digits)
  }

  /** JavaScript's `~~x` on a finite number: truncation toward zero followed
      by the wrap-around of ToInt32 into the signed 32-bit range. */
  function JsDoubleTilde(x: real): (r: int)
    ensures -0x8000_0000 <= r < 0x8000_0000
    ensures 0.0 <= x < 0x8000_0000 as real ==> r == x.Floor
    ensures -0x8000_0000 as real < x < 0.0 ==> r == -((-x).Floor)
  {
    var t := if x >= 0.0 then x.Floor else -((-x).Floor);
    (t + 0x8000_0000) % 0x1_0000_0000 - 0x8000_0000
  }

  /** `~~` is periodic with period 2^32 on integers: a value past the signed
      32-bit range wraps around, so `~~(2^31)` is -2^31. */
  lemma JsDoubleTildeWraps(n: int)
    ensures JsDoubleTilde((n + 0x1_0000_0000) as real) == JsDoubleTilde(n as real)
    ensures JsDoubleTilde(0x8000_0000 as real) == -0x8000_0000
  {
  }

  /** The branch of `isMutantDnaHex` applied to an already decoded gene. */
  function ClassifyGene(gene: nat): (c: Classification)
    requires gene < GENE_SPACE
    ensures c.isMutant <==> gene < MUTANT_CORGI_PROBABILITY
    ensures c.isMutant ==> c.mutantId == gene / GENES_PER_MUTANT + 1
    ensures !c.isMutant ==> c.mutantId == 0
    ensures ValidClassification(c)
  {
    if gene < MUTANT_CORGI_PROBABILITY then
      TruncatedQuotient(gene);
      Classification(true, JsDoubleTilde(gene as real / GENES_PER_MUTANT as real) + 1)
    else
      Classification(false, 0)
  }

  /** `~~(g / 6)` with floating division equals Euclidean division for every
      gene. */
  lemma TruncatedQuotient(g: nat)
    requires g < GENE_SPACE
    ensures JsDoubleTilde(g as real / GENES_PER_MUTANT as real) == g / GENES_PER_MUTANT
  {
    var q := g / 6;
    var r := g % 6;
    assert g == 6 * q + r;
    var x := g as real / 6.0;
    assert x == q as real + r as real / 6.0;
    assert q as real <= x < (q + 1) as real;
    assert x.Floor == q;
  }

  /** `isMutantDnaHex`. */
  function IsMutantDnaHex(hex: seq<char>): (c: Classification)
    requires WellFormedDna(hex)
    ensures c.isMutant <==> MutantGene(hex) < MUTANT_CORGI_PROBABILITY
    ensures c.isMutant ==> c.mutantId == MutantGene(hex) / GENES_PER_MUTANT + 1
    ensures c.mutantId == 0 <==> !c.isMutant
    ensures ValidClassification(c)
  {
    ClassifyGene(MutantGene(hex))
  }
}
