/** From a block number to its classification: the DNA hex string is the
    Solidity-style SHA3 of the block number, produced by a hash function the
    model takes as a parameter because it is a foreign library call. */
module Dna {
  import opened Wrappers
  import opened Traits

  /** The library hash of a block number; `None` stands for the `null` or
      `undefined` the library may return. */
  type Sha3 = int -> Option<seq<char>>

  /** The errors the pipeline throws. */
  datatype DnaError =
    | ShaUnavailable(blockNumber: int)   // "Could not find SHA of blockNumber"
    | DnaUnavailable(blockNumber: int)   // "Could not find dna"

  /** JavaScript truthiness of the hash result: both a missing value and the
      empty string are falsy. */
  predicate Truthy(h: Option<seq<char>>) {
    h.Some? && h.value != ""
  }

  /** `blockNumberToDnaHex`: the hash string, or an error when it is falsy. */
  function BlockNumberToDnaHex(sha3: Sha3, blockNumber: int): (r: Result<seq<char>, DnaError>)
    ensures r.Success? <==> Truthy(sha3(blockNumber))
    ensures r.Success? ==> Some(r.value) == sha3(blockNumber) && |r.value| > 0
    ensures r.Failure? ==> r.error == ShaUnavailable(blockNumber)
  {
    var hex := sha3(blockNumber);
    if !Truthy(hex) then Failure(ShaUnavailable(blockNumber)) else Success(hex.value)
  }

  /** What the classifier needs of a hash string the pipeline accepts: its
      last four characters are hex digits (always true of a real SHA3 hex
      digest). */
  predicate HashReadable(sha3: Sha3, blockNumber: int) {
    Truthy(sha3(blockNumber)) ==> WellFormedDna(sha3(blockNumber).value)
  }

  /** `isMutantBlockNumber`: classify the DNA of a block number, failing
      exactly when the hash is unavailable. */
  function IsMutantBlockNumber(sha3: Sha3, blockNumber: int): (r: Result<Classification, DnaError>)
    requires HashReadable(sha3, blockNumber)
    ensures r.Success? <==> Truthy(sha3(blockNumber))
    ensures r.Success? ==> r.value == IsMutantDnaHex(sha3(blockNumber).value)
    ensures r.Failure? ==> r.error == ShaUnavailable(blockNumber)
    ensures r.Success? ==> ValidClassification(r.value)
  {
    match BlockNumberToDnaHex(sha3, blockNumber)
    case Failure(e) => Failure(e)
    case Success(hex) =>
      if hex == "" then Failure(DnaUnavailable(blockNumber)) else Success(IsMutantDnaHex(hex))
  }

  /** The classification of a block depends on the hash only through the
      last four characters of the block's own digest. */
  lemma ClassificationDependsOnSuffixOnly(sha3: Sha3, other: Sha3, blockNumber: int)
    requires HashReadable(sha3, blockNumber) && HashReadable(other, blockNumber)
    requires Truthy(sha3(blockNumber)) && Truthy(other(blockNumber))
    requires LastFour(sha3(blockNumber).value) == LastFour(other(blockNumber).value)
    ensures IsMutantBlockNumber(sha3, blockNumber) == IsMutantBlockNumber(other, blockNumber)
  {
  }

  /** The second guard of `isMutantBlockNumber` never fires: the only error
      the pipeline raises is the unavailable hash. */
  lemma NeverDnaUnavailable(sha3: Sha3, blockNumber: int)
    requires HashReadable(sha3, blockNumber)
    ensures !IsMutantBlockNumber(sha3, blockNumber).Failure?
         || !IsMutantBlockNumber(sha3, blockNumber).error.DnaUnavailable?
  {
  }
}
