# CryptoCorgis trait and pricing rules, modelled in Dafny

CryptoCorgis mints one collectible "corgi" per Ethereum block number. The
TypeScript package `index.ts` carries an off-chain copy of the rules the
breeder contract applies, so that clients and tests can compute the same
answers as the contract:

- **DNA**: the Solidity-style SHA3 of the block number, as a hex string.
- **Trait classifier**: the last four hex characters of the DNA are the
  16-bit *mutant gene*. A gene below `31 * 6 = 186` makes the corgi a mutant
  with slot id `~~(gene / 6) + 1`, in 1..31. Any other gene gives `[false, 0]`.
- **Price curve**: corgi number `n` costs `10^16 + 10^14 * (n - 1)` wei.
- **Deployments**: a fixed table from chain id to the breeder contract's
  address. An unknown chain id is an error.

The model is written as pure functions over unbounded integers and
character sequences:

| file | module | what it holds |
|---|---|---|
| `wrappers.dfy` | `Wrappers` | `Option` for nullable values and `Result` for thrown errors |
| `hex.dfy` | `Hex` | hex digits, `Decode` (what `hexToNumber` computes), and the canonical `Encode` used as its reference inverse |
| `traits.dfy` | `Traits` | the constants, JavaScript's `slice(-4)` and `~~`, and `isMutantDnaHex` |
| `trait_properties.dfy` | `TraitProperties` | all-input facts about the classifier |
| `dna.dfy` | `Dna` | `blockNumberToDnaHex` and `isMutantBlockNumber`, with the hash as a parameter |
| `pricing.dfy` | `Pricing` | `priceForCorgi`, a step-by-step reference price, and treasury totals |
| `deployments.dfy` | `Deployments` | `DEPLOYMENTS` and `getDeployment` |

Modelling choices:

- **The hash.** `soliditySha3` is a foreign library call. It is the parameter
  `sha3: int -> Option<seq<char>>`, where `None` stands for a `null` or
  `undefined` result.
- **Falsy hash results.** JavaScript's `!hex` also rejects the empty string.
  So `blockNumberToDnaHex` fails on `None` and on `""`.
- **The second guard.** The extra `!hex` check in `isMutantBlockNumber` is
  modelled too. `Dna.NeverDnaUnavailable` proves it can never fire.
- **`slice(-4)`.** It returns the whole string when the string is shorter
  than four characters. `Traits.LastFour` does the same.
- **`~~`.** It is modelled on a real-valued quotient: truncation toward zero,
  then the signed 32-bit wrap-around of ToInt32. `Traits.TruncatedQuotient`
  proves that on every gene this equals integer division by 6.

Behaviour of the code that the model keeps:

- `priceForCorgi` checks no lower bound on the corgi number:
  `PriceForCorgi(0)` is `9.9 * 10^15` (`Pricing.PriceReferenceValues`).
- `blockNumberToDnaHex` throws when the hash result is falsy; the model
  returns `Failure(ShaUnavailable(b))`.
- On the `0x`-prefixed hex rendering of a digest, the gene (the last four
  characters) is the digest's last two bytes read big-endian
  (`TraitProperties.GeneIsLowTwoBytes`).
- `hexToNumber` reads letter digits in either case; `Hex.DecodeIgnoresCase`
  proves a digit string reads the same as its lower-case form.

## Model

| member | source | states |
|---|---|---|
| `Hex.DigitValue` | index.ts:28 | a hex digit reads as a value below 16; decimal digits exactly give values below 10 |
| `Hex.DigitValueIgnoresCase` | index.ts:28 | an upper-case letter digit reads the same as its lower-case form |
| `Hex.DecodeIgnoresCase` | index.ts:28 | a digit string reads the same number as its lower-case form, so `hexToNumber` is case-insensitive |
| `Hex.Decode` | index.ts:28 | a string of n hex digits reads as an unsigned number below 16^n |
| `Hex.DecodeEncode` | index.ts:28 | reading the canonical n-digit rendering of any value below 16^n gives the value back |
| `Hex.EncodeDecode` | index.ts:28 | rendering the value of a lower-case hex string at its own width gives the string back, so the reading loses nothing |
| `Traits.LastFour` | index.ts:28 | `slice(-4)` keeps the last four characters, or the whole string when it is shorter, and the result is a suffix of its input |
| `Traits.MutantGene` | index.ts:28 | the mutant gene always lies in [0, 65535] |
| `Traits.JsDoubleTilde` | index.ts:30 | `~~x` lands in the signed 32-bit range, equals the floor of x for x in [0, 2^31), and truncates toward zero for x in (-2^31, 0) |
| `Traits.JsDoubleTildeWraps` | index.ts:30 | `~~` on integers is periodic with period 2^32, and `~~(2^31)` wraps to -2^31 |
| `Traits.TruncatedQuotient` | index.ts:30 | for every gene, `~~(gene / 6)` with exact real division equals integer division by 6 |
| `Traits.ClassifyGene` | index.ts:29-32 | mutant exactly when gene < 186; a mutant's id is gene/6 + 1 in [1, 31]; a non-mutant's id is 0 |
| `Traits.IsMutantDnaHex` | index.ts:27-33 | mutant exactly when the last-four-characters gene is below 186; id 0 exactly when not a mutant; a mutant's id is gene/6 + 1 and lies in [1, 31] |
| `TraitProperties.PrefixIrrelevant` | index.ts:28 | characters before the last four never change the gene or the classification |
| `TraitProperties.GeneRoundTrip` | index.ts:28 | every value in [0, 65535] is the gene of its own four-digit rendering, and every well-formed suffix, in either letter case, is recovered in lower case from its gene |
| `TraitProperties.SlotHasSixGenes` | index.ts:29-30 | mutant slot id is produced by exactly the six genes 6(id-1) to 6id-1 |
| `TraitProperties.MutantGeneCount` | index.ts:5-7 | exactly 186 of the 65536 genes are mutant; the other 65350 give `[false, 0]` |
| `TraitProperties.ClassificationReachable` | index.ts:27-33 | every valid classification, `[false, 0]` and each mutant slot 1 to 31, is produced by some DNA string |
| `TraitProperties.GeneIsLowTwoBytes` | index.ts:28 | on the `0x` hex rendering of a digest, the gene is the digest's last two bytes read big-endian |
| `Dna.BlockNumberToDnaHex` | index.ts:11-17 | succeeds exactly when the hash result is truthy (present and non-empty) and returns that string; otherwise fails with the "no SHA" error for that block |
| `Dna.IsMutantBlockNumber` | index.ts:19-25 | fails exactly when the hash is falsy, and then with the "no SHA" error; otherwise returns `isMutantDnaHex` of the block's hash, a valid classification |
| `Dna.ClassificationDependsOnSuffixOnly` | index.ts:19-28 | two hashes whose digests for a block end in the same four characters give that block the same classification |
| `Dna.NeverDnaUnavailable` | index.ts:20-23 | the second "could not find dna" guard never fires |
| `Pricing.PriceForCorgi` | index.ts:35-37 | every corgi number from 1 costs at least 10^16 wei; the price is positive exactly for numbers above -99; every price is a multiple of 10^14 |
| `Pricing.PriceMatchesSteps` | index.ts:36 | the closed form equals a reference that starts at 10^16 and adds 10^14 per step, for every corgi number from 1 |
| `Pricing.PriceStrictlyIncreasing` | index.ts:36 | the price strictly increases, by 10^14 per corgi number |
| `Pricing.PriceReferenceValues` | index.ts:8-9 | corgi 1 costs 10^16 wei, corgi 100 costs 1.99 * 10^16, and corgi 0 is priced at 9.9 * 10^15 rather than rejected |
| `Pricing.TotalPaidClosedForm` | test/crypto_corgis_breeder.ts:159-213 | the first k mints pay the treasury k * 10^16 + 10^14 * k(k-1)/2 in total |
| `Pricing.ThreeMintTotal` | test/crypto_corgis_breeder.ts:213 | three mints pay the treasury 30300000000000000 wei |
| `Deployments.GetDeployment` | index.ts:52-58 | succeeds exactly for chain ids 1 and 4, with their addresses; fails with the unknown-chain error for every other id |
| `Deployments.GetDeploymentMatchesTable` | index.ts:43-57 | the lookup succeeds exactly on the table's keys {1, 4} and returns the table's entry |

## Left out

- `soliditySha3` (the Keccak-256 hash from web3-utils) is not modelled. It is the parameter `sha3`, about which the model assumes only that a truthy result ends in hex digits (`Dna.HashReadable`).
- Traits.TruncatedQuotient: divides exact reals, not IEEE doubles. For a gene below 65536 the exact quotient lies at least 1/6 below the next integer, far more than the rounding error of a double, so the floor of the rounded quotient is the same.
- Traits.MutantGene: only strings whose last four characters are non-empty hex digits are classified. `hexToNumber` is a library call, and its behaviour on other input is not part of this model.
- Dna.IsMutantBlockNumber: requires that a truthy hash result ends in hex digits, which every real SHA3 hex digest does. Malformed hash output reaches the unmodelled `hexToNumber` case above.
- The Solidity breeder contract is left out: minting, the block-number/corgi-number indices, the claimed list, mutant-slot binding, naming and the owner-only URI setters. The Solidity contract's source is not part of this package, and the test suite only exercises it over a network.
- Test plumbing (hardhat and ethers calls, the 1000-block cross-check against the contract) is not modelled. It needs the real hash and a running contract.
- `hardhat.config.ts` is left out. It is environment-variable network configuration and a deployment task.
- The `./typechain` re-export (index.ts:1) and the unused `CORGI_LIFESPAN_BLOCKS` constant (index.ts:6) are left out.
- Pricing.PriceForCorgi: inputs are unbounded integers. The JavaScript `number` argument's non-integer and unsafe-integer values are not modelled, nor the fault ethers' `BigNumber.from` raises for them, because that library is not part of this model.
- Error messages are modelled as error constructors carrying the block number or chain id, not as concatenated strings.
