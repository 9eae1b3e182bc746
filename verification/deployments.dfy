/** The fixed table of deployed breeder contract addresses per chain id. */
module Deployments {
  import opened Wrappers

  datatype Deployment = Deployment(cryptoCorgisBreeder: seq<char>)

  datatype DeploymentError = UnknownChain(chainId: int)  // "Could not find deployments for chain id"

  const MAINNET_BREEDER: seq<char> := "0x51e613727fdd2e0B91b51c3E5427E9440a7957E4"
  const RINKEBY_BREEDER: seq<char> := "0x23d47718DA298b020291901F3e9B46eCBd081f1b"

  /** `DEPLOYMENTS`: chain 1 (mainnet) and chain 4 (Rinkeby). */
  const DEPLOYMENTS: map<int, Deployment> :=
    map[1 := Deployment(MAINNET_BREEDER), 4 := Deployment(RINKEBY_BREEDER)]

  /** `getDeployment`: the table entry, or an error for a chain id with no entry
      (every entry is an object, hence truthy). */
  function GetDeployment(chainId: int): (r: Result<Deployment, DeploymentError>)
    ensures r.Success? <==> chainId == 1 || chainId == 4
    ensures chainId == 1 ==> r == Success(Deployment(MAINNET_BREEDER))
    ensures chainId == 4 ==> r == Success(Deployment(RINKEBY_BREEDER))
    ensures r.Failure? ==> r.error == UnknownChain(chainId)
  {
    if chainId in DEPLOYMENTS then Success(DEPLOYMENTS[chainId]) else Failure(UnknownChain(chainId))
  }

  /** The lookup agrees with the table: it succeeds exactly on the table's
      keys, with the table's entry. */
  lemma GetDeploymentMatchesTable(chainId: int)
    ensures GetDeployment(chainId).Success? <==> chainId in DEPLOYMENTS
    ensures chainId in DEPLOYMENTS ==> GetDeployment(chainId).value == DEPLOYMENTS[chainId]
    ensures DEPLOYMENTS.Keys == {1, 4}
  {
  }
}
