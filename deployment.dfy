/**
 * The predicate names of a `ContractDeployment` node in Dgraph and the
 * set of them every contract query asks for.
 */
module Deployment {

  const UidKey := "uid"
  const IdKey := "ContractDeployment.id"
  const ContractKey := "ContractDeployment.contract"
  const BlockKey := "ContractDeployment.block"
  const StorageProtocolKey := "ContractDeployment.storage_protocol"
  const StorageAddressKey := "ContractDeployment.storage_address"
  const ExperimentalKey := "ContractDeployment.experimental"
  const SolcVersionKey := "ContractDeployment.solc_version"
  const VerifiedSourceKey := "ContractDeployment.verified_source"
  const SourceCodeKey := "ContractDeployment.verified_source_code"
  const NameKey := "ContractDeployment.name"
  const DescriptionKey := "ContractDeployment.description"
  const StandardsKey := "ContractDeployment.standards"
  const PatternsKey := "ContractDeployment.patterns"
  const FunctionalitiesKey := "ContractDeployment.functionalities"
  const ApplicationDomainKey := "ContractDeployment.application_domain"
  const SecurityRisksKey := "ContractDeployment.security_risks_description"
  const EmbeddingsKey := "ContractDeployment.embeddings"

  /** The predicates listed in every contract query, `uid` first. */
  const QueriedKeys: set<string> := {UidKey, IdKey, ContractKey, BlockKey, StorageProtocolKey,
    StorageAddressKey, ExperimentalKey, SolcVersionKey, VerifiedSourceKey, SourceCodeKey, NameKey,
    DescriptionKey, StandardsKey, PatternsKey, FunctionalitiesKey, ApplicationDomainKey,
    SecurityRisksKey, EmbeddingsKey}
}
