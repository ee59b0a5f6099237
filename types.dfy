/** The values of the provisioning `types` package that the Terraform operator
    reads or produces. Only the parts the operator inspects are modelled. */
module Types {

  datatype Option<+T> = None | Some(value: T)

  /** The provider a cluster is provisioned on. The operator distinguishes
      only Gardener (which needs its provider plugin bootstrapped) from every
      other provider. */
  datatype ProviderType = Gardener | Other(name: string)

  datatype Phase = Unknown | Provisioned

  datatype ClusterStatus = ClusterStatus(phase: Phase)

  /** Provider-specific connection details read back from the workspace after
      a successful apply; their content is opaque to the operator. */
  datatype ClusterInfo = ClusterInfo(details: string)

  /** A Terraform state file, reduced to the one thing the operator asks of it:
      whether it records any resources. */
  datatype StateFile = StateFile(hasResources: bool)
}
