/** The interface between the controller and a provider. */
module Provider {
  import opened Wrappers
  import opened Domain

  datatype Plan = Plan(id: PlanId, resources: HostResources)

  datatype ProviderLifecycle = Provisioning | Ready | Deleting

  datatype ProviderResource = ProviderResource(id: ResourceId, hostId: HostId, lifecycle: ProviderLifecycle)

  datatype ProviderObservation = Absent | Present(resource: ProviderResource)

  datatype CreateOutcome = Created(resource: ProviderResource) | OutcomeUnknown

  datatype DeleteOutcome = Deleted | OutcomeUnknown

  datatype ProviderError = Definitive(message: Name) | Transient(message: Name)

  type Selected = Result<Option<Plan>, ProviderError>
  type Observed = Result<ProviderObservation, ProviderError>
  type Creation = Result<CreateOutcome, ProviderError>
  type Deletion = Result<DeleteOutcome, ProviderError>
}
