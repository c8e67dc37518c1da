/**
 The records a Run binding is made of, and the matchers the broker applies to them.
 Record fields the broker only ever compares as part of a whole record are folded
 into one `rest` field.
 */
module BindingRecords {
  import opened Basics

  type Handle = nat
  type BindingId = string
  type RunId = string
  type NodePath = seq<string>

  datatype RunPin = RunPin(runId: RunId, runRevision: nat, contextId: string)

  datatype ComponentPin = ComponentPin(
    packageId: string,
    componentId: string,
    nodePath: NodePath,
    artifactDigest: string,
    behaviorDigest: string,
    trustClass: string)

  datatype EndpointPin = EndpointPin(
    installationId: string,
    run: Option<RunPin>,
    rootPort: string,
    component: ComponentPin)

  datatype Selection = Selection(
    bindingId: BindingId,
    exposureId: string,
    consumer: EndpointPin,
    provider: EndpointPin,
    capabilityId: string,
    capabilityVersion: string,
    rest: string)

  datatype Activation = Activation(
    activationId: string,
    installationId: string,
    runId: RunId,
    runRevision: nat,
    sessionId: string,
    packageId: string,
    componentId: string,
    nodePath: NodePath,
    consumerPort: string)

  datatype ActivationKey = ActivationKey(
    installationId: string,
    runId: RunId,
    sessionId: string,
    packageId: string,
    componentId: string,
    nodePath: NodePath)

  datatype RunKey = RunKey(installationId: string, runId: RunId, sessionId: string)

  /** A registered capability; `rest` is the part of its descriptor no matcher looks at. */
  datatype Provider = Provider(
    packageId: string,
    componentId: string,
    componentDigest: string,
    behaviorDigest: string,
    trustClass: string,
    capabilityId: string,
    capabilityVersion: string,
    rest: string)

  datatype Generation = Generation(
    generation: nat,
    open: bool,
    handle: Handle,
    activation: Activation,
    selection: Selection,
    provider: Provider)

  function KeyOf(a: Activation): ActivationKey {
    ActivationKey(a.installationId, a.runId, a.sessionId, a.packageId, a.componentId, a.nodePath)
  }

  /** What `register_component_activation` asks of a key. */
  predicate CompleteKey(key: ActivationKey) {
    !Blank(key.sessionId) && !Blank(key.packageId) && !Blank(key.componentId) && key.nodePath != []
  }

  predicate InRun(key: ActivationKey, run: RunKey) {
    key.installationId == run.installationId && key.runId == run.runId && key.sessionId == run.sessionId
  }

  predicate ValidActivation(a: Activation) {
    && !Blank(a.activationId)
    && !Blank(a.packageId)
    && !Blank(a.componentId)
    && a.runRevision > 0
    && a.nodePath != []
  }

  predicate ActivationMatches(a: Activation, s: Selection) {
    && a.installationId == s.consumer.installationId
    && (s.consumer.run.Some? ==>
          && s.consumer.run.value.runId == a.runId
          && s.consumer.run.value.runRevision == a.runRevision
          && s.consumer.run.value.contextId == a.sessionId)
    && a.packageId == s.consumer.component.packageId
    && a.componentId == s.consumer.component.componentId
    && a.nodePath == s.consumer.component.nodePath
    && a.consumerPort == s.consumer.rootPort
  }

  predicate ProviderMatches(p: Provider, s: Selection) {
    && p.packageId == s.provider.component.packageId
    && p.componentId == s.provider.component.componentId
    && p.componentDigest == s.provider.component.artifactDigest
    && p.behaviorDigest == s.provider.component.behaviorDigest
    && p.trustClass == s.provider.component.trustClass
    && p.capabilityId == s.capabilityId
    && p.capabilityVersion == s.capabilityVersion
  }

  predicate SameProvider(p: Provider, q: Provider) {
    && p.packageId == q.packageId
    && p.componentId == q.componentId
    && p.componentDigest == q.componentDigest
    && p.behaviorDigest == q.behaviorDigest
    && p.trustClass == q.trustClass
    && p.capabilityId == q.capabilityId
    && p.capabilityVersion == q.capabilityVersion
  }
}
