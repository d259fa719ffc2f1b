/** The objects the operator reads and writes. */
module Objects {
  import opened Wrappers
  import opened Credentials
  import opened Document
  import opened Conditions

  // ----- the kubeconfig resource

  datatype SecretRef = SecretRef(name: string, namespace: string)
  datatype RoleRef = RoleRef(apiGroup: string, kind: string, name: string)
  datatype ClusterRef = ClusterRef(name: string, server: string)

  /** Optional fields are pointers that may be nil. */
  datatype Spec = Spec(username: string, existingCSR: Option<SecretRef>, autoApproveCSR: bool,
                       csr: Option<CsrParameters>, cluster: Option<ClusterRef>, roleRef: Option<RoleRef>)
  {
    /** Every pointer that the reconciler follows without a check is set. */
    predicate Dereferenceable() {
      csr.Some? && cluster.Some? && roleRef.Some?
    }
  }

  /** The specs the protocol runs on: admitted, and with a secret generated by the operator. */
  type AdmittedSpec = s: Spec | s.Dereferenceable() && s.existingCSR.None?
    witness Spec("", None, false, Some(CsrParameters("", SubjectFields([], [], [], [], []))),
                 Some(ClusterRef("", "")), Some(RoleRef("", "", "")))

  datatype KubeconfigCondition = CSRCreated | CSRApproved | UserSecretCreated | UserSecretFinished | KubeconfigFinished

  datatype Phase = NoPhase | PhasePending | PhaseAwaitingApproval | PhaseDone | PhaseFailed

  /** `conditions` is the condition list as readers by type see it. */
  datatype KubeconfigStatus = KubeconfigStatus(
    conditions: map<KubeconfigCondition, Status>, phase: Phase,
    userSecret: Option<SecretRef>, csr: Option<string>, kubeconfig: Option<Text>)
  {
    predicate Is(kind: KubeconfigCondition, status: Status) {
      kind in conditions && conditions[kind] == status
    }

    function Set(kind: KubeconfigCondition, status: Status): KubeconfigStatus {
      this.(conditions := conditions[kind := status])
    }

    /** isInTerminalCondition */
    predicate Terminal() {
      KubeconfigFinished in conditions && conditions[KubeconfigFinished] != Unknown
    }
  }

  datatype Kubeconfig = Kubeconfig(version: nat, status: KubeconfigStatus)

  // ----- the objects made for it

  datatype SecretData = SecretData(tlsKey: Bytes, tlsCsr: Bytes, tlsCrt: Bytes, kubeconfig: Option<Text>)

  const NO_DATA := SecretData(Empty, Empty, Empty, None)

  /** `data` is a map that may be nil: a secret stored without data is read back with a nil map, where
      reading an entry gives the zero value and writing one panics. */
  datatype Secret = Secret(version: nat, immutable: bool, data: Option<SecretData>)
  {
    const entries := if data.Some? then data.value else NO_DATA
    const tlsKey := entries.tlsKey
    const tlsCsr := entries.tlsCsr
    const tlsCrt := entries.tlsCrt
    const kubeconfig := entries.kubeconfig

    /** The reconciler can store a key pair in this secret. */
    predicate Usable() {
      data.Some? && !immutable
    }

    function WithKeyPair(key: Bytes, request: Bytes): Secret
      requires data.Some?
    {
      this.(data := Some(data.value.(tlsKey := key, tlsCsr := request)))
    }

    function WithCertificate(certificate: Bytes): Secret
      requires data.Some?
    {
      this.(data := Some(data.value.(tlsCrt := certificate)))
    }

    function WithKubeconfig(text: Text): Secret
      requires data.Some?
    {
      this.(data := Some(data.value.(kubeconfig := Some(text))))
    }
  }

  datatype OwnerReference = OwnerReference(apiVersion: string, kind: string, name: string)

  /** `uid` tells apart requests that had the same name one after the other. */
  datatype Csr = Csr(uid: nat, version: nat, owners: seq<OwnerReference>, annotations: map<string, string>,
                     request: Bytes, flags: Flags, certificate: Bytes)

  datatype ClusterRoleBinding = ClusterRoleBinding(subject: string, roleRef: RoleRef)

  const API_VERSION := "kubeconfig.k8s.zoomoid.dev/v1alpha1"
  const AUTO_APPROVE_ANNOTATION := "kubeconfig.k8s.zoomoid.dev/auto-approve"

  predicate OwnedByKubeconfig(owners: seq<OwnerReference>) {
    exists o :: o in owners && o.kind == "Kubeconfig" && o.apiVersion == API_VERSION
  }

  predicate IsKubeconfigCsr(csr: Csr) {
    OwnedByKubeconfig(csr.owners)
  }

  predicate AutoApproves(annotations: map<string, string>) {
    AUTO_APPROVE_ANNOTATION in annotations && annotations[AUTO_APPROVE_ANNOTATION] == "true"
  }

  predicate HasAutoApproveAnnotation(csr: Csr) {
    AutoApproves(csr.annotations)
  }

  /** What has to be on a CSR for the operator to approve it, word for word. */
  predicate AsksForApproval(csr: Csr) {
    && (exists o :: o in csr.owners && o.kind == "Kubeconfig" && o.apiVersion == "kubeconfig.k8s.zoomoid.dev/v1alpha1")
    && "kubeconfig.k8s.zoomoid.dev/auto-approve" in csr.annotations
    && csr.annotations["kubeconfig.k8s.zoomoid.dev/auto-approve"] == "true"
  }

  // ----- names

  const SECRET_NAMESPACE := "kubeconfig-operator-system"

  function SecretName(name: string): string { name + "-client-cert" }

  function BindingName(username: string): string { username + "-kubeconfig" }
}
