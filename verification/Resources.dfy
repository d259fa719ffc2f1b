/** What each step of the protocol writes. */
module Resources {
  import opened Wrappers
  import opened Credentials
  import opened Document
  import opened Conditions
  import opened Objects

  /** The API server returns a created secret with its StringData entries in Data, so the map is there. */
  function NewUserSecret(version: nat): Secret {
    Secret(version, false, Some(NO_DATA))
  }

  function NewCsr(name: string, spec: AdmittedSpec, request: Bytes, version: nat): Csr {
    var annotations := if spec.autoApproveCSR then map[AUTO_APPROVE_ANNOTATION := "true"] else map[];
    Csr(version, version, [OwnerReference(API_VERSION, "Kubeconfig", name)], annotations, request, PENDING, Empty)
  }

  function ContextName(spec: AdmittedSpec): string {
    spec.username + "@" + spec.cluster.value.name
  }

  /** The text createKubeconfig writes, given the cluster CA. */
  function KubeconfigText(spec: AdmittedSpec, ca: Bytes, key: Bytes, crt: Bytes): Text {
    var cluster := spec.cluster.value;
    Yaml(SerializedConfig("v1", "Config", EmptyObject, ContextName(spec),
                          [Entry(cluster.name, Cluster(Base64(ca), cluster.server))],
                          [Entry(ContextName(spec), Context(cluster.name, "default", spec.username))],
                          [Entry(spec.username, User(Base64(crt), Base64(key)))]))
  }

  /** `rootCa` is the ca.crt entry of the config map kube-root-ca.crt, or None when there is no such config map. */
  method CreateKubeconfig(spec: AdmittedSpec, rootCa: Option<Bytes>, secret: Secret) returns (r: Result<Text>)
    ensures r.Success? <==> rootCa.Some?
    ensures r.Success? ==> r.value == KubeconfigText(spec, rootCa.value, secret.tlsKey, secret.tlsCrt)
  {
    if rootCa.None? {
      return Failure("config map not found");
    }
    var clusterCa := rootCa.value;
    var clientKey, clientCert := secret.tlsKey, secret.tlsCrt;
    var cluster := spec.cluster.value;

    var cfg := NewBareConfig();
    cfg := cfg.(clusters := map[cluster.name := Cluster(Base64(clusterCa), cluster.server)]);
    cfg := cfg.(users := map[spec.username := User(Base64(clientCert), Base64(clientKey))]);
    var contextName := spec.username + "@" + cluster.name;
    cfg := cfg.(contexts := map[contextName := Context(cluster.name, "default", spec.username)]);
    cfg := cfg.(currentContext := contextName);
    var text := Marshal(cfg);
    SingletonListing(text.config.clusters, cluster.name, Cluster(Base64(clusterCa), cluster.server));
    SingletonListing(text.config.contexts, contextName, Context(cluster.name, "default", spec.username));
    SingletonListing(text.config.users, spec.username, User(Base64(clientCert), Base64(clientKey)));
    r := Success(text);
  }

  /** `text` gives its holder exactly this access: it parses, and no name on the way is dangling. */
  predicate GrantsAccess(text: Text, access: Access) {
    Parse(text).Success? && Resolve(Parse(text).value) == Some(access)
  }

  /** The references of the document survive printing and parsing. */
  lemma ReferencesClose(spec: AdmittedSpec, ca: Bytes, key: Bytes, crt: Bytes)
    ensures var c, cluster := Parse(KubeconfigText(spec, ca, key, crt)).value, spec.cluster.value;
      && c.apiVersion == "v1" && c.kind == "Config" && c.preferences == EmptyObject
      && c.currentContext == spec.username + "@" + cluster.name
      && c.contexts == map[spec.username + "@" + cluster.name := Context(cluster.name, "default", spec.username)]
      && c.clusters == map[cluster.name := Cluster(certificateAuthority := Base64(ca), server := cluster.server)]
      && c.users == map[spec.username := User(clientCertificate := Base64(crt), clientKey := Base64(key))]
    ensures GrantsAccess(KubeconfigText(spec, ca, key, crt),
                         Access(spec.cluster.value.server, "default", Base64(ca), Base64(crt), Base64(key)))
  {
    var s := KubeconfigText(spec, ca, key, crt).config;
    ReadSingleton(s.clusters[0]);
    ReadSingleton(s.contexts[0]);
    ReadSingleton(s.users[0]);
  }

  lemma ReadSingleton<T>(e: Entry<T>)
    ensures LastWins([e]) == map[e.name := e.value]
  {
    assert [e][..0] == [];
  }
}
