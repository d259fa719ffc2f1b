/** The kubeconfig document: held as maps keyed by name, written as lists of named entries. */
module Document {
  import opened Wrappers
  import opened Credentials

  datatype Cluster = Cluster(certificateAuthority: Data, server: string)
  datatype Context = Context(cluster: string, namespace: string, user: string)
  datatype User = User(clientCertificate: Data, clientKey: Data)

  datatype Preferences = Null | EmptyObject | Value(text: string)

  datatype Config = Config(
    apiVersion: string, kind: string, preferences: Preferences, currentContext: string,
    clusters: map<string, Cluster>, contexts: map<string, Context>, users: map<string, User>)

  datatype Entry<T> = Entry(name: string, value: T)

  datatype SerializedConfig = SerializedConfig(
    apiVersion: string, kind: string, preferences: Preferences, currentContext: string,
    clusters: seq<Entry<Cluster>>, contexts: seq<Entry<Context>>, users: seq<Entry<User>>)

  /** YAML text. It is taken to hold the entry lists without loss; text that is not YAML for a
      configuration is malformed. */
  datatype Text = Yaml(config: SerializedConfig) | Malformed(raw: string)

  // ----- entry lists and maps

  ghost predicate Distinct<T>(es: seq<Entry<T>>) {
    forall i, j :: 0 <= i < j < |es| ==> es[i].name != es[j].name
  }

  /** `es` writes out `m`, in any order. */
  ghost predicate Lists<T>(es: seq<Entry<T>>, m: map<string, T>) {
    && Distinct(es)
    && (forall i :: 0 <= i < |es| ==> es[i].name in m && m[es[i].name] == es[i].value)
    && (forall name :: name in m ==> exists i :: 0 <= i < |es| && es[i].name == name)
  }

  /** Reading entries one by one into a map. */
  function LastWins<T>(es: seq<Entry<T>>): map<string, T> {
    if es == [] then map[] else
      var last := es[|es| - 1];
      LastWins(es[..|es| - 1])[last.name := last.value]
  }

  /** The position of the last entry of a name. */
  ghost predicate IsLast<T>(es: seq<Entry<T>>, name: string, i: int) {
    0 <= i < |es| && es[i].name == name && forall j :: i < j < |es| ==> es[j].name != name
  }

  lemma {:induction false} LastWinsKeepsLast<T>(es: seq<Entry<T>>, name: string)
    ensures name in LastWins(es) <==> exists i :: 0 <= i < |es| && es[i].name == name
    ensures name in LastWins(es) <==> exists i :: IsLast(es, name, i)
    ensures forall i :: IsLast(es, name, i) ==> LastWins(es)[name] == es[i].value
  {
    if es != [] {
      var n := |es| - 1;
      var init := es[..n];
      LastWinsKeepsLast(init, name);
      if es[n].name == name {
        assert IsLast(es, name, n);
      } else {
        forall i ensures IsLast(es, name, i) <==> IsLast(init, name, i) {
          assert 0 <= i < n ==> init[i] == es[i];
          if IsLast(init, name, i) {
            forall j | i < j < |es| ensures es[j].name != name {
              assert j < n ==> init[j] == es[j];
            }
          }
          if IsLast(es, name, i) {
            assert forall j :: i < j < n ==> init[j] == es[j];
          }
        }
        assert forall i :: 0 <= i < n ==> init[i] == es[i];
      }
    }
  }

  /** A list is a written-out form of a map exactly when its names are distinct and reading it gives the map. */
  lemma ListsIffDistinctAndRead<T>(es: seq<Entry<T>>, m: map<string, T>)
    ensures Lists(es, m) <==> Distinct(es) && LastWins(es) == m
  {
    forall name ensures name in LastWins(es) <==> exists i :: 0 <= i < |es| && es[i].name == name {
      LastWinsKeepsLast(es, name);
    }
    if Distinct(es) {
      forall i | 0 <= i < |es| ensures LastWins(es)[es[i].name] == es[i].value {
        LastWinsKeepsLast(es, es[i].name);
        assert IsLast(es, es[i].name, i);
      }
    }
    if Lists(es, m) {
      forall name | name in m ensures name in LastWins(es) && LastWins(es)[name] == m[name] {
        var i :| 0 <= i < |es| && es[i].name == name;
      }
      assert LastWins(es) == m;
    }
  }

  /** One of the three loops of Marshal: entries in whatever order the map is visited. */
  method WriteEntries<T>(m: map<string, T>) returns (es: seq<Entry<T>>)
    ensures Lists(es, m)
  {
    es := [];
    var left := m.Keys;
    while left != {}
      invariant left <= m.Keys
      invariant Distinct(es)
      invariant forall i :: 0 <= i < |es| ==> es[i].name in m && es[i].name !in left && m[es[i].name] == es[i].value
      invariant forall name :: name in m ==> name in left || exists i :: 0 <= i < |es| && es[i].name == name
      decreases left
    {
      var name :| name in left;
      left := left - {name};
      ghost var before := es;
      es := es + [Entry(name, m[name])];
      forall k | k in m && k !in left ensures exists i :: 0 <= i < |es| && es[i].name == k {
        if k == name {
          assert es[|es| - 1].name == k;
        } else {
          var i :| 0 <= i < |before| && before[i].name == k;
          assert es[i].name == k;
        }
      }
    }
  }

  /** One of the three loops of Unmarshal. */
  method ReadEntries<T>(es: seq<Entry<T>>) returns (m: map<string, T>)
    ensures m == LastWins(es)
  {
    m := map[];
    for i := 0 to |es|
      invariant m == LastWins(es[..i])
    {
      m := m[es[i].name := es[i].value];
      assert es[..i + 1][..i] == es[..i];
    }
    assert es[..|es|] == es;
  }

  // ----- whole documents

  /** `s` is one of the documents that Marshal may write for `c`. */
  ghost predicate Serializes(c: Config, s: SerializedConfig) {
    && s.apiVersion == "v1" && s.kind == "Config"
    && s.preferences == c.preferences && s.currentContext == c.currentContext
    && Lists(s.clusters, c.clusters) && Lists(s.contexts, c.contexts) && Lists(s.users, c.users)
  }

  /** What Unmarshal makes of a text. */
  function Parse(t: Text): Result<Config> {
    match t
    case Malformed(_) => Failure("malformed document")
    case Yaml(s) =>
      Success(Config("v1", "Config", s.preferences, s.currentContext,
                     LastWins(s.clusters), LastWins(s.contexts), LastWins(s.users)))
  }

  function Normalised(c: Config): Config {
    c.(apiVersion := "v1", kind := "Config")
  }

  method Marshal(c: Config) returns (t: Text)
    ensures t.Yaml? && Serializes(c, t.config)
  {
    var clusters := WriteEntries(c.clusters);
    var contexts := WriteEntries(c.contexts);
    var users := WriteEntries(c.users);
    t := Yaml(SerializedConfig("v1", "Config", c.preferences, c.currentContext, clusters, contexts, users));
  }

  method Unmarshal(t: Text) returns (r: Result<Config>)
    ensures r == Parse(t)
  {
    if t.Malformed? {
      return Failure("malformed document");
    }
    var s := t.config;
    var clusters := ReadEntries(s.clusters);
    var contexts := ReadEntries(s.contexts);
    var users := ReadEntries(s.users);
    r := Success(Config("v1", "Config", s.preferences, s.currentContext, clusters, contexts, users));
  }

  /** In each of the three lists a name is read if and only if it occurs, with the value of its last entry. */
  lemma ParseKeepsLast(s: SerializedConfig, name: string)
    ensures Parse(Yaml(s)).Success?
    ensures var c := Parse(Yaml(s)).value;
      && c.preferences == s.preferences && c.currentContext == s.currentContext
      && (name in c.clusters <==> exists i :: IsLast(s.clusters, name, i))
      && (name in c.contexts <==> exists i :: IsLast(s.contexts, name, i))
      && (name in c.users <==> exists i :: IsLast(s.users, name, i))
      && (forall i :: IsLast(s.clusters, name, i) ==> c.clusters[name] == s.clusters[i].value)
      && (forall i :: IsLast(s.contexts, name, i) ==> c.contexts[name] == s.contexts[i].value)
      && (forall i :: IsLast(s.users, name, i) ==> c.users[name] == s.users[i].value)
  {
    LastWinsKeepsLast(s.clusters, name);
    LastWinsKeepsLast(s.contexts, name);
    LastWinsKeepsLast(s.users, name);
  }

  function NewBareConfig(): Config {
    Config("v1", "Config", EmptyObject, "", map[], map[], map[])
  }

  /** Whatever order the loops of Marshal choose, reading back gives the configuration that was
      written; and a document with distinct names and the fixed header that reads as a configuration
      is one Marshal may write for it. */
  lemma RoundTrip(c: Config, s: SerializedConfig)
    ensures Serializes(c, s) ==> Parse(Yaml(s)) == Success(Normalised(c))
    ensures Parse(Yaml(s)) == Success(Normalised(c))
              && s.apiVersion == "v1" && s.kind == "Config"
              && Distinct(s.clusters) && Distinct(s.contexts) && Distinct(s.users)
            ==> Serializes(c, s)
  {
    ListsIffDistinctAndRead(s.clusters, c.clusters);
    ListsIffDistinctAndRead(s.contexts, c.contexts);
    ListsIffDistinctAndRead(s.users, c.users);
  }

  /** Reading is a normal form: writing out what was read, in any order, and reading again gives the
      same configuration, even when the first text repeated names. */
  lemma ReadWriteRead(t: Text, s: SerializedConfig)
    requires Parse(t).Success? && Serializes(Parse(t).value, s)
    ensures Parse(Yaml(s)) == Parse(t)
  {
    RoundTrip(Parse(t).value, s);
  }

  /** The writer promises nothing about order, so two writes of one configuration may differ, but only
      by a permutation of entries that the reader does not see. */
  lemma WritesAgree(c: Config, s: SerializedConfig, s': SerializedConfig)
    requires Serializes(c, s) && Serializes(c, s')
    ensures Parse(Yaml(s)) == Parse(Yaml(s'))
    ensures multiset(s.clusters) == multiset(s'.clusters)
    ensures multiset(s.contexts) == multiset(s'.contexts)
    ensures multiset(s.users) == multiset(s'.users)
  {
    RoundTrip(c, s);
    RoundTrip(c, s');
    ListingsArePermutations(s.clusters, s'.clusters, c.clusters);
    ListingsArePermutations(s.contexts, s'.contexts, c.contexts);
    ListingsArePermutations(s.users, s'.users, c.users);
  }

  lemma ListingsArePermutations<T>(es: seq<Entry<T>>, fs: seq<Entry<T>>, m: map<string, T>)
    requires Lists(es, m) && Lists(fs, m)
    ensures multiset(es) == multiset(fs)
  {
    forall e ensures multiset(es)[e] == multiset(fs)[e] {
      EntryOccursOnce(es, m, e);
      EntryOccursOnce(fs, m, e);
    }
  }

  lemma EntryOccursOnce<T>(es: seq<Entry<T>>, m: map<string, T>, e: Entry<T>)
    requires Lists(es, m)
    ensures multiset(es)[e] == if e.name in m && m[e.name] == e.value then 1 else 0
  {
    if e in es {
      var i :| 0 <= i < |es| && es[i] == e;
      assert es == es[..i] + [e] + es[i + 1..];
      assert e !in es[..i] && e !in es[i + 1..];
    }
    assert e.name in m && m[e.name] == e.value ==> e in es;
  }

  /** A map with one key has one written-out form. */
  lemma SingletonListing<T>(es: seq<Entry<T>>, name: string, value: T)
    requires Lists(es, map[name := value])
    ensures es == [Entry(name, value)]
  {
    assert name in map[name := value];
    assert forall j :: 0 <= j < |es| ==> es[j].name == name;
    assert es[|es| - 1].name == es[0].name;
  }

  // ----- using a document

  datatype Access = Access(server: string, namespace: string, authority: Data, certificate: Data, key: Data)

  /** What a client gets that follows current-context to a context, and from there to a cluster and a user. */
  function Resolve(c: Config): Option<Access> {
    if c.currentContext !in c.contexts then None else
      var context := c.contexts[c.currentContext];
      if context.cluster !in c.clusters || context.user !in c.users then None else
        var cluster, user := c.clusters[context.cluster], c.users[context.user];
        Some(Access(cluster.server, context.namespace, cluster.certificateAuthority,
                    user.clientCertificate, user.clientKey))
  }

  /** The server of the nameless cluster of the document in the cluster-info config map. */
  function ClusterEndpoint(clusterInfo: Option<map<string, Text>>): Result<string> {
    if clusterInfo.None? then
      Failure("config map not found")
    else if "kubeconfig" !in clusterInfo.value then
      Failure("no kubeconfig key in cluster-info config map")
    else
      var parsed := Parse(clusterInfo.value["kubeconfig"]);
      if parsed.Failure? then
        Failure(parsed.error)
      else if "" !in parsed.value.clusters then
        Failure("no cluster entry at default location")
      else
        Success(parsed.value.clusters[""].server)
  }

  /** There is an endpoint exactly when the config map exists, holds a document and the document has a
      nameless cluster entry; it is then the server of the last such entry. */
  lemma EndpointIsLastNameless(clusterInfo: Option<map<string, Text>>)
    ensures ClusterEndpoint(clusterInfo).Success? <==>
              && clusterInfo.Some? && "kubeconfig" in clusterInfo.value && clusterInfo.value["kubeconfig"].Yaml?
              && exists i :: IsLast(clusterInfo.value["kubeconfig"].config.clusters, "", i)
    ensures ClusterEndpoint(clusterInfo).Success? ==>
              var es := clusterInfo.value["kubeconfig"].config.clusters;
              forall i :: IsLast(es, "", i) ==> ClusterEndpoint(clusterInfo) == Success(es[i].value.server)
  {
    if clusterInfo.Some? && "kubeconfig" in clusterInfo.value && clusterInfo.value["kubeconfig"].Yaml? {
      LastWinsKeepsLast(clusterInfo.value["kubeconfig"].config.clusters, "");
    }
  }
}
