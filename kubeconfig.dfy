/**
 * Kubeconfig retrieval from a cluster secret (pkg/k8s/kubeconfig/kubeconfig.go).
 *
 * The Kubernetes API is reduced to a store of secrets keyed by namespace and
 * name. A stored secret's data is an Option so that a secret without a data
 * map (nil in Go) stays distinct from one with an empty map.
 */
module Kubeconfig {
  import opened Wrappers
  import opened KubeconfigErrors

  newtype byte = x: int | 0 <= x < 256

  type SecretData = map<string, seq<byte>>

  /** Secrets by (namespace, name); None is a secret whose Data is nil. */
  type SecretStore = map<(string, string), Option<SecretData>>

  /** The environment settings; only the outcome of Config.EnsureComplete matters here. */
  datatype Settings = Settings(ensureComplete: Option<Error>)

  /**
   * Options of the retrieval. `clientFactory` is what the client factory
   * yields for these settings: a client over a secret store, or an error.
   */
  datatype Options = Options(
    settings: Settings,
    clientFactory: Result<SecretStore, Error>,
    clusterName: string,
    namespace: string,
    output: string)

  const SecretNameSuffix: string := "-kubeconfig"
  const KubeconfigKey: string := "value"

  /** The name of the secret holding a cluster's kubeconfig. */
  function SecretName(clusterName: string): string
  {
    clusterName + SecretNameSuffix
  }

  /** Secrets(namespace).Get(name): the secret's data, or the API's not-found error. */
  function GetSecret(store: SecretStore, namespace: string, name: string)
    : (r: Result<Option<SecretData>, Error>)
    ensures r.Success? <==> (namespace, name) in store
    ensures r.Success? ==> r.value == store[(namespace, name)]
    ensures r.Failure? ==> r.error == SecretNotFound(name)
  {
    if (namespace, name) in store then Success(store[(namespace, name)])
    else Failure(SecretNotFound(name))
  }

  /** Does the secret hold a non-empty kubeconfig under "value"? */
  predicate HoldsKubeconfig(data: Option<SecretData>)
  {
    data.Some? && KubeconfigKey in data.value && |data.value[KubeconfigKey]| > 0
  }

  /**
   * GetKubeConfig: check the options, the configuration and the client, fetch
   * the cluster's secret, and return the bytes stored under "value". It
   * succeeds exactly when every check passes and the secret holds a non-empty
   * kubeconfig, and then returns those bytes.
   */
  function GetKubeConfig(o: Options): (r: Result<seq<byte>, Error>)
    ensures var key := (o.namespace, SecretName(o.clusterName));
      r.Success? <==>
        && o.namespace != "" && o.clusterName != ""
        && o.settings.ensureComplete.None?
        && o.clientFactory.Success?
        && key in o.clientFactory.value
        && HoldsKubeconfig(o.clientFactory.value[key])
    ensures r.Success? ==>
      && |r.value| > 0
      && r.value == o.clientFactory.value[(o.namespace, SecretName(o.clusterName))].value[KubeconfigKey]
  {
    if o.namespace == "" || o.clusterName == "" then Failure(ErrInvalidOptions)
    else if o.settings.ensureComplete.Some? then Failure(o.settings.ensureComplete.value)
    else if o.clientFactory.Failure? then Failure(o.clientFactory.error)
    else
      var name := SecretName(o.clusterName);
      match GetSecret(o.clientFactory.value, o.namespace, name)
      case Failure(err) => Failure(err)
      case Success(data) =>
        if data.None? then Failure(ErrNoSecretData(name))
        else if KubeconfigKey !in data.value || |data.value[KubeconfigKey]| == 0 then
          Failure(ErrNoKubeConfig(name))
        else Success(data.value[KubeconfigKey])
  }

  /** Missing options are reported before the configuration or the client is consulted. */
  lemma InvalidOptionsFirst(o: Options)
    requires o.namespace == "" || o.clusterName == ""
    ensures forall settings, factory ::
      GetKubeConfig(o.(settings := settings, clientFactory := factory)) == Failure(ErrInvalidOptions)
  {
  }

  /**
   * Errors of EnsureComplete, of the client factory and of the secret lookup
   * are returned unchanged, in that order.
   */
  lemma ForeignErrorsPropagate(o: Options)
    requires o.namespace != "" && o.clusterName != ""
    ensures o.settings.ensureComplete.Some? ==>
      GetKubeConfig(o) == Failure(o.settings.ensureComplete.value)
    ensures o.settings.ensureComplete.None? && o.clientFactory.Failure? ==>
      GetKubeConfig(o) == Failure(o.clientFactory.error)
    ensures o.settings.ensureComplete.None? && o.clientFactory.Success?
            && (o.namespace, SecretName(o.clusterName)) !in o.clientFactory.value ==>
      GetKubeConfig(o) == Failure(SecretNotFound(SecretName(o.clusterName)))
  {
  }

  /**
   * The retrieval reads one secret only: the one named after the cluster in
   * the options' namespace. Any store that agrees on that entry gives the same
   * answer.
   */
  lemma ReadsOnlyClusterSecret(o: Options, other: SecretStore)
    requires o.clientFactory.Success?
    requires var key := (o.namespace, SecretName(o.clusterName));
      (key in o.clientFactory.value <==> key in other)
      && (key in other ==> other[key] == o.clientFactory.value[key])
    ensures GetKubeConfig(o.(clientFactory := Success(other))) == GetKubeConfig(o)
  {
  }

  /**
   * How a found secret is classified: no data map gives ErrNoSecretData, a data
   * map without a non-empty "value" gives ErrNoKubeConfig, both naming the
   * secret. The last conjunct is a named instance of the second: an empty
   * but non-nil data map gives ErrNoKubeConfig, not ErrNoSecretData.
   */
  lemma SecretClassification(o: Options)
    requires o.namespace != "" && o.clusterName != ""
    requires o.settings.ensureComplete.None? && o.clientFactory.Success?
    requires (o.namespace, SecretName(o.clusterName)) in o.clientFactory.value
    ensures var data := o.clientFactory.value[(o.namespace, SecretName(o.clusterName))];
      && (data.None? ==> GetKubeConfig(o) == Failure(ErrNoSecretData(SecretName(o.clusterName))))
      && (data.Some? && !HoldsKubeconfig(data) ==>
            GetKubeConfig(o) == Failure(ErrNoKubeConfig(SecretName(o.clusterName))))
      && (data == Some(map[]) ==> GetKubeConfig(o) == Failure(ErrNoKubeConfig(SecretName(o.clusterName))))
  {
  }
}
