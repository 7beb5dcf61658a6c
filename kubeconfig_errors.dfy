/**
 * Errors of kubeconfig retrieval (pkg/k8s/kubeconfig/errors.go) and the text
 * each renders as. Errors raised by other packages are carried through
 * GetKubeConfig unchanged, so they are part of the same datatype.
 */
module KubeconfigErrors {
  import opened Wrappers

  datatype Error =
    | ErrInvalidOptions                // cluster name or namespace not set
    | ErrNoSecretData(s: string)       // the secret has no data map at all
    | ErrNoKubeConfig(s: string)       // the data map has no non-empty "value"
    | SecretNotFound(name: string)     // the secrets API's not-found error
    | Foreign(message: string)         // any other error from another package

  const InvalidOptionsMessage: string := "Options are invalid, ClusterName and Namespace must be set"
  const NoSecretDataPrefix: string := "No data in secret object "
  const NoKubeConfigPrefix: string := "No kubeconfig in secret object "

  /** Is this one of the three errors the kubeconfig package defines itself? */
  predicate IsKubeconfigError(e: Error)
  {
    e.ErrInvalidOptions? || e.ErrNoSecretData? || e.ErrNoKubeConfig?
  }

  /** The Error() text of each error. */
  function ErrorMessage(e: Error): string
  {
    match e
    case ErrInvalidOptions => InvalidOptionsMessage
    case ErrNoSecretData(s) => NoSecretDataPrefix + s
    case ErrNoKubeConfig(s) => NoKubeConfigPrefix + s
    case SecretNotFound(name) => "secrets \"" + name + "\" not found"
    case Foreign(message) => message
  }

  /**
   * Reads back which of the package's own errors a message was rendered from:
   * the fixed message, or one of the two prefixes followed by the secret name.
   */
  function ParseMessage(m: string): Option<Error>
  {
    if m == InvalidOptionsMessage then Some(ErrInvalidOptions)
    else if |NoSecretDataPrefix| <= |m| && m[..|NoSecretDataPrefix|] == NoSecretDataPrefix then
      Some(ErrNoSecretData(m[|NoSecretDataPrefix|..]))
    else if |NoKubeConfigPrefix| <= |m| && m[..|NoKubeConfigPrefix|] == NoKubeConfigPrefix then
      Some(ErrNoKubeConfig(m[|NoKubeConfigPrefix|..]))
    else None
  }

  /** The package's own messages determine the error they came from, secret name included. */
  lemma ParseMessageRoundTrip(e: Error)
    requires IsKubeconfigError(e)
    ensures ParseMessage(ErrorMessage(e)) == Some(e)
  {
    var m := ErrorMessage(e);
    match e
    case ErrInvalidOptions =>
    case ErrNoSecretData(s) =>
      InvalidOptionsMessageStart();
      assert m[0] == 'N';
      assert m[..|NoSecretDataPrefix|] == NoSecretDataPrefix;
      assert m[|NoSecretDataPrefix|..] == s;
    case ErrNoKubeConfig(s) =>
      InvalidOptionsMessageStart();
      assert m[0] == 'N';
      // "No kubeconfig ..." differs from "No data ..." at position 3.
      assert m[3] == 'k' && NoSecretDataPrefix[3] == 'd';
      assert m[..|NoSecretDataPrefix|][3] == m[3];
      assert m[..|NoKubeConfigPrefix|] == NoKubeConfigPrefix;
      assert m[|NoKubeConfigPrefix|..] == s;
  }

  /** The fixed message starts with 'O', unlike the two secret messages. */
  lemma InvalidOptionsMessageStart()
    ensures InvalidOptionsMessage[0] == 'O'
  {
    assert InvalidOptionsMessage == "Options are invalid, " + "ClusterName and Namespace must be set";
  }

  /** Each message is injective in the secret name. */
  lemma MessagesInjective(a: string, b: string)
    ensures ErrorMessage(ErrNoSecretData(a)) == ErrorMessage(ErrNoSecretData(b)) ==> a == b
    ensures ErrorMessage(ErrNoKubeConfig(a)) == ErrorMessage(ErrNoKubeConfig(b)) ==> a == b
  {
    ParseMessageRoundTrip(ErrNoSecretData(a));
    ParseMessageRoundTrip(ErrNoSecretData(b));
    ParseMessageRoundTrip(ErrNoKubeConfig(a));
    ParseMessageRoundTrip(ErrNoKubeConfig(b));
  }

  /** The two secret messages never coincide, whatever the names, and differ from the fixed one. */
  lemma MessagesDistinct(a: string, b: string)
    ensures ErrorMessage(ErrNoSecretData(a)) != ErrorMessage(ErrNoKubeConfig(b))
    ensures ErrorMessage(ErrNoSecretData(a)) != ErrorMessage(ErrInvalidOptions)
    ensures ErrorMessage(ErrNoKubeConfig(b)) != ErrorMessage(ErrInvalidOptions)
  {
    ParseMessageRoundTrip(ErrNoSecretData(a));
    ParseMessageRoundTrip(ErrNoKubeConfig(b));
    ParseMessageRoundTrip(ErrInvalidOptions);
  }
}
