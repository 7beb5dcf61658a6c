# airshipctl remote-direct boot, kubeconfig retrieval and IPv6 filter — a Dafny model

This project models four small parts of airshipctl and proves what they promise.

- **Redfish remote-direct boot** (`redfish.dfy`, module `Redfish`).
  `NewRedfishRemoteDirectClient` checks its inputs in a fixed order:
  1. the remote URL must be non-empty;
  2. the ephemeral node ID must be non-empty;
  3. the ISO path must be non-empty;
  4. the URL must parse.

  It then builds a client value. That value holds a request context, which carries basic-auth credentials only when both user name and password are given. It also holds the configuration of the Redfish API client. Its transport is a clone of the default transport, with TLS verification and the proxy toggled.

  `DoRemoteDirect` runs five steps against the Redfish API and stops at the first failure: get the system, find the manager's virtual media, insert the ISO, set the boot source, reboot.

  The API is modelled by `RecordingRedfishAPI`, a test double. It answers each step from a script and records every call in a trace. `Run` is the reference definition of one run: its outcome and the calls it makes. `DoRemoteDirect` is proved to match `Run`. The lemmas about `Run` give the call order, fail-fast behaviour, the errors returned and which values reach which call.

  The source reads `ManagedBy[0]` without a bounds check. A system with no manager link therefore panics, and the model gives that case its own outcome, `Panicked`.
- **Kubeconfig retrieval** (`kubeconfig.dfy`, module `Kubeconfig`). `GetKubeConfig` checks the options, then the configuration, then the client factory. It then fetches the secret `<cluster>-kubeconfig` from the options' namespace and sorts what it finds into one of three results:
  - the secret has no data map;
  - it has no non-empty `"value"` entry;
  - success, with those bytes.

  The cluster is a secret store keyed by namespace and name. A nil data map is `None`, which keeps it distinct from an empty map.
- **Kubeconfig errors** (`kubeconfig_errors.dfy`, module `KubeconfigErrors`). These are the package's three errors and their messages. `ParseMessage` reads a message back into its error. The round-trip lemma proves each message determines its error, secret name included.
- **IPv6 bracket filter** (`custom_filters.dfy`, module `CustomFilters`). The Ansible filter `ipv6wrap` puts IPv6 addresses in square brackets and leaves IPv4 addresses alone. It does this for one value or for each element of a list, tuple or generator. Address parsing is a parameter. It gives the address version, or `None` where Python's `ipaddress` would raise.

A URL that `url.Parse` rejects is reported as `ErrRedfishMissingConfig` with the text `invalid url format: …`, and only after the three emptiness checks pass. Slot selection, eject-before-insert and any media-compatibility error happen inside helpers that are not modelled. Whatever those helpers return is passed through unchanged.

`wrappers.dfy` holds the shared `Option` and `Result` types.

## Model

| member | source | states |
|---|---|---|
| `Redfish.NewContext` | pkg/remote/redfish/redfish.go:110-119 | the context carries basic-auth credentials iff both user name and password are non-empty, and then exactly those two |
| `Redfish.CustomizeTransport` | pkg/remote/redfish/redfish.go:138-148 | only `insecure` turns certificate checks off, only `useproxy = false` clears the proxy, and everything else in the cloned defaults is kept |
| `Redfish.NewRedfishRemoteDirectClient` | pkg/remote/redfish/redfish.go:87-173 | fails exactly when a check fails, reporting the first failing check in order (URL, node ID, ISO path, URL parse); on success the client has the parsed URL, the given node ID and ISO path, empty user name and password fields, credentials in the context only, and an API configuration with the URL as base path, no default headers, the fixed user agent and the customised transport |
| `Redfish.ConstructionFailsOnlyWithMissingConfig` | pkg/remote/redfish/redfish.go:96-162 | every construction failure, an unparsable URL included, is an `ErrRedfishMissingConfig` |
| `Redfish.InvalidURLReportedLast` | pkg/remote/redfish/redfish.go:156-162 | an unparsable URL is reported iff URL, node ID and ISO path are all non-empty; otherwise the earlier emptiness error wins |
| `Redfish.RecordingRedfishAPI.GetSystem` | pkg/remote/redfish/redfish.go:46 | the GetSystem call is recorded with its context and system ID, and the scripted answer is returned |
| `Redfish.RecordingRedfishAPI.GetVirtualMediaID` | pkg/remote/redfish/redfish.go:57 | the media lookup is recorded with its context and manager ID, and the scripted media ID and type are returned |
| `Redfish.RecordingRedfishAPI.SetVirtualMedia` | pkg/remote/redfish/redfish.go:64 | the insert is recorded with its context, manager ID, media ID and ISO path, and the scripted error is returned |
| `Redfish.RecordingRedfishAPI.SetSystemBootSourceForMediaType` | pkg/remote/redfish/redfish.go:71 | the boot-source call is recorded with its context, system ID and media type, and the scripted error is returned |
| `Redfish.RecordingRedfishAPI.RebootSystem` | pkg/remote/redfish/redfish.go:77 | the reboot is recorded with its context and system ID, and the scripted error is returned |
| `Redfish.DoRemoteDirect` | pkg/remote/redfish/redfish.go:41-84 | returns the reference run's outcome and appends exactly the reference run's calls to the API's trace, so two runs make two independent sets of calls |
| `Redfish.RunCallOrder` | pkg/remote/redfish/redfish.go:41-84 | a run makes one to five calls, and call i is always step i of GetSystem, GetVirtualMediaID, SetVirtualMedia, SetSystemBootSourceForMediaType, RebootSystem |
| `Redfish.RunFailFast` | pkg/remote/redfish/redfish.go:46-80 | every step before the last call succeeded, the last call is a failing step iff the run did not succeed, and the run returns nil iff all five steps succeed (then with five calls) |
| `Redfish.RunErrors` | pkg/remote/redfish/redfish.go:46-80 | a GetSystem failure is wrapped in `ErrRedfishClient` with a message naming the system ID and the cause; later failures are returned unchanged; a panic happens iff the fetched system has no manager link |
| `Redfish.RunDataFlow` | pkg/remote/redfish/redfish.go:45-77 | every call gets the client's context; the node ID is the system ID of GetSystem, the boot source and the reboot; the first manager link gives the manager ID of both media calls; the ISO path goes to the insert and the returned media type to the boot source |
| `KubeconfigErrors.ParseMessageRoundTrip` | pkg/k8s/kubeconfig/errors.go:25-45 | each of the package's three errors can be read back from its message: the fixed invalid-options text, or a prefix followed by the secret name |
| `KubeconfigErrors.MessagesInjective` | pkg/k8s/kubeconfig/errors.go:34-45 | the no-data and no-kubeconfig messages are each injective in the secret name |
| `KubeconfigErrors.MessagesDistinct` | pkg/k8s/kubeconfig/errors.go:25-45 | the no-data message never equals the no-kubeconfig message for any two names, and neither equals the invalid-options message |
| `Kubeconfig.GetSecret` | pkg/k8s/kubeconfig/kubeconfig.go:50-54 | the lookup succeeds iff the store has the secret under that namespace and name, and then returns its data; otherwise it gives the not-found error for that name |
| `Kubeconfig.GetKubeConfig` | pkg/k8s/kubeconfig/kubeconfig.go:35-66 | succeeds iff both options are set, the configuration is complete, the client is built and the cluster's secret holds a non-empty `"value"`; the result is then exactly those bytes |
| `Kubeconfig.InvalidOptionsFirst` | pkg/k8s/kubeconfig/kubeconfig.go:36-38 | an empty namespace or cluster name gives `ErrInvalidOptions`, whatever the configuration and the client factory would do |
| `Kubeconfig.ForeignErrorsPropagate` | pkg/k8s/kubeconfig/kubeconfig.go:40-54 | errors of EnsureComplete, of the client factory and of the secret lookup are returned unchanged, in that order |
| `Kubeconfig.ReadsOnlyClusterSecret` | pkg/k8s/kubeconfig/kubeconfig.go:51 | only the secret named `<cluster>-kubeconfig` in the options' namespace is consulted: any store agreeing on that entry gives the same result |
| `Kubeconfig.SecretClassification` | pkg/k8s/kubeconfig/kubeconfig.go:56-63 | a found secret without a data map gives `ErrNoSecretData`, and one whose data lacks a non-empty `"value"` (an empty map included) gives `ErrNoKubeConfig`; both name the secret |
| `CustomFilters.IsIpv6Classifies` | playbooks/filter_plugins/custom_filters.py:17-18 | is_ipv6 is true exactly for version-6 addresses, false for version-4 ones, and raises for text that is not an address |
| `CustomFilters.WrapShape` | playbooks/filter_plugins/custom_filters.py:21-22 | an IPv6 address comes back as `[` + address + `]`, two characters longer; an IPv4 address comes back unchanged; non-addresses raise |
| `CustomFilters.WrapEach` | playbooks/filter_plugins/custom_filters.py:27 | the comprehension succeeds iff every element is an address, and then has the same length with element i equal to wrap of element i; otherwise it raises for the first element that is not an address |
| `CustomFilters.Ipv6WrapItems` | playbooks/filter_plugins/custom_filters.py:25-27 | on a list, tuple or generator the filter returns a list of the same length, in order, whose element i is wrap of element i; otherwise it raises the error of the first element that is not an address |
| `CustomFilters.Ipv6WrapScalar` | playbooks/filter_plugins/custom_filters.py:28-29 | on a single value the filter gives what wrap gives |
| `CustomFilters.Filters` | playbooks/filter_plugins/custom_filters.py:34-35 | the plugin registers exactly one filter, `ipv6wrap`, and it is ipv6_wrap |

## Left out

- HTTP transport, TLS, proxies and `context.Context`: these are reduced to the transport fields the builder sets, plus an optional credential pair. No network behaviour, cancellation or timeout is modelled.
- The generated go-redfish client: `NewAPIClient` is represented by the configuration it is built from. `DoRemoteDirect` runs against the recording double rather than the client the builder makes.
- `GetResourceIDFromURL`: its code is not part of this model, so it is a function parameter of `DoRemoteDirect`.
- `GetVirtualMediaID`, `SetVirtualMedia`, `SetSystemBootSourceForMediaType` and `RebootSystem`: their code is not part of this model. Each is one scripted step of the double. Slot selection, eject-before-insert and the Redfish calls inside them are not modelled.
- The redfish package's error types are not part of this model. `ErrRedfishMissingConfig` and `ErrRedfishClient` are constructors that carry their text; their `Error()` rendering is not modelled.
- `url.Parse`: it is a parameter returning an opaque URL or the text of its error.
- `alog` debug logging: it has no effect on results, so it is not modelled.
- `EnsureComplete`, the client factory and the Kubernetes clientset are represented by their outcomes: an optional error, and a secret store or an error. A missing secret gives the API's not-found error. Any other API failure is not modelled.
- `Kubeconfig.GetKubeConfig` uses the requested secret name where the source uses `s.Name`. The API returns the secret under the name it was asked for, so the two agree.
- The `Output` option is carried but not used, as in the source.
- `CustomFilters.IsIpv6Classifies`: arguments are strings only. Python's `ipaddress.ip_address` also accepts integers, and those are not modelled.
- Python's `ipaddress` parsing is an abstract parser. Consuming a generator has no effect beyond reading its elements.
- The CLI commands that call these functions, and the `apply` phase, are not modelled. They only wire flags and print output.
