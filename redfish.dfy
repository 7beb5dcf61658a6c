/**
 * Redfish remote-direct boot (pkg/remote/redfish/redfish.go).
 *
 * Two halves: NewRedfishRemoteDirectClient validates its inputs and builds a
 * client value, and DoRemoteDirect drives a five-step, fail-fast sequence of
 * calls against the Redfish API. The API is an interface in the source; here it
 * is a recording double that answers each step from a fixed script and keeps
 * the trace of calls it received.
 */
module Redfish {
  import opened Wrappers

  /** Errors seen by the remote-direct code. */
  datatype Error =
    | ErrRedfishMissingConfig(what: string)   // a construction input is empty or malformed
    | ErrRedfishClient(message: string)       // a Redfish call failed; message names it
    | ApiError(message: string)               // any other error a helper returns

  // ---------------------------------------------------------------------------
  // Client construction
  // ---------------------------------------------------------------------------

  /** The result of url.Parse; its structure plays no part in this model. */
  type URL

  /** Basic-auth credentials stored in the request context. */
  datatype BasicAuth = BasicAuth(userName: string, password: string)

  /** The request context: the background context, possibly carrying credentials. */
  datatype Context = Background | WithBasicAuth(auth: BasicAuth)

  datatype TLSConfig = TLSConfig(insecureSkipVerify: bool)

  /** The proxy selector of an HTTP transport (Go's default reads the environment). */
  datatype Proxy = ProxyFromEnvironment | ProxyURL(url: string)

  /**
   * The parts of an HTTP transport this code touches, plus the timeouts and
   * keep-alive settings a clone carries over, by name.
   */
  datatype Transport = Transport(
    tlsClientConfig: Option<TLSConfig>,
    proxy: Option<Proxy>,
    tuning: map<string, nat>)

  /** Configuration the generated Redfish API client is built from. */
  datatype Configuration = Configuration(
    basePath: string,
    defaultHeader: map<string, string>,
    userAgent: string,
    transport: Transport)

  /** The remote-direct client (the RemoteDirect record). */
  datatype RemoteDirect = RemoteDirect(
    context: Context,
    remoteURL: URL,
    ephemeralNodeID: string,
    isoPath: string,
    api: Configuration,
    username: string,
    password: string)

  const UserAgent: string := "airshipctl/client"
  const MissingRemoteURL: string := "redfish remote url empty"
  const MissingNodeID: string := "redfish ephemeral node id empty"
  const MissingIsoPath: string := "redfish ephemeral node iso Path empty"
  const InvalidURLPrefix: string := "invalid url format: "

  /** Does the transport skip TLS certificate verification? */
  predicate SkipsVerification(t: Transport)
  {
    t.tlsClientConfig.Some? && t.tlsClientConfig.value.insecureSkipVerify
  }

  /**
   * The context the builder creates: credentials only when both the user name
   * and the password are given.
   */
  function NewContext(username: string, password: string): (ctx: Context)
    ensures ctx.WithBasicAuth? <==> username != "" && password != ""
    ensures ctx.WithBasicAuth? ==> ctx.auth == BasicAuth(username, password)
  {
    if username != "" && password != "" then WithBasicAuth(BasicAuth(username, password))
    else Background
  }

  /**
   * Customises a clone of the default transport. The clone is a fresh copy, so
   * assigning its fields is the functional update below.
   */
  function CustomizeTransport(defaults: Transport, insecure: bool, useProxy: bool): (t: Transport)
    ensures SkipsVerification(t) <==> insecure || SkipsVerification(defaults)
    ensures insecure ==> t.tlsClientConfig == Some(TLSConfig(true))
    ensures !insecure ==> t.tlsClientConfig == defaults.tlsClientConfig
    ensures t.proxy.None? <==> !useProxy || defaults.proxy.None?
    ensures useProxy ==> t.proxy == defaults.proxy
    ensures t.tuning == defaults.tuning
  {
    var withTLS := if insecure then defaults.(tlsClientConfig := Some(TLSConfig(true))) else defaults;
    if !useProxy then withTLS.(proxy := None) else withTLS
  }

  /**
   * Every reason construction can fail, in the order the builder checks them:
   * the three emptiness checks, then the URL parse.
   */
  function ConstructionProblems(
    remoteURL: string, ephNodeID: string, isoPath: string,
    parseURL: string -> Result<URL, string>): seq<Error>
  {
    (if remoteURL == "" then [ErrRedfishMissingConfig(MissingRemoteURL)] else [])
    + (if ephNodeID == "" then [ErrRedfishMissingConfig(MissingNodeID)] else [])
    + (if isoPath == "" then [ErrRedfishMissingConfig(MissingIsoPath)] else [])
    + (match parseURL(remoteURL)
       case Failure(msg) => [ErrRedfishMissingConfig(InvalidURLPrefix + msg)]
       case Success(_) => [])
  }

  /**
   * NewRedfishRemoteDirectClient. `defaultTransport` is the process-wide default
   * HTTP transport and `parseURL` is url.Parse, whose error text is passed along.
   * It fails with the first of ConstructionProblems, and otherwise returns a
   * client whose credentials live only in its context.
   */
  function NewRedfishRemoteDirectClient(
    remoteURL: string,
    ephNodeID: string,
    username: string,
    password: string,
    isoPath: string,
    insecure: bool,
    useProxy: bool,
    defaultTransport: Transport,
    parseURL: string -> Result<URL, string>): (r: Result<RemoteDirect, Error>)
    ensures var problems := ConstructionProblems(remoteURL, ephNodeID, isoPath, parseURL);
      && (r.Failure? <==> |problems| > 0)
      && (r.Failure? ==> r.error == problems[0])
    ensures r.Success? ==>
      && parseURL(remoteURL).Success?
      && r.value.remoteURL == parseURL(remoteURL).value
      && r.value.ephemeralNodeID == ephNodeID
      && r.value.isoPath == isoPath
      && r.value.username == ""
      && r.value.password == ""
    ensures r.Success? ==>
      && (r.value.context.WithBasicAuth? <==> username != "" && password != "")
      && (r.value.context.WithBasicAuth? ==> r.value.context.auth == BasicAuth(username, password))
    ensures r.Success? ==>
      && r.value.api.basePath == remoteURL
      && r.value.api.defaultHeader == map[]
      && r.value.api.userAgent == UserAgent
      && r.value.api.transport == CustomizeTransport(defaultTransport, insecure, useProxy)
  {
    if remoteURL == "" then
      Failure(ErrRedfishMissingConfig(MissingRemoteURL))
    else if ephNodeID == "" then
      Failure(ErrRedfishMissingConfig(MissingNodeID))
    else
      var ctx := NewContext(username, password);
      if isoPath == "" then
        Failure(ErrRedfishMissingConfig(MissingIsoPath))
      else
        var cfg := Configuration(remoteURL, map[], UserAgent,
                                 CustomizeTransport(defaultTransport, insecure, useProxy));
        match parseURL(remoteURL)
        case Failure(msg) =>
          Failure(ErrRedfishMissingConfig(InvalidURLPrefix + msg))
        case Success(parsed) =>
          Success(RemoteDirect(ctx, parsed, ephNodeID, isoPath, cfg, "", ""))
  }

  /** Construction never fails with anything but ErrRedfishMissingConfig, a bad URL included. */
  lemma ConstructionFailsOnlyWithMissingConfig(
    remoteURL: string, ephNodeID: string, username: string, password: string,
    isoPath: string, insecure: bool, useProxy: bool, defaultTransport: Transport,
    parseURL: string -> Result<URL, string>)
    ensures var r := NewRedfishRemoteDirectClient(remoteURL, ephNodeID, username, password,
                                                  isoPath, insecure, useProxy, defaultTransport, parseURL);
      r.Failure? ==> r.error.ErrRedfishMissingConfig?
  {
  }

  /** The URL is parsed only after all three fields are known to be non-empty. */
  lemma InvalidURLReportedLast(
    remoteURL: string, ephNodeID: string, username: string, password: string,
    isoPath: string, insecure: bool, useProxy: bool, defaultTransport: Transport,
    parseURL: string -> Result<URL, string>)
    requires parseURL(remoteURL).Failure?
    ensures var r := NewRedfishRemoteDirectClient(remoteURL, ephNodeID, username, password,
                                                  isoPath, insecure, useProxy, defaultTransport, parseURL);
      && r.Failure?
      && (r.error == ErrRedfishMissingConfig(InvalidURLPrefix + parseURL(remoteURL).error)
          <==> remoteURL != "" && ephNodeID != "" && isoPath != "")
  {
    var problems := ConstructionProblems(remoteURL, ephNodeID, isoPath, parseURL);
    var bad := ErrRedfishMissingConfig(InvalidURLPrefix + parseURL(remoteURL).error);
    if remoteURL == "" || ephNodeID == "" || isoPath == "" {
      // An emptiness message is reported; each starts with 'r', the URL message with 'i'.
      assert problems[0].what[0] == 'r';
      assert bad.what[0] == 'i';
    }
  }

  // ---------------------------------------------------------------------------
  // The remote-direct sequence
  // ---------------------------------------------------------------------------

  /** A link to another Redfish resource. */
  datatype IdRef = IdRef(odataId: string)

  /** The part of a ComputerSystem resource the sequence reads. */
  datatype ComputerSystem = ComputerSystem(id: string, managedBy: seq<IdRef>)

  /** The virtual-media slot chosen for a manager and its media type. */
  datatype VirtualMedia = VirtualMedia(id: string, mediaType: string)

  /**
   * What each step answers. The error of GetSystem is given by its text, which
   * is all the sequence uses of it.
   */
  datatype Script = Script(
    getSystem: Result<ComputerSystem, string>,
    getVirtualMediaID: Result<VirtualMedia, Error>,
    setVirtualMedia: Option<Error>,
    setBootSource: Option<Error>,
    rebootSystem: Option<Error>)

  /** One call on the Redfish API, with the arguments it was given. */
  datatype Call =
    | GetSystem(ctx: Context, systemID: string)
    | GetVirtualMediaID(ctx: Context, managerID: string)
    | SetVirtualMedia(ctx: Context, managerID: string, mediaID: string, isoPath: string)
    | SetSystemBootSourceForMediaType(ctx: Context, systemID: string, mediaType: string)
    | RebootSystem(ctx: Context, systemID: string)

  /** How DoRemoteDirect ends: nil, an error, or an index-out-of-range panic. */
  datatype Outcome = Done | Failed(err: Error) | Panicked

  /** The outcome of one run together with the calls it made, in order. */
  datatype Execution = Execution(outcome: Outcome, calls: seq<Call>)

  /** The position of a call in the sequence. */
  function StepOf(c: Call): (k: nat)
    ensures k < 5
  {
    match c
    case GetSystem(_, _) => 0
    case GetVirtualMediaID(_, _) => 1
    case SetVirtualMedia(_, _, _, _) => 2
    case SetSystemBootSourceForMediaType(_, _, _) => 3
    case RebootSystem(_, _) => 4
  }

  /**
   * Does step k fail under the script? Step 0 also fails when the system has
   * no manager link, since the sequence then indexes an empty list.
   */
  predicate StepFails(s: Script, k: nat)
  {
    if k == 0 then s.getSystem.Failure? || |s.getSystem.value.managedBy| == 0
    else if k == 1 then s.getVirtualMediaID.Failure?
    else if k == 2 then s.setVirtualMedia.Some?
    else if k == 3 then s.setBootSource.Some?
    else s.rebootSystem.Some?
  }

  /** The message that wraps a GetSystem failure. */
  function GetSystemFailure(systemID: string, cause: string): string
  {
    "Get System[" + systemID + "] failed with err: " + cause
  }

  /**
   * The reference run: what DoRemoteDirect returns and which calls it makes.
   * `resourceID` is GetResourceIDFromURL, whose body is not part of this model.
   */
  function Run(cfg: RemoteDirect, s: Script, resourceID: string -> string): Execution
  {
    var systemID := cfg.ephemeralNodeID;
    var ctx := cfg.context;
    var upToSystem := [GetSystem(ctx, systemID)];
    match s.getSystem
    case Failure(cause) =>
      Execution(Failed(ErrRedfishClient(GetSystemFailure(systemID, cause))), upToSystem)
    case Success(system) =>
      if |system.managedBy| == 0 then Execution(Panicked, upToSystem)
      else
        var managerID := resourceID(system.managedBy[0].odataId);
        var upToMedia := upToSystem + [GetVirtualMediaID(ctx, managerID)];
        match s.getVirtualMediaID
        case Failure(err) => Execution(Failed(err), upToMedia)
        case Success(media) =>
          var upToInsert := upToMedia + [SetVirtualMedia(ctx, managerID, media.id, cfg.isoPath)];
          if s.setVirtualMedia.Some? then Execution(Failed(s.setVirtualMedia.value), upToInsert)
          else
            var upToBoot := upToInsert + [SetSystemBootSourceForMediaType(ctx, systemID, media.mediaType)];
            if s.setBootSource.Some? then Execution(Failed(s.setBootSource.value), upToBoot)
            else
              var upToReboot := upToBoot + [RebootSystem(ctx, systemID)];
              if s.rebootSystem.Some? then Execution(Failed(s.rebootSystem.value), upToReboot)
              else Execution(Done, upToReboot)
  }

  /** Calls are made in the fixed order GetSystem, media ID, insert, boot source, reboot. */
  lemma RunCallOrder(cfg: RemoteDirect, s: Script, resourceID: string -> string)
    ensures var e := Run(cfg, s, resourceID);
      && 1 <= |e.calls| <= 5
      && forall i :: 0 <= i < |e.calls| ==> StepOf(e.calls[i]) == i
  {
  }

  /**
   * Fail-fast: every step before the last one made succeeded, the run stops at
   * the first step that fails, and it returns Done exactly when none fails.
   */
  lemma RunFailFast(cfg: RemoteDirect, s: Script, resourceID: string -> string)
    ensures var e := Run(cfg, s, resourceID);
      && (forall k :: 0 <= k < |e.calls| - 1 ==> !StepFails(s, k))
      && (e.outcome != Done <==> StepFails(s, |e.calls| - 1))
      && (e.outcome == Done <==> forall k :: 0 <= k < 5 ==> !StepFails(s, k))
      && (e.outcome == Done ==> |e.calls| == 5)
  {
  }

  /**
   * The error returned: a GetSystem failure wrapped in ErrRedfishClient naming
   * the system, any later failure unchanged, and a panic only for a system
   * without manager links.
   */
  lemma RunErrors(cfg: RemoteDirect, s: Script, resourceID: string -> string)
    ensures var e := Run(cfg, s, resourceID);
      && (e.outcome.Panicked? <==> s.getSystem.Success? && |s.getSystem.value.managedBy| == 0)
      && (s.getSystem.Failure? ==>
            e.outcome == Failed(ErrRedfishClient(GetSystemFailure(cfg.ephemeralNodeID, s.getSystem.error))))
      && (e.outcome.Failed? && |e.calls| == 2 ==> e.outcome.err == s.getVirtualMediaID.error)
      && (e.outcome.Failed? && |e.calls| == 3 ==> s.setVirtualMedia == Some(e.outcome.err))
      && (e.outcome.Failed? && |e.calls| == 4 ==> s.setBootSource == Some(e.outcome.err))
      && (e.outcome.Failed? && |e.calls| == 5 ==> s.rebootSystem == Some(e.outcome.err))
  {
  }

  /**
   * Which values reach which call: the context goes to every call, the node ID
   * is the system ID, the first manager link gives the manager ID of both media
   * calls, the ISO path goes to the insert and the media type to the boot source.
   */
  lemma RunDataFlow(cfg: RemoteDirect, s: Script, resourceID: string -> string)
    ensures var e := Run(cfg, s, resourceID);
      && (forall i :: 0 <= i < |e.calls| ==> e.calls[i].ctx == cfg.context)
      && e.calls[0] == GetSystem(cfg.context, cfg.ephemeralNodeID)
      && (|e.calls| >= 2 ==>
            && s.getSystem.Success? && |s.getSystem.value.managedBy| > 0
            && e.calls[1] == GetVirtualMediaID(cfg.context, resourceID(s.getSystem.value.managedBy[0].odataId)))
      && (|e.calls| >= 3 ==>
            && s.getVirtualMediaID.Success?
            && e.calls[2] == SetVirtualMedia(cfg.context, e.calls[1].managerID,
                                             s.getVirtualMediaID.value.id, cfg.isoPath))
      && (|e.calls| >= 4 ==>
            e.calls[3] == SetSystemBootSourceForMediaType(cfg.context, cfg.ephemeralNodeID,
                                                          s.getVirtualMediaID.value.mediaType))
      && (|e.calls| == 5 ==> e.calls[4] == RebootSystem(cfg.context, cfg.ephemeralNodeID))
  {
  }

  /** A Redfish API double: answers from its script and records every call. */
  class RecordingRedfishAPI {
    const script: Script
    var calls: seq<Call>

    constructor (script: Script)
      ensures this.script == script && calls == []
    {
      this.script := script;
      calls := [];
    }

    method GetSystem(ctx: Context, systemID: string) returns (r: Result<ComputerSystem, string>)
      modifies this
      ensures calls == old(calls) + [Call.GetSystem(ctx, systemID)]
      ensures r == script.getSystem
    {
      calls := calls + [Call.GetSystem(ctx, systemID)];
      r := script.getSystem;
    }

    method GetVirtualMediaID(ctx: Context, managerID: string) returns (r: Result<VirtualMedia, Error>)
      modifies this
      ensures calls == old(calls) + [Call.GetVirtualMediaID(ctx, managerID)]
      ensures r == script.getVirtualMediaID
    {
      calls := calls + [Call.GetVirtualMediaID(ctx, managerID)];
      r := script.getVirtualMediaID;
    }

    method SetVirtualMedia(ctx: Context, managerID: string, mediaID: string, isoPath: string)
      returns (err: Option<Error>)
      modifies this
      ensures calls == old(calls) + [Call.SetVirtualMedia(ctx, managerID, mediaID, isoPath)]
      ensures err == script.setVirtualMedia
    {
      calls := calls + [Call.SetVirtualMedia(ctx, managerID, mediaID, isoPath)];
      err := script.setVirtualMedia;
    }

    method SetSystemBootSourceForMediaType(ctx: Context, systemID: string, mediaType: string)
      returns (err: Option<Error>)
      modifies this
      ensures calls == old(calls) + [Call.SetSystemBootSourceForMediaType(ctx, systemID, mediaType)]
      ensures err == script.setBootSource
    {
      calls := calls + [Call.SetSystemBootSourceForMediaType(ctx, systemID, mediaType)];
      err := script.setBootSource;
    }

    method RebootSystem(ctx: Context, systemID: string) returns (err: Option<Error>)
      modifies this
      ensures calls == old(calls) + [Call.RebootSystem(ctx, systemID)]
      ensures err == script.rebootSystem
    {
      calls := calls + [Call.RebootSystem(ctx, systemID)];
      err := script.rebootSystem;
    }
  }

  /**
   * DoRemoteDirect: get the system, find the manager's virtual media, insert
   * the ISO, set the boot source, reboot; return at the first failure. The
   * calls it makes are appended to the double's trace, so a second run makes a
   * second, independent set of calls.
   */
  method DoRemoteDirect(cfg: RemoteDirect, api: RecordingRedfishAPI, resourceID: string -> string)
    returns (outcome: Outcome)
    modifies api
    ensures outcome == Run(cfg, api.script, resourceID).outcome
    ensures api.calls == old(api.calls) + Run(cfg, api.script, resourceID).calls
  {
    var systemID := cfg.ephemeralNodeID;
    var system := api.GetSystem(cfg.context, systemID);
    if system.Failure? {
      return Failed(ErrRedfishClient(GetSystemFailure(systemID, system.error)));
    }

    if |system.value.managedBy| == 0 {
      return Panicked;
    }
    var managerID := resourceID(system.value.managedBy[0].odataId);

    var media := api.GetVirtualMediaID(cfg.context, managerID);
    if media.Failure? {
      return Failed(media.error);
    }

    var err := api.SetVirtualMedia(cfg.context, managerID, media.value.id, cfg.isoPath);
    if err.Some? {
      return Failed(err.value);
    }

    err := api.SetSystemBootSourceForMediaType(cfg.context, systemID, media.value.mediaType);
    if err.Some? {
      return Failed(err.value);
    }

    err := api.RebootSystem(cfg.context, systemID);
    if err.Some? {
      return Failed(err.value);
    }
    return Done;
  }
}
