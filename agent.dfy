/**
 * One simulated provisioning agent: its identity, the paths derived from it, the
 * nine step handlers and one iteration of the engine that drives them.
 *
 * The collaborators are inputs: the resource cache is a pair of maps from keys to
 * the shared resource objects, and the status write, the image download, the
 * container-configuration step and the agent process are given by their results.
 */
module Agent {
  import opened Wrappers
  import opened Text
  import opened Json
  import opened Uuid
  import opened Pipeline
  import opened Resources

  /** A filesystem path as its components; an absolute path starts with an empty component. */
  type Path = seq<string>

  /** `p / name` */
  function Child(p: Path, name: string): Path
  {
    p + [name]
  }

  /** `str(p)` */
  function Render(p: Path): string
  {
    Join(p, '/')
  }

  /** Settings shared by every agent of the swarm (executor, logger and cache are not values here). */
  datatype SwarmAgentConfig = SwarmAgentConfig(
    agentBinary: Path,
    agentImagePath: string,
    caCertPath: Path,
    token: string,
    sshPubKey: string,
    pullSecret: string,
    serviceUrl: string,
    sharedStorage: Path,
    sharedGraphroot: Path,
    k8sApiServerUrl: string,
    numLocks: int)

  /** The identity of one agent inside its cluster. */
  datatype ClusterAgentConfig = ClusterAgentConfig(
    index: int,
    macAddress: string,
    identifier: string,
    machineHostname: string,
    machineIp: string,
    clusterIdentifier: string,
    clusterDir: Path,
    clusterHostnames: seq<string>,
    clusterIps: seq<string>)

  /** The exceptions a handler can raise. */
  datatype Failure =
    | NotAMapping           // `.get` on a looked-up value that is not a dict
    | NotAString            // the URL handed to the id search is not a string
    | NoInfraEnvId          // no UUID in the URL
    | Unset(attribute: string)  // an attribute read before any step assigned it
    | StatusWriteFailed     // the status PUT failed or answered with an error status
    | DownloadFailed(code: int) // the image download exited non-zero

  /** What a handler call ends with: the step name it returns, or an exception. */
  datatype Outcome = Returned(step: Step) | Raised(failure: Failure)

  /** The process the agent step starts: its argument vector and its added environment. */
  datatype Launch = Launch(command: seq<string>, environment: map<string, string>)

  /** The answers of the collaborators during one engine iteration. */
  datatype World = World(
    infraEnvs: map<Key, Resource>,
    bareMetalHosts: map<Key, Resource>,
    statusWriteOk: bool,
    downloadExitCode: int,
    containerConfigsDone: bool,
    containerConfig: Path,
    containerStorageConf: Path,
    agentExitCode: int)

  /** `cluster_dir / f"agent-{index}"` */
  function AgentDir(clusterDir: Path, index: int): Path
  {
    Child(clusterDir, "agent-" + IntToDecimal(index))
  }

  /**
   * Agents of one cluster with different indices get different directories, and
   * nothing placed directly in one agent's directory is placed in another's.
   */
  lemma AgentDirsDisjoint(clusterDir: Path, i: int, j: int, a: string, b: string)
    requires i != j
    ensures AgentDir(clusterDir, i) != AgentDir(clusterDir, j)
    ensures Child(AgentDir(clusterDir, i), a) != Child(AgentDir(clusterDir, j), b)
  {
    var di, dj := AgentDir(clusterDir, i), AgentDir(clusterDir, j);
    if Child(di, a) == Child(dj, b) {
      assert di == Child(di, a)[..|di|] == Child(dj, b)[..|dj|] == dj;
    }
    if di == dj {
      assert di[|clusterDir|] == dj[|clusterDir|];
      assert ("agent-" + IntToDecimal(i))[6..] == IntToDecimal(i);
      assert ("agent-" + IntToDecimal(j))[6..] == IntToDecimal(j);
      IntToDecimalInjective(i, j);
    }
  }

  /** `get_infraenv_id_from_url` applied to a stored value, with its failures. */
  function IdFromUrl(url: Json): (r: Result<string, Failure>)
    ensures r.Ok? <==> url.Str? && InfraEnvIdFromUrl(url.s).Some?
    ensures r.Ok? ==> r.value == InfraEnvIdFromUrl(url.s).value && UuidShaped(r.value)
    ensures r.Err? ==> r.error == (if url.Str? then NoInfraEnvId else NotAString)
  {
    match url
    case Str(s) =>
      (match InfraEnvIdFromUrl(s)
       case Some(id) => Ok(id)
       case None => Err(NoInfraEnvId))
    case _ => Err(NotAString)
  }

  /** Each cluster address cut before its first `/` (its prefix length), in order. */
  function StripPrefixLengths(ips: seq<string>): (r: seq<string>)
    ensures |r| == |ips|
  {
    seq(|ips|, i requires 0 <= i < |ips| => BeforeFirst(ips[i], '/'))
  }

  /** The environment the agent binary is started with, on top of the inherited one. */
  function AgentEnvironment(
    swarm: SwarmAgentConfig, cluster: ClusterAgentConfig, hostId: string,
    fakeRebootMarkerPath: Path, containerConfig: Path, containerStorageConf: Path): map<string, string>
  {
    map[
      "CONTAINERS_CONF" := Render(containerConfig),
      "CONTAINERS_STORAGE_CONF" := Render(containerStorageConf),
      "PULL_SECRET_TOKEN" := swarm.pullSecret,
      "DRY_ENABLE" := "true",
      "DRY_HOST_ID" := hostId,
      "DRY_FORCED_MAC_ADDRESS" := cluster.macAddress,
      "DRY_FAKE_REBOOT_MARKER_PATH" := Render(fakeRebootMarkerPath),
      "DRY_FORCED_HOSTNAME" := cluster.machineHostname,
      "DRY_HOSTNAMES" := Join(cluster.clusterHostnames, ','),
      "DRY_IPS" := Join(StripPrefixLengths(cluster.clusterIps), ','),
      "DRY_FORCED_HOST_IPV4" := cluster.machineIp
    ]
  }

  /**
   * The peer lists in the environment can be read back: splitting `DRY_HOSTNAMES` at
   * commas gives the cluster's hostnames, and splitting `DRY_IPS` gives, for each
   * cluster address in order, its longest prefix without `/` (the whole address when
   * it has none, otherwise everything before its first `/`). This needs at least one
   * peer and no comma inside any hostname or address.
   */
  lemma EnvironmentPeerListsReadBack(
    swarm: SwarmAgentConfig, cluster: ClusterAgentConfig, hostId: string,
    marker: Path, containerConfig: Path, containerStorageConf: Path)
    requires |cluster.clusterHostnames| >= 1 && |cluster.clusterIps| >= 1
    requires forall i :: 0 <= i < |cluster.clusterHostnames| ==> ',' !in cluster.clusterHostnames[i]
    requires forall i :: 0 <= i < |cluster.clusterIps| ==> ',' !in cluster.clusterIps[i]
    ensures var env := AgentEnvironment(swarm, cluster, hostId, marker, containerConfig, containerStorageConf);
      && Split(env["DRY_HOSTNAMES"], ',') == cluster.clusterHostnames
      && var ips := Split(env["DRY_IPS"], ',');
      && |ips| == |cluster.clusterIps|
      && forall i :: 0 <= i < |ips| ==>
           var ip := cluster.clusterIps[i];
           && '/' !in ips[i] && ips[i] <= ip
           && ('/' !in ip ==> ips[i] == ip)
           && ('/' in ip ==> |ips[i]| < |ip| && ip[|ips[i]|] == '/')
  {
    SplitJoin(cluster.clusterHostnames, ',');
    var stripped := StripPrefixLengths(cluster.clusterIps);
    forall i | 0 <= i < |stripped|
      ensures ',' !in stripped[i]
    {
      BeforeFirstIsPrefix(cluster.clusterIps[i], '/');
    }
    SplitJoin(stripped, ',');
    forall i | 0 <= i < |stripped|
      ensures var ip := cluster.clusterIps[i];
        && '/' !in stripped[i] && stripped[i] <= ip
        && ('/' !in ip ==> stripped[i] == ip)
        && ('/' in ip ==> |stripped[i]| < |ip| && ip[|stripped[i]|] == '/')
    {
      BeforeFirstIsPrefix(cluster.clusterIps[i], '/');
    }
  }

  /** What a wait step leaves stored: the URL it found when that is not empty, otherwise what was there. */
  function Stored(found: Option<Json>, previous: Option<Json>): Option<Json>
  {
    if found.Some? && found.value != Str("") then found else previous
  }

  /** The argument vector of the agent binary. */
  function AgentCommand(swarm: SwarmAgentConfig, infraEnvId: string): seq<string>
  {
    [
      Render(swarm.agentBinary),
      "--url", swarm.serviceUrl,
      "--infra-env-id", infraEnvId,
      "--agent-version", swarm.agentImagePath,
      "--insecure=true",
      "--cacert", Render(swarm.caCertPath)
    ]
  }

  class Agent {
    const swarm: SwarmAgentConfig
    const cluster: ClusterAgentConfig
    /** The host id the agent reports, drawn once when the agent is built. */
    const hostId: string
    const identifier: string
    const agentDir: Path
    const fakeRebootMarkerPath: Path
    const personalGraphroot: Path
    const serviceUrl: string
    const k8sApiServerUrl: string
    const logDir: Path
    const agentStdoutPath: Path
    const agentStderrPath: Path

    /** The engine's current step. */
    var state: Step
    /** The attributes the handlers assign; None while no step has assigned them. */
    var infraenvIsoUrl: Option<Json>
    var infraenvId: Option<string>
    var bmhIsoUrl: Option<Json>

    /**
     * What the pipeline guarantees about the attributes at each step: the id is
     * known from the "ready" step on and is the id of the stored InfraEnv URL, and
     * the boot URL is known, and not empty, from the download step on.
     */
    ghost predicate Valid()
      reads this
    {
      && (Index(state) <= 1 ==> infraenvId == None)
      && (Index(state) <= 3 ==> bmhIsoUrl == None)
      && (Index(state) >= 2 ==>
            infraenvIsoUrl.Some? && infraenvId.Some? && IdFromUrl(infraenvIsoUrl.value) == Ok(infraenvId.value))
      && (Index(state) >= 4 ==> bmhIsoUrl.Some? && bmhIsoUrl.value != Str(""))
    }

    /** Builds an agent at the initial step; `hostId` stands for the random UUID drawn here. */
    constructor (swarm: SwarmAgentConfig, cluster: ClusterAgentConfig, hostId: string)
      ensures Valid() && state == Initial
      ensures infraenvIsoUrl == None && infraenvId == None && bmhIsoUrl == None
      ensures this.swarm == swarm && this.cluster == cluster && this.hostId == hostId
      ensures identifier == cluster.identifier
      ensures serviceUrl == swarm.serviceUrl && k8sApiServerUrl == swarm.k8sApiServerUrl
      ensures agentDir == AgentDir(cluster.clusterDir, cluster.index)
      ensures fakeRebootMarkerPath == Child(agentDir, "fake_reboot_marker")
      ensures personalGraphroot == Child(agentDir, "graphroot")
      ensures logDir == Child(agentDir, "logs")
      ensures agentStdoutPath == Child(agentDir, "agent.stdout.logs")
      ensures agentStderrPath == Child(agentDir, "agent.stderr.logs")
    {
      this.swarm := swarm;
      this.cluster := cluster;
      this.hostId := hostId;
      identifier := cluster.identifier;
      var dir := AgentDir(cluster.clusterDir, cluster.index);
      agentDir := dir;
      fakeRebootMarkerPath := Child(dir, "fake_reboot_marker");
      personalGraphroot := Child(dir, "graphroot");
      serviceUrl := swarm.serviceUrl;
      k8sApiServerUrl := swarm.k8sApiServerUrl;
      logDir := Child(dir, "logs");
      agentStdoutPath := Child(dir, "agent.stdout.logs");
      agentStderrPath := Child(dir, "agent.stderr.logs");
      state := Initial;
      infraenvIsoUrl, infraenvId, bmhIsoUrl := None, None, None;
    }

    /** Where the InfraEnv is looked up: namespace and name are both the cluster identifier. */
    function InfraEnvKey(): Key
    {
      Key(cluster.clusterIdentifier, cluster.clusterIdentifier)
    }

    /** Where the BareMetalHost is looked up: the cluster's namespace, the agent's identifier. */
    function BareMetalHostKey(): Key
    {
      Key(cluster.clusterIdentifier, identifier)
    }

    /** `initialize`: creating the directories is outside the model; the step always advances. */
    method Initialize(nextState: Step) returns (out: Outcome)
      ensures out == Returned(nextState)
    {
      out := Returned(nextState);
    }

    /**
     * `wait_iso_url_infraenv`: holds without touching anything while the InfraEnv
     * is missing or its ISO URL is missing or empty; otherwise stores the URL and
     * then its id, and advances. A URL without an id raises after the URL is stored.
     */
    method WaitIsoUrlInfraEnv(nextState: Step, infraEnvs: map<Key, Resource>) returns (out: Outcome)
      modifies this`infraenvIsoUrl, this`infraenvId
      ensures out.Returned? ==> out.step == nextState || out.step == state
      ensures InfraEnvKey() !in infraEnvs ==>
        out == Returned(state) && infraenvIsoUrl == old(infraenvIsoUrl) && infraenvId == old(infraenvId)
      ensures InfraEnvKey() in infraEnvs ==>
        var url := InfraEnvIsoUrl(infraEnvs[InfraEnvKey()].fields);
        && (url == None ==>
              out == Raised(NotAMapping) && infraenvIsoUrl == old(infraenvIsoUrl) && infraenvId == old(infraenvId))
        && (url == Some(Str("")) ==>
              out == Returned(state) && infraenvIsoUrl == old(infraenvIsoUrl) && infraenvId == old(infraenvId))
        && (url.Some? && url.value != Str("") ==>
              && infraenvIsoUrl == url
              && match IdFromUrl(url.value)
                 case Ok(id) => infraenvId == Some(id) && out == Returned(nextState)
                 case Err(e) => infraenvId == old(infraenvId) && out == Raised(e))
    {
      if InfraEnvKey() !in infraEnvs {
        return Returned(state);
      }
      var url := InfraEnvIsoUrl(infraEnvs[InfraEnvKey()].fields);
      if url.None? {
        return Raised(NotAMapping);
      }
      if url.value == Str("") {
        return Returned(state);
      }
      infraenvIsoUrl := url;
      var id := IdFromUrl(url.value);
      if id.Err? {
        return Raised(id.error);
      }
      infraenvId := Some(id.value);
      out := Returned(nextState);
    }

    /**
     * `wait_iso_url_bmh`: holds without touching anything while the BareMetalHost is
     * missing or its image URL is missing or empty; otherwise stores that URL and
     * recomputes the id from the stored InfraEnv URL (not from the URL just read),
     * and advances.
     */
    method WaitIsoUrlBmh(nextState: Step, bareMetalHosts: map<Key, Resource>) returns (out: Outcome)
      modifies this`bmhIsoUrl, this`infraenvId
      ensures out.Returned? ==> out.step == nextState || out.step == state
      ensures BareMetalHostKey() !in bareMetalHosts ==>
        out == Returned(state) && bmhIsoUrl == old(bmhIsoUrl) && infraenvId == old(infraenvId)
      ensures BareMetalHostKey() in bareMetalHosts ==>
        var url := BmhImageUrl(bareMetalHosts[BareMetalHostKey()].fields);
        && (url == None ==>
              out == Raised(NotAMapping) && bmhIsoUrl == old(bmhIsoUrl) && infraenvId == old(infraenvId))
        && (url == Some(Str("")) ==>
              out == Returned(state) && bmhIsoUrl == old(bmhIsoUrl) && infraenvId == old(infraenvId))
        && (url.Some? && url.value != Str("") ==>
              && bmhIsoUrl == url
              && (infraenvIsoUrl.None? ==>
                    infraenvId == old(infraenvId) && out == Raised(Unset("infraenv_iso_url")))
              && (infraenvIsoUrl.Some? ==>
                    match IdFromUrl(infraenvIsoUrl.value)
                    case Ok(id) => infraenvId == Some(id) && out == Returned(nextState)
                    case Err(e) => infraenvId == old(infraenvId) && out == Raised(e)))
      ensures old(infraenvIsoUrl).Some? && old(infraenvId).Some?
              && IdFromUrl(old(infraenvIsoUrl).value) == Ok(old(infraenvId).value) ==>
        infraenvId == old(infraenvId)
    {
      if BareMetalHostKey() !in bareMetalHosts {
        return Returned(state);
      }
      var url := BmhImageUrl(bareMetalHosts[BareMetalHostKey()].fields);
      if url.None? {
        return Raised(NotAMapping);
      }
      if url.value == Str("") {
        return Returned(state);
      }
      bmhIsoUrl := url;
      if infraenvIsoUrl.None? {
        return Raised(Unset("infraenv_iso_url"));
      }
      var id := IdFromUrl(infraenvIsoUrl.value);
      if id.Err? {
        return Raised(id.error);
      }
      infraenvId := Some(id.value);
      out := Returned(nextState);
    }

    /**
     * `set_bmh_provisioning_state`: when the BareMetalHost is there, replaces its
     * whole status in place with the record for `provisioningState` and sends the
     * resource as the body of the status write, which yields true or raises when the
     * write fails. When it is missing, yields false and writes nothing.
     */
    method SetBmhProvisioningState(provisioningState: string, bareMetalHosts: map<Key, Resource>, writeOk: bool)
      returns (r: Result<bool, Failure>, body: Option<map<string, Json>>)
      modifies if BareMetalHostKey() in bareMetalHosts then {bareMetalHosts[BareMetalHostKey()]} else {}
      ensures BareMetalHostKey() !in bareMetalHosts ==> r == Ok(false) && body == None
      ensures BareMetalHostKey() in bareMetalHosts ==>
        var bmh := bareMetalHosts[BareMetalHostKey()];
        && bmh.fields == WithStatus(old(bmh.fields), provisioningState)
        && body == Some(bmh.fields)
        && r == (if writeOk then Ok(true) else Err(StatusWriteFailed))
    {
      if BareMetalHostKey() !in bareMetalHosts {
        return Ok(false), None;
      }
      var bmh := bareMetalHosts[BareMetalHostKey()];
      bmh.fields := bmh.fields["status" := StatusRecord(provisioningState)];
      body := Some(bmh.fields);
      r := if writeOk then Ok(true) else Err(StatusWriteFailed);
    }

    /** `ready_bmh`: advances exactly when the "ready" status was written, holds when the host is missing. */
    method ReadyBmh(nextState: Step, bareMetalHosts: map<Key, Resource>, writeOk: bool)
      returns (out: Outcome, body: Option<map<string, Json>>)
      modifies if BareMetalHostKey() in bareMetalHosts then {bareMetalHosts[BareMetalHostKey()]} else {}
      ensures BareMetalHostKey() !in bareMetalHosts ==> out == Returned(state) && body == None
      ensures BareMetalHostKey() in bareMetalHosts ==>
        var bmh := bareMetalHosts[BareMetalHostKey()];
        && bmh.fields == WithStatus(old(bmh.fields), "ready")
        && body == Some(bmh.fields)
        && out == (if writeOk then Returned(nextState) else Raised(StatusWriteFailed))
    {
      var r;
      r, body := SetBmhProvisioningState("ready", bareMetalHosts, writeOk);
      out := match r
        case Ok(true) => Returned(nextState)
        case Ok(false) => Returned(state)
        case Err(e) => Raised(e);
    }

    /** `provisioned_bmh`: as `ready_bmh`, with the "provisioned" state. */
    method ProvisionedBmh(nextState: Step, bareMetalHosts: map<Key, Resource>, writeOk: bool)
      returns (out: Outcome, body: Option<map<string, Json>>)
      modifies if BareMetalHostKey() in bareMetalHosts then {bareMetalHosts[BareMetalHostKey()]} else {}
      ensures BareMetalHostKey() !in bareMetalHosts ==> out == Returned(state) && body == None
      ensures BareMetalHostKey() in bareMetalHosts ==>
        var bmh := bareMetalHosts[BareMetalHostKey()];
        && bmh.fields == WithStatus(old(bmh.fields), "provisioned")
        && body == Some(bmh.fields)
        && out == (if writeOk then Returned(nextState) else Raised(StatusWriteFailed))
    {
      var r;
      r, body := SetBmhProvisioningState("provisioned", bareMetalHosts, writeOk);
      out := match r
        case Ok(true) => Returned(nextState)
        case Ok(false) => Returned(state)
        case Err(e) => Raised(e);
    }

    /** `download_iso`: advances when fetching the boot URL exits with 0, raises otherwise. */
    method DownloadIso(nextState: Step, exitCode: int) returns (out: Outcome)
      ensures bmhIsoUrl.None? ==> out == Raised(Unset("bmh_iso_url"))
      ensures bmhIsoUrl.Some? ==>
        out == if exitCode == 0 then Returned(nextState) else Raised(DownloadFailed(exitCode))
    {
      if bmhIsoUrl.None? {
        return Raised(Unset("bmh_iso_url"));
      }
      out := if exitCode == 0 then Returned(nextState) else Raised(DownloadFailed(exitCode));
    }

    /**
     * `run_agent`: starts the agent binary with the spoofing environment and the
     * command line carrying the InfraEnv id; advances exactly when it exits with 0
     * and holds otherwise. With no id assigned yet it raises before starting anything.
     */
    method RunAgent(nextState: Step, containerConfig: Path, containerStorageConf: Path, exitCode: int)
      returns (out: Outcome, launch: Option<Launch>)
      ensures infraenvId.None? ==> out == Raised(Unset("infraenv_id")) && launch == None
      ensures infraenvId.Some? ==>
        && launch == Some(Launch(
             AgentCommand(swarm, infraenvId.value),
             AgentEnvironment(swarm, cluster, hostId, fakeRebootMarkerPath, containerConfig, containerStorageConf)))
        && out == Returned(if exitCode == 0 then nextState else state)
      ensures Valid() && Index(state) >= 2 ==>
        && launch.Some? && |launch.value.command| == 10
        && launch.value.command[3] == "--infra-env-id"
        && UuidShaped(launch.value.command[4])
        && infraenvIsoUrl.value.Str?
        && Some(launch.value.command[4]) == InfraEnvIdFromUrl(infraenvIsoUrl.value.s)
    {
      if infraenvId.None? {
        return Raised(Unset("infraenv_id")), None;
      }
      var environment := AgentEnvironment(swarm, cluster, hostId, fakeRebootMarkerPath, containerConfig, containerStorageConf);
      var command := AgentCommand(swarm, infraenvId.value);
      launch := Some(Launch(command, environment));
      out := if exitCode != 0 then Returned(state) else Returned(nextState);
    }

    /** `done`: always holds. */
    method DoneHandler(nextState: Step) returns (out: Outcome)
      ensures out == Returned(state)
    {
      out := Returned(state);
    }

    /**
     * When the handler of step `s` advances, given what the collaborators answer:
     * the InfraEnv is there with a non-empty ISO URL that holds an id; the host is
     * there and the status write succeeds; the host is there with a non-empty image
     * URL and the stored InfraEnv URL holds an id; the download exits with 0; the
     * container configurations are done; the agent has an id and exits with 0.
     */
    predicate AdvancesAt(s: Step, world: World)
      reads this, world.infraEnvs.Values, world.bareMetalHosts.Values
    {
      match s
      case Initializing => true
      case WaitingIsoUrlInfraEnv =>
        && InfraEnvKey() in world.infraEnvs
        && var url := InfraEnvIsoUrl(world.infraEnvs[InfraEnvKey()].fields);
        && url.Some? && url.value != Str("") && IdFromUrl(url.value).Ok?
      case SettingBmhReady =>
        BareMetalHostKey() in world.bareMetalHosts && world.statusWriteOk
      case WaitingIsoUrlBmh =>
        && BareMetalHostKey() in world.bareMetalHosts
        && var url := BmhImageUrl(world.bareMetalHosts[BareMetalHostKey()].fields);
        && url.Some? && url.value != Str("")
        && infraenvIsoUrl.Some? && IdFromUrl(infraenvIsoUrl.value).Ok?
      case DownloadIso => bmhIsoUrl.Some? && world.downloadExitCode == 0
      case SettingBmhProvisioned =>
        BareMetalHostKey() in world.bareMetalHosts && world.statusWriteOk
      case GeneratingContainerConfigs => world.containerConfigsDone
      case RunningAgent => infraenvId.Some? && world.agentExitCode == 0
      case Done => false
    }

    /**
     * The engine iteration at one of the two status steps: the handler writes the
     * host's status and the step advances exactly when `AdvancesAt` holds. Nothing
     * of the agent but its step changes.
     */
    method IterateStatus(world: World) returns (out: Outcome)
      requires Valid() && (state == SettingBmhReady || state == SettingBmhProvisioned)
      modifies this`state, world.bareMetalHosts.Values
      ensures Valid()
      ensures state == if out.Returned? then out.step else old(state)
      ensures old(AdvancesAt(state, world)) ==> state == Next(old(state))
      ensures !old(AdvancesAt(state, world)) ==> state == old(state)
      ensures forall k :: k in world.bareMetalHosts && BareMetalHostKey() in world.bareMetalHosts
                          && world.bareMetalHosts[k] != world.bareMetalHosts[BareMetalHostKey()] ==>
                world.bareMetalHosts[k].fields == old(world.bareMetalHosts[k].fields)
      ensures BareMetalHostKey() !in world.bareMetalHosts ==> unchanged(world.bareMetalHosts.Values)
      ensures BareMetalHostKey() in world.bareMetalHosts ==>
        var bmh := world.bareMetalHosts[BareMetalHostKey()];
        bmh.fields == WithStatus(old(bmh.fields), if old(state) == SettingBmhReady then "ready" else "provisioned")
    {
      var nextState := Next(state);
      var body;
      if state == SettingBmhReady {
        out, body := ReadyBmh(nextState, world.bareMetalHosts, world.statusWriteOk);
      } else {
        out, body := ProvisionedBmh(nextState, world.bareMetalHosts, world.statusWriteOk);
      }
      if out.Returned? {
        state := out.step;
      }
    }

    /**
     * The engine iteration at any other non-terminal step: no BareMetalHost is
     * touched, the step advances exactly when `AdvancesAt` holds, and only the two
     * wait steps touch the stored URLs, each storing the URL it found when that is
     * not empty and keeping the old one otherwise.
     */
    method IterateOwn(world: World) returns (out: Outcome)
      requires Valid() && state != Terminal && state != SettingBmhReady && state != SettingBmhProvisioned
      modifies this
      ensures Valid()
      ensures state == if out.Returned? then out.step else old(state)
      ensures old(AdvancesAt(state, world)) ==> state == Next(old(state))
      ensures !old(AdvancesAt(state, world)) ==> state == old(state)
      ensures old(state) == RunningAgent ==> out.Returned?
      ensures old(state) != WaitingIsoUrlInfraEnv ==>
        infraenvId == old(infraenvId) && infraenvIsoUrl == old(infraenvIsoUrl)
      ensures old(state) == WaitingIsoUrlInfraEnv ==>
        infraenvIsoUrl == old(if InfraEnvKey() in world.infraEnvs
                              then Stored(InfraEnvIsoUrl(world.infraEnvs[InfraEnvKey()].fields), infraenvIsoUrl)
                              else infraenvIsoUrl)
      ensures old(state) != WaitingIsoUrlBmh ==> bmhIsoUrl == old(bmhIsoUrl)
      ensures old(state) == WaitingIsoUrlBmh ==>
        bmhIsoUrl == old(if BareMetalHostKey() in world.bareMetalHosts
                         then Stored(BmhImageUrl(world.bareMetalHosts[BareMetalHostKey()].fields), bmhIsoUrl)
                         else bmhIsoUrl)
    {
      var nextState := Next(state);
      match state {
        case Initializing =>
          out := Initialize(nextState);
        case WaitingIsoUrlInfraEnv =>
          out := WaitIsoUrlInfraEnv(nextState, world.infraEnvs);
        case WaitingIsoUrlBmh =>
          out := WaitIsoUrlBmh(nextState, world.bareMetalHosts);
        case DownloadIso =>
          out := DownloadIso(nextState, world.downloadExitCode);
        case GeneratingContainerConfigs =>
          out := Returned(if world.containerConfigsDone then nextState else state);
        case RunningAgent =>
          var launch;
          out, launch := RunAgent(nextState, world.containerConfig, world.containerStorageConf, world.agentExitCode);
      }
      if out.Returned? {
        state := out.step;
      }
    }

    /**
     * One iteration of the engine at a non-terminal step: the step's handler runs
     * with the name of the following step; a returned name becomes the current step
     * and an exception leaves it where it was. The step moves to the next one exactly
     * when `AdvancesAt` holds and stays otherwise, and the pipeline guarantee `Valid`
     * is kept. Only the two status steps touch a BareMetalHost, each replacing its
     * status; only the two wait steps touch the stored URLs, each storing the URL it
     * found when that is not empty and keeping the old one otherwise.
     */
    method Iterate(world: World) returns (out: Outcome)
      requires Valid() && state != Terminal
      modifies this, world.bareMetalHosts.Values
      ensures Valid()
      ensures state == if out.Returned? then out.step else old(state)
      ensures old(AdvancesAt(state, world)) ==> state == Next(old(state))
      ensures !old(AdvancesAt(state, world)) ==> state == old(state)
      ensures old(state) == RunningAgent ==> out.Returned?
      ensures old(state) != WaitingIsoUrlInfraEnv ==>
        infraenvId == old(infraenvId) && infraenvIsoUrl == old(infraenvIsoUrl)
      ensures old(state) == WaitingIsoUrlInfraEnv ==>
        infraenvIsoUrl == old(if InfraEnvKey() in world.infraEnvs
                              then Stored(InfraEnvIsoUrl(world.infraEnvs[InfraEnvKey()].fields), infraenvIsoUrl)
                              else infraenvIsoUrl)
      ensures old(state) == WaitingIsoUrlInfraEnv && state != old(state) ==>
        infraenvIsoUrl == old(InfraEnvIsoUrl(world.infraEnvs[InfraEnvKey()].fields))
      ensures old(state) != WaitingIsoUrlBmh ==> bmhIsoUrl == old(bmhIsoUrl)
      ensures old(state) == WaitingIsoUrlBmh ==>
        bmhIsoUrl == old(if BareMetalHostKey() in world.bareMetalHosts
                         then Stored(BmhImageUrl(world.bareMetalHosts[BareMetalHostKey()].fields), bmhIsoUrl)
                         else bmhIsoUrl)
      ensures old(state) == WaitingIsoUrlBmh && state != old(state) ==>
        bmhIsoUrl == old(BmhImageUrl(world.bareMetalHosts[BareMetalHostKey()].fields))
      ensures old(state) == SettingBmhReady || old(state) == SettingBmhProvisioned ==>
        && (forall k :: k in world.bareMetalHosts && BareMetalHostKey() in world.bareMetalHosts
                        && world.bareMetalHosts[k] != world.bareMetalHosts[BareMetalHostKey()] ==>
              world.bareMetalHosts[k].fields == old(world.bareMetalHosts[k].fields))
        && (BareMetalHostKey() !in world.bareMetalHosts ==> unchanged(world.bareMetalHosts.Values))
        && (BareMetalHostKey() in world.bareMetalHosts ==>
              var bmh := world.bareMetalHosts[BareMetalHostKey()];
              bmh.fields == WithStatus(old(bmh.fields),
                                       if old(state) == SettingBmhReady then "ready" else "provisioned"))
      ensures old(state) != SettingBmhReady && old(state) != SettingBmhProvisioned ==>
        unchanged(world.bareMetalHosts.Values)
    {
      if state == SettingBmhReady || state == SettingBmhProvisioned {
        out := IterateStatus(world);
      } else {
        out := IterateOwn(world);
      }
    }
  }
}
