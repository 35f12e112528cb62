/**
 * A whole provisioning run driven through the engine, with the collaborators'
 * answers chosen step by step: the InfraEnv is missing at first, the first status
 * write fails, the BareMetalHost's image URL starts empty and the first launch of
 * the agent binary is killed. Everything it ensures follows from the handlers'
 * contracts alone.
 */
module Scenarios {
  import opened Wrappers
  import opened Json
  import opened Uuid
  import opened Pipeline
  import opened Resources
  import opened Agent

  const IsoUrl: string := "https://x/images/" + "3fa85f64-5717-4562-b3fc-2c963f66afa6" + "/foo.iso"
  const ExpectedId: string := "3fa85f64-5717-4562-b3fc-2c963f66afa6"

  /** The steps the engine stands at after each iteration of a stage of the run below. */
  const DiscoverTrace: seq<Step> := [WaitingIsoUrlInfraEnv, WaitingIsoUrlInfraEnv, SettingBmhReady]
  const RegisterTrace: seq<Step> := [SettingBmhReady, WaitingIsoUrlBmh]
  const BootTrace: seq<Step> := [WaitingIsoUrlBmh, DownloadIso, SettingBmhProvisioned]
  const FinishTrace: seq<Step> := [GeneratingContainerConfigs, RunningAgent, RunningAgent, Done]

  /** The answers of a cache and collaborators that have nothing to offer. */
  function Quiet(infraEnvs: map<Key, Resource>, bareMetalHosts: map<Key, Resource>): World
  {
    World(infraEnvs, bareMetalHosts, false, 1, false, [], [], 1)
  }

  /** A BareMetalHost whose `spec.image.url` is `url`. */
  function HostWithImage(url: string): map<string, Json>
  {
    map["spec" := Object(map["image" := Object(map["url" := Str(url)])])]
  }

  /** Initializing advances; the InfraEnv is missing, then appears with its ISO URL and the id is captured. */
  method Discover(agent: Agent, envs: map<Key, Resource>, infraEnv: Resource) returns (trace: seq<Step>)
    requires agent.Valid() && agent.state == Initializing
    requires envs == map[agent.InfraEnvKey() := infraEnv]
    requires infraEnv.fields == map["status" := Object(map["isoDownloadURL" := Str(IsoUrl)])]
    modifies agent
    ensures agent.Valid() && agent.state == SettingBmhReady && agent.infraenvId == Some(ExpectedId)
    ensures trace == DiscoverTrace
  {
    var out := agent.Iterate(Quiet(map[], map[]));
    trace := [agent.state];
    out := agent.Iterate(Quiet(map[], map[]));
    trace := trace + [agent.state];
    ExampleIsoUrl();
    assert InfraEnvIsoUrl(infraEnv.fields) == Some(Str(IsoUrl));
    out := agent.Iterate(Quiet(envs, map[]));
    trace := trace + [agent.state];
  }

  /** The first status write fails and the step stays; the second succeeds and the step advances. */
  method Register(agent: Agent, envs: map<Key, Resource>, hosts: map<Key, Resource>, bmh: Resource)
    returns (trace: seq<Step>)
    requires agent.Valid() && agent.state == SettingBmhReady
    requires hosts == map[agent.BareMetalHostKey() := bmh]
    modifies agent, bmh
    ensures agent.Valid() && agent.state == WaitingIsoUrlBmh && agent.infraenvId == old(agent.infraenvId)
    ensures bmh.fields == WithStatus(old(bmh.fields), "ready")
    ensures trace == RegisterTrace
  {
    var out := agent.Iterate(Quiet(envs, hosts));
    trace := [agent.state];
    out := agent.Iterate(World(envs, hosts, true, 1, false, [], [], 1));
    trace := trace + [agent.state];
  }

  /** The host's image URL is empty and the step holds; once it is set the step advances and the download runs. */
  method Boot(agent: Agent, envs: map<Key, Resource>, hosts: map<Key, Resource>, bmh: Resource, bootUrl: string)
    returns (trace: seq<Step>)
    requires agent.Valid() && agent.state == WaitingIsoUrlBmh
    requires hosts == map[agent.BareMetalHostKey() := bmh]
    requires BmhImageUrl(bmh.fields) == Some(Str("")) && bootUrl != ""
    modifies agent, bmh
    ensures agent.Valid() && agent.state == SettingBmhProvisioned && agent.infraenvId == old(agent.infraenvId)
    ensures agent.bmhIsoUrl == Some(Str(bootUrl))
    ensures trace == BootTrace
  {
    var out := agent.Iterate(Quiet(envs, hosts));
    trace := [agent.state];
    bmh.fields := bmh.fields["spec" := HostWithImage(bootUrl)["spec"]];
    assert BmhImageUrl(bmh.fields) == Some(Str(bootUrl));
    out := agent.Iterate(Quiet(envs, hosts));
    trace := trace + [agent.state];
    out := agent.Iterate(World(envs, hosts, false, 0, false, [], [], 1));
    trace := trace + [agent.state];
  }

  /** The "provisioned" status is written, the container configurations are made, and the agent binary runs twice. */
  method Finish(agent: Agent, envs: map<Key, Resource>, hosts: map<Key, Resource>, bmh: Resource)
    returns (trace: seq<Step>)
    requires agent.Valid() && agent.state == SettingBmhProvisioned
    requires hosts == map[agent.BareMetalHostKey() := bmh]
    modifies agent, bmh
    ensures agent.state == Done && agent.infraenvId == old(agent.infraenvId)
    ensures bmh.fields == WithStatus(old(bmh.fields), "provisioned")
    ensures trace == FinishTrace
  {
    var out := agent.Iterate(World(envs, hosts, true, 1, false, [], [], 1));
    trace := [agent.state];
    out := agent.Iterate(World(envs, hosts, false, 1, true, [], [], 1));
    trace := trace + [agent.state];
    // The agent binary is killed (exit code 137): hold and launch again.
    out := agent.Iterate(World(envs, hosts, false, 1, false, [], [], 137));
    trace := trace + [agent.state];
    out := agent.Iterate(World(envs, hosts, false, 1, false, [], [], 0));
    trace := trace + [agent.state];
  }

  /**
   * Every hold is followed by the same step again, each success by the next step,
   * and the run ends at Done with the id taken from the InfraEnv URL and the host's
   * status left at "provisioned".
   */
  method ProvisioningRun(swarm: SwarmAgentConfig, cluster: ClusterAgentConfig, hostId: string, bootUrl: string)
    returns (trace: seq<Step>, id: Option<string>, finalStatus: Json)
    requires bootUrl != ""
    ensures trace == [Initializing] + DiscoverTrace + RegisterTrace + BootTrace + FinishTrace
    ensures id == Some(ExpectedId)
    ensures ProvisioningState(finalStatus) == Some("provisioned")
  {
    var agent := new Agent(swarm, cluster, hostId);
    var bmh := new Resource(HostWithImage(""));
    var hosts := map[agent.BareMetalHostKey() := bmh];
    var infraEnv := new Resource(map["status" := Object(map["isoDownloadURL" := Str(IsoUrl)])]);
    var envs := map[agent.InfraEnvKey() := infraEnv];

    var discovered := Discover(agent, envs, infraEnv);
    var registered := Register(agent, envs, hosts, bmh);
    assert bmh.fields["spec"] == HostWithImage("")["spec"];
    assert BmhImageUrl(bmh.fields) == Some(Str(""));
    var booted := Boot(agent, envs, hosts, bmh, bootUrl);
    var finished := Finish(agent, envs, hosts, bmh);
    trace := [Initializing] + discovered + registered + booted + finished;

    id := agent.infraenvId;
    finalStatus := bmh.fields["status"];
    StatusRecordReadsBack("provisioned", "provisioned");
  }
}
