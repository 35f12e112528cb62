# Provisioning agent of the bare-metal swarm simulator, modelled in Dafny

The swarm simulator runs many fake bare-metal agents against an installer
service. Each `Agent` walks a fixed pipeline of nine steps: it waits for the
InfraEnv's ISO URL and takes the InfraEnv id from it, marks its BareMetalHost
"ready", waits for the host's image URL, downloads the image, marks the host
"provisioned", has its container configurations made, and runs the real agent
binary with a spoofed identity until it exits cleanly. A retrying engine calls
the current step's handler with the name of the next step; a handler returns
that name to advance or the current name to hold.

The model:

- `wrappers.dfy`: `Option` and `Result`.
- `text.dfy`: Python's `",".join`, `str.split` on one character, the prefix
  before the first separator, and the decimal form an f-string gives an `int`.
- `json.dfy`: decoded JSON values and `dict.get` on them. A `.get` on a value
  that is not a dict is the `AttributeError` the source would raise.
- `uuid.dfy`: `get_infraenv_id_from_url` as a left-to-right scan over 36-character
  windows. It finds the leftmost lowercase 8-4-4-4-12 window (the string form of
  section 3 of RFC 4122), or nothing.
- `pipeline.dfy`: the nine steps as an enumeration in table order, the
  forward-only successor `Next`, and the engine loop over a run of
  advance/hold verdicts (`Walk`).
- `resources.dfy`: a cluster resource is a class `Resource`, because the status
  step changes the dict it got from the cache in place. The model takes that dict
  to be the cache's own object (see "Left out"). The file also has the nested URL
  lookups and the fixed status record.
- `agent.dfy`: the class `Agent`. It has the identity, the derived paths, the
  handler-assigned attributes and one method per handler. `Iterate` is one
  engine iteration. `Valid` is what the pipeline guarantees about the attributes
  at each step.
- `scenarios.dfy`: a full run driven through `Iterate` with collaborator answers
  chosen step by step. It covers a missing InfraEnv, a failed status write, an
  empty image URL and an agent killed with exit code 137.

The handlers take their collaborators' answers as inputs. The cache is a map
from namespace/name keys to `Resource` objects. The status write, the download,
the container-configuration step and the agent process are given by their
results. A handler either returns a step name or raises a `Failure`.

The base engine class is not part of this model. `Iterate` assumes the
behaviour the handlers are written for: a returned name becomes the current
step, and an exception leaves the step where it was, to be retried. So a URL
without an id is not fatal here. The handler raises, the step holds, and the
next call retries it, exactly like any other exception in the code.

`wait_iso_url_bmh` recomputes the id from the stored InfraEnv URL, not from the
URL it has just read from the host. The model keeps this. Under `Valid` it
leaves the id unchanged.

## Model

| member | source | states |
|---|---|---|
| `Pipeline.Index` | agent.py:79-91 | every step has its position in the nine-entry table |
| `Pipeline.Next` | agent.py:79-91 | the step a handler may advance to is the one right after the current one in the table |
| `Pipeline.OrderIsChain` | agent.py:77-91 | the table starts at "Initializing", ends at "Done", has no repeated step, and `Next` walks it entry by entry |
| `Pipeline.NamesDistinct` | agent.py:80-90 | the nine names the table is keyed by are pairwise different |
| `Pipeline.WalkFollowsOrder` | agent.py:76-91 | after any run of handler verdicts the engine stands as many entries further down the table as there were advances, capped at "Done": it never skips or goes back |
| `Pipeline.RunCompletesAfterEightAdvances` | agent.py:77-78 | from "Initializing" the engine reaches "Done" exactly when at least eight handler calls advanced (verdicts after "Done" have no effect) |
| `Uuid.FirstMatchFrom` | agent.py:147-149 | the first window at or after a position that has the UUID layout, with no such window before it; none when no window there matches |
| `Uuid.InfraEnvIdFromUrl` | agent.py:145-153 | the result is a 36-character substring with dashes at 8, 13, 18 and 23 and `[0-9a-f]` elsewhere, no earlier position starts such a window, and there is no result (the source raises) exactly when no window matches |
| `Uuid.LeftmostWindowIsId` | agent.py:149-151 | the leftmost matching window is the id returned |
| `Uuid.EmbeddedIdIsFound` | agent.py:146-151 | a UUID placed after a UUID-free prefix ending in a non-UUID character (such as `/`) is returned, whatever follows it |
| `Uuid.ExampleIsoUrl` | agent.py:146-151 | `https://x/images/3fa85f64-5717-4562-b3fc-2c963f66afa6/foo.iso` yields `3fa85f64-5717-4562-b3fc-2c963f66afa6` |
| `Uuid.UppercaseIdNotFound` | agent.py:147-153 | the pattern is lowercase, so an id written in capitals is not found and the call raises |
| `Agent.IdFromUrl` | agent.py:145-153 | on a stored URL value: the id when it is a string holding one; the "no id" error for a string without one; a type error for a non-string |
| `Text.SplitJoin` | agent.py:256 | comma-joining a non-empty list of names that contain no comma and splitting the result again gives back the list (an empty list joins to `""`, which splits to `[""]`) |
| `Text.BeforeFirstIsPrefix` | agent.py:257 | `ip.split("/")[0]` is a prefix of `ip` without `/`: all of `ip` when it has no `/`, otherwise everything up to its first `/` |
| `Agent.EnvironmentPeerListsReadBack` | agent.py:246-259 | for at least one hostname and one address, none containing a comma: splitting `DRY_HOSTNAMES` at commas gives the cluster hostnames; splitting `DRY_IPS` gives each cluster address, in order, cut before its first `/` |
| `Text.NatToDecimalInjective` | agent.py:107 | different indices give different decimal texts |
| `Text.IntToDecimalInjective` | agent.py:107 | the same holds for negative indices, which carry a leading `-` |
| `Agent.AgentDirsDisjoint` | agent.py:107-129 | agents of one cluster with different indices get different directories, and the paths derived inside them never coincide |
| `Resources.StatusRecordReadsBack` | agent.py:209-217 | the status record has exactly the seven fixed keys, and its `provisioning.state` reads back as the requested state |
| `Resources.WithStatusReplacesWholeStatus` | agent.py:208-217 | after the write the status depends only on the requested state, not on the old status; every other top-level field is kept and only `status` can be added |
| `Agent.Agent.constructor` | agent.py:96-129 | the agent starts at "Initializing" with no URL or id assigned; its directory is `cluster_dir/agent-<index>` and every other path is a child of it |
| `Agent.Agent.Initialize` | agent.py:131-135 | always returns the next step |
| `Agent.Agent.WaitIsoUrlInfraEnv` | agent.py:155-178 | holds and changes nothing when the InfraEnv is absent or its ISO URL is missing or empty; otherwise stores the URL, then the extracted id, and advances; a URL without an id raises after the URL is stored, leaving the id as it was |
| `Agent.Agent.WaitIsoUrlBmh` | agent.py:180-201 | holds and changes nothing when the host is absent or its image URL is missing or empty; otherwise stores that URL and sets the id from the stored InfraEnv URL, not from the host's URL, so an id that already came from that URL stays the same |
| `Agent.Agent.SetBmhProvisioningState` | agent.py:203-231 | with the host present, replaces its whole status in place with the fixed record for the state, sends the resource as the write body, and yields true, or raises when the write fails; with the host absent, yields false and writes nothing |
| `Agent.Agent.ReadyBmh` | agent.py:233-237 | advances exactly when the "ready" status was written; holds when the host is absent |
| `Agent.Agent.ProvisionedBmh` | agent.py:239-243 | advances exactly when the "provisioned" status was written; holds when the host is absent |
| `Agent.Agent.DownloadIso` | agent.py:137-143 | advances when the download exits with 0 and raises otherwise |
| `Agent.Agent.RunAgent` | agent.py:245-291 | launches with the spoofing environment and the command `binary --url <service> --infra-env-id <id> --agent-version <image> --insecure=true --cacert <ca>`; advances exactly on exit code 0 and holds otherwise; in a valid agent the id passed is the UUID taken from the InfraEnv URL |
| `Agent.Agent.DoneHandler` | agent.py:293-294 | always returns the current step |
| `Agent.Agent.Iterate` | agent.py:76-94 | one engine iteration moves to the next step exactly when that step's handler advances (`AdvancesAt`) and stays otherwise. It keeps the per-step guarantees, and the id never changes after discovery. Only the two wait steps change the stored URLs: each stores the URL it found when that is not empty and keeps the old one otherwise. Only the two status steps touch a host, and they replace its status |
| `Agent.Agent.IterateStatus` | agent.py:76-94 | one engine iteration at a status step: advances exactly when `AdvancesAt` holds, keeps `Valid`, replaces the host's status with the record for "ready" or "provisioned", and leaves every other host object and every other agent attribute as it was |
| `Agent.Agent.IterateOwn` | agent.py:76-94 | one engine iteration at any other step: advances exactly when `AdvancesAt` holds, keeps `Valid`, touches no host, and changes the stored URLs only at the two wait steps, storing the URL found when it is not empty |
| `Scenarios.Discover` | agent.py:131-178 | from a new agent: advance, hold while the InfraEnv is missing, then advance with the id captured |
| `Scenarios.Register` | agent.py:203-237 | a failed status write keeps the step; the next successful write advances and leaves the host "ready" |
| `Scenarios.Boot` | agent.py:137-201 | an empty image URL holds; once set, the step advances with that URL stored as the boot URL, and the download advances again |
| `Scenarios.Finish` | agent.py:239-291 | "provisioned" is written, configurations are made, exit code 137 holds, exit code 0 ends at "Done" |
| `Scenarios.ProvisioningRun` | agent.py:79-91 | a whole run passes through the steps in table order, repeating a step only where it held, and ends at "Done" with the InfraEnv id and a "provisioned" host |

## Left out

- The status write's HTTP request is not modelled: its URL, bearer token and CA verification. Only its success or failure is an input.
- Process execution is not modelled: the `curl` download, `Popen` through the privilege wrapper, merging with the inherited environment, and stdin/stdout/stderr redirection. Exit codes are inputs.
- `check_call` with `check=True` is assumed to raise on a non-zero exit. The executor's source is not part of this model.
- Filesystem effects are not modelled: the directories `initialize` creates and the command/environment line appended to the stdout log.
- The host id drawn with `uuid.uuid4()` is a constructor parameter.
- The resource cache is not modelled. Each lookup is a map from namespace/name to the resource object it returns.
- Whether the cache returns its own dict or a copy cannot be seen, because the cache is not part of this model. The model assumes its own dict. So the status change made by `set_bmh_provisioning_state` stays visible to later lookups, even after a failed write. `Agent.Agent.Iterate`, `Scenarios.Register` and `Scenarios.Finish` depend on this when they state the host's new status. If the cache hands out copies, the write only affects the body sent.
- The container-configuration mixin is not part of this model: its step's verdict and the two configuration paths `run_agent` passes on are inputs.
- The retrying engine base class is not part of this model, so backoff, logging and how it reports exceptions are missing. `Iterate` and `Walk` encode the behaviour the handlers are written for.
- Logging has no effect on behaviour and is left out.
- Paths are lists of components and `str(path)` joins them with `/`. Pathlib's normalisation is not modelled: collapsing `//` and `.`, and the root path printing as `/`.
- JSON numbers other than integers are not modelled.
- Running many agents concurrently is outside the core and is not modelled.
