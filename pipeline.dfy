/**
 * The agent's fixed pipeline of nine steps and the forward-only engine that walks
 * it: a handler either advances to the step right after the current one or holds,
 * and the terminal step's handler is never run.
 */
module Pipeline {

  datatype Step =
    | Initializing
    | WaitingIsoUrlInfraEnv
    | SettingBmhReady
    | WaitingIsoUrlBmh
    | DownloadIso
    | SettingBmhProvisioned
    | GeneratingContainerConfigs
    | RunningAgent
    | Done

  /** The steps in the order the agent's table lists them. */
  const Order: seq<Step> := [
    Initializing, WaitingIsoUrlInfraEnv, SettingBmhReady, WaitingIsoUrlBmh, DownloadIso,
    SettingBmhProvisioned, GeneratingContainerConfigs, RunningAgent, Done
  ]

  /** The step the engine starts at and the step at which it stops. */
  const Initial: Step := Initializing
  const Terminal: Step := Done

  /** Position of a step in the table. */
  function Index(s: Step): (i: nat)
    ensures i < |Order| && Order[i] == s
  {
    match s
    case Initializing => 0
    case WaitingIsoUrlInfraEnv => 1
    case SettingBmhReady => 2
    case WaitingIsoUrlBmh => 3
    case DownloadIso => 4
    case SettingBmhProvisioned => 5
    case GeneratingContainerConfigs => 6
    case RunningAgent => 7
    case Done => 8
  }

  /** The name under which the source keys the step (its spelling included). */
  function Name(s: Step): string
  {
    match s
    case Initializing => "Initializing"
    case WaitingIsoUrlInfraEnv => "Waiting for ISO URL on InfraEnv"
    case SettingBmhReady => "Seting BMH provisioning state to \"ready\""
    case WaitingIsoUrlBmh => "Waiting for ISO URL on BMH"
    case DownloadIso => "Download ISO"
    case SettingBmhProvisioned => "Seting BMH provisioning state to \"provisioned\""
    case GeneratingContainerConfigs => "Generating container configurations"
    case RunningAgent => "Running agent"
    case Done => "Done"
  }

  /** The step after `s`: the only target a handler of `s` can advance to. */
  function Next(s: Step): (n: Step)
    requires s != Terminal
    ensures Index(n) == Index(s) + 1
  {
    match s
    case Initializing => WaitingIsoUrlInfraEnv
    case WaitingIsoUrlInfraEnv => SettingBmhReady
    case SettingBmhReady => WaitingIsoUrlBmh
    case WaitingIsoUrlBmh => DownloadIso
    case DownloadIso => SettingBmhProvisioned
    case SettingBmhProvisioned => GeneratingContainerConfigs
    case GeneratingContainerConfigs => RunningAgent
    case RunningAgent => Done
  }

  /** The table is a chain: it starts at the initial step, ends at the terminal one and `Next` walks it. */
  lemma OrderIsChain()
    ensures |Order| == 9 && Order[0] == Initial && Order[|Order| - 1] == Terminal
    ensures forall i :: 0 <= i < |Order| - 1 ==> Order[i] != Terminal && Next(Order[i]) == Order[i + 1]
    ensures forall i, j :: 0 <= i < j < |Order| ==> Order[i] != Order[j]
  {
  }

  /** Distinct steps have distinct names, so the source's string-keyed table has nine entries. */
  lemma NamesDistinct(a: Step, b: Step)
    requires Name(a) == Name(b)
    ensures a == b
  {
  }

  /** What the engine makes of one handler call: move to the next step, or stay. */
  datatype Verdict = Advance | Hold

  /** The number of advances in a run of verdicts. */
  function Advances(vs: seq<Verdict>): (n: nat)
    ensures n <= |vs|
  {
    if |vs| == 0 then 0 else (if vs[0] == Advance then 1 else 0) + Advances(vs[1..])
  }

  /**
   * The engine's loop fed with the verdicts of successive handler calls: while
   * the current step is not the terminal one its handler runs and the verdict is
   * applied; at the terminal step the loop stops and further verdicts are unused.
   */
  function Walk(s: Step, vs: seq<Verdict>): Step
    decreases |vs|
  {
    if s == Terminal || |vs| == 0 then s
    else Walk(if vs[0] == Advance then Next(s) else s, vs[1..])
  }

  /**
   * Wherever the engine starts, after any run of verdicts it stands exactly as many
   * steps further down the table as there were advances, stopping at the terminal
   * step: no step is ever skipped and the pointer never moves back.
   */
  lemma {:induction false} WalkFollowsOrder(s: Step, vs: seq<Verdict>)
    ensures var k := Index(s) + Advances(vs);
      Walk(s, vs) == Order[if k < |Order| then k else |Order| - 1]
    decreases |vs|
  {
    if s != Terminal && |vs| > 0 {
      var s' := if vs[0] == Advance then Next(s) else s;
      WalkFollowsOrder(s', vs[1..]);
    }
  }

  /** From the initial step, the engine reaches the terminal step exactly when eight handler calls advanced. */
  lemma RunCompletesAfterEightAdvances(vs: seq<Verdict>)
    ensures Walk(Initial, vs) == Terminal <==> Advances(vs) >= 8
  {
    WalkFollowsOrder(Initial, vs);
    OrderIsChain();
  }
}
