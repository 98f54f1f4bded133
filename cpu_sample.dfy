/** The set-up of the CPU sample: 1024 agents laid out by the SQUARE scene, written by
    an inline copy of the scene generator's loop. */
module CrowdCpuSample {
  import opened AgentCodec
  import opened CrowdStages
  import opened CrowdScenes

  /** The scene the CPU sample selects. */
  const SelectedScene: SceneType := Square

  /** 1024 agents form two cohorts of 512 = 2^9, laid out on a 32 x 16 grid per cohort. */
  lemma CpuSquareGrid()
    ensures SquareCount(CpuNumAgents)
    ensures XCount(CpuNumAgents) == 32 && YCount(CpuNumAgents) == 16
  {
    assert IsPow2(1) && IsPow2(2) && IsPow2(4) && IsPow2(8) && IsPow2(16);
    assert IsPow2(32) && IsPow2(64) && IsPow2(128) && IsPow2(256) && IsPow2(512);
    assert Log2(1) == 0 && Log2(2) == 1 && Log2(4) == 2 && Log2(8) == 3 && Log2(16) == 4;
    assert Log2(32) == 5 && Log2(64) == 6 && Log2(128) == 7 && Log2(256) == 8 && Log2(512) == 9;
    assert Pow2(1) == 2 && Pow2(2) == 4 && Pow2(3) == 8 && Pow2(4) == 16 && Pow2(5) == 32;
  }

  /** The inline scene loop of the CPU sample: the agent buffer that `generateScene`
      builds for the selected scene, 1024 agents and the sample's agent scale. */
  method CpuInitialAgentData(draws: seq<real>) returns (initialAgentData: array<real>)
    requires CpuNumAgents <= |draws|
    ensures fresh(initialAgentData)
    ensures initialAgentData.Length == Stride * CpuNumAgents
    ensures initialAgentData[..] == Encode(SceneAgents(SelectedScene, CpuNumAgents, CpuParams.agentScale, draws))
  {
    CpuSquareGrid();
    initialAgentData := GenerateScene(SelectedScene, CpuNumAgents, CpuParams.agentScale, draws);
  }
}
