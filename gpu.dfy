/** The GPU variant of the crowd sample: the list of compute pipelines it dispatches every
    frame, the two agent buffers it ping-pongs between, and the bind group that says which
    of them the next dispatch reads and which it writes.

    The compute shaders themselves are WGSL that this model does not contain. A dispatch
    is therefore a `Kernel` parameter: given the pipeline, the number of workgroups and
    the contents of the buffer bound for reading and of the buffer bound for writing, it
    yields the new contents of the buffer bound for writing. */
module CrowdGpu {
  import opened Vec2Math
  import opened CrowdStages
  import opened CrowdSchedule
  import opened AgentCodec
  import opened CrowdScenes

  // ------------------------------------------------------------------ pipelines

  /** The four compute shaders, each the shared header followed by one stage. */
  datatype Shader = BlendVelocity | SRCollision | LRCollision | FinalizeVelocity

  /** A compute pipeline: its shader and the value of override constant 1000, if any. */
  datatype Pipeline = Pipeline(shader: Shader, constant: Option<nat>)

  const ComputeShaders: seq<Shader> := [BlendVelocity, SRCollision, LRCollision, FinalizeVelocity]

  /** How many pipelines each shader gets: one blend, `stabilityIterations` short-range,
      `constraintIterations` long-range, one finalize. */
  function Iterations(p: SimParams): (r: seq<nat>)
    ensures |r| == 4
  {
    [1, p.stabilityIterations, p.constraintIterations, 1]
  }

  /** The GPU variant: 1500 agents, deltaT 0.01, one stability and six constraint
      iterations. Its parameters carry no agent scale; the value 1 here is unused. */
  const GpuNumAgents: nat := 1500
  const GpuParams: SimParams := SimParams(0.01, 1, 6, 1.0)

  /** The pipeline that runs a stage of the solver's schedule. The long-range stage of
      iteration itr is told its iteration number plus one through constant 1000, the
      value the CPU solver uses as itr + 1 in the same stage. */
  function StagePipeline(st: Stage): Pipeline {
    match st
    case Blend => Pipeline(BlendVelocity, None)
    case ShortRange => Pipeline(SRCollision, None)
    case LongRange(itr) => Pipeline(LRCollision, Some(itr + 1))
    case Finalize => Pipeline(FinalizeVelocity, None)
    case CorrectedFinalize => Pipeline(FinalizeVelocity, None)
  }

  /** The pipelines of one frame: the solver's schedule, stage by stage. */
  function Pipelines(p: SimParams): (r: seq<Pipeline>)
    ensures |r| == |Schedule(p)|
  {
    seq(|Schedule(p)|, (k: nat) requires k < |Schedule(p)| => StagePipeline(Schedule(p)[k]))
  }

  /** The number of pipelines built for the first i shaders. */
  function Before(p: SimParams, i: nat): nat
    requires i <= 4
  {
    if i == 0 then 0 else Before(p, i - 1) + Iterations(p)[i - 1]
  }

  /** Pipeline itr of shader i sits at index Before(p, i) + itr of the frame's list. */
  lemma PipelineAt(p: SimParams, i: nat, itr: nat)
    requires i < 4 && itr < Iterations(p)[i]
    ensures Before(p, i) + itr < |Pipelines(p)|
    ensures Pipelines(p)[Before(p, i) + itr]
         == Pipeline(ComputeShaders[i], if i == 2 then Some(itr + 1) else None)
  {
    BeforeValues(p);
    ScheduleShape(p);
  }

  lemma BeforeValues(p: SimParams)
    ensures Before(p, 1) == 1 && Before(p, 2) == 1 + p.stabilityIterations
    ensures Before(p, 3) == 1 + p.stabilityIterations + p.constraintIterations
    ensures Before(p, 4) == 2 + p.stabilityIterations + p.constraintIterations
  {
    assert Before(p, 1) == 1;
    assert Before(p, 2) == 1 + p.stabilityIterations;
    assert Before(p, 3) == 1 + p.stabilityIterations + p.constraintIterations;
  }

  lemma PrefixSnoc<T>(s: seq<T>, n: nat)
    requires n < |s|
    ensures s[..n + 1] == s[..n] + [s[n]]
  {
  }

  /** The nested loops that build `computePipelines`: for each shader in order, one
      pipeline per iteration, the long-range ones with constant 1000 set to itr + 1. */
  method BuildPipelines(p: SimParams) returns (computePipelines: seq<Pipeline>)
    ensures computePipelines == Pipelines(p)
  {
    computePipelines := [];
    for i := 0 to 4
      invariant Before(p, i) <= |Pipelines(p)|
      invariant computePipelines == Pipelines(p)[..Before(p, i)]
    {
      for itr := 0 to Iterations(p)[i]
        invariant Before(p, i) + itr <= |Pipelines(p)|
        invariant computePipelines == Pipelines(p)[..Before(p, i) + itr]
      {
        if i == 2 {
          computePipelines := computePipelines + [Pipeline(ComputeShaders[i], Some(itr + 1))];
        } else {
          computePipelines := computePipelines + [Pipeline(ComputeShaders[i], None)];
        }
        PipelineAt(p, i, itr);
        PrefixSnoc(Pipelines(p), Before(p, i) + itr);
      }
    }
    BeforeValues(p);
    ScheduleShape(p);
  }

  /** A frame has 1 + stabilityIterations + constraintIterations + 1 pipelines: blend,
      then the short-range ones, then the long-range ones with constants 1, 2, ...,
      constraintIterations in order, then finalize; exactly the long-range pipelines
      carry a constant. */
  lemma PipelineShape(p: SimParams)
    ensures |Pipelines(p)| == 2 + p.stabilityIterations + p.constraintIterations
    ensures Pipelines(p)[0] == Pipeline(BlendVelocity, None)
    ensures forall k :: 1 <= k <= p.stabilityIterations ==> Pipelines(p)[k] == Pipeline(SRCollision, None)
    ensures forall k :: 1 + p.stabilityIterations <= k < 1 + p.stabilityIterations + p.constraintIterations ==>
              Pipelines(p)[k] == Pipeline(LRCollision, Some(k - p.stabilityIterations))
    ensures Pipelines(p)[|Pipelines(p)| - 1] == Pipeline(FinalizeVelocity, None)
    ensures forall k :: 0 <= k < |Pipelines(p)| ==>
              (Pipelines(p)[k].constant.Some? <==> Pipelines(p)[k].shader == LRCollision)
  {
    ScheduleShape(p);
    forall k | 1 + p.stabilityIterations <= k < 1 + p.stabilityIterations + p.constraintIterations
      ensures Pipelines(p)[k] == Pipeline(LRCollision, Some(k - p.stabilityIterations))
    {
      assert Schedule(p)[1 + p.stabilityIterations + (k - 1 - p.stabilityIterations)]
          == LongRange(k - 1 - p.stabilityIterations);
    }
    forall k | 0 <= k < |Pipelines(p)|
      ensures Pipelines(p)[k].constant.Some? <==> Pipelines(p)[k].shader == LRCollision
    {
      assert Pipelines(p)[k] == StagePipeline(Schedule(p)[k]);
    }
  }

  // ------------------------------------------------------------------ workgroups

  const WorkgroupSize: nat := 64

  /** `Math.ceil(numAgents / 64)`. */
  function WorkgroupCount(numAgents: nat): (c: nat)
    ensures WorkgroupSize * c >= numAgents
    ensures 0 < c ==> WorkgroupSize * (c - 1) < numAgents
  {
    (numAgents + 63) / 64
  }

  /** Every agent falls into one of the dispatched workgroups. */
  lemma WorkgroupsCover(numAgents: nat, i: nat)
    requires i < numAgents
    ensures i / WorkgroupSize < WorkgroupCount(numAgents)
  {
  }

  // ------------------------------------------------------------------ ping-pong

  /** A bind group: the agent buffer bound as `agents_read` and the one bound as
      `agents_write`. */
  datatype BindGroup = BindGroup(read: nat, write: nat)

  /** Bind group i reads buffer i and writes the other one. */
  function GroupOf(i: nat): BindGroup { BindGroup(i, (i + 1) % 2) }

  /** The GPU dispatch of one pipeline over a number of workgroups: the new contents of
      the write buffer, from the contents of the read buffer and of the write buffer. */
  type Kernel = (Pipeline, nat, seq<real>, seq<real>) -> seq<real>

  /** The contents of the two agent buffers and the index of the current bind group. */
  datatype SimState = SimState(buffers: seq<seq<real>>, current: nat)

  predicate ValidState(st: SimState) {
    |st.buffers| == 2 && st.current < 2
  }

  /** One iteration of the dispatch loop: run the pipeline with the current bind group,
      then switch to the other group. */
  function Dispatch(k: Kernel, pl: Pipeline, workgroups: nat, st: SimState): (r: SimState)
    requires ValidState(st)
    ensures ValidState(r)
  {
    var g := GroupOf(st.current);
    SimState(st.buffers[g.write := k(pl, workgroups, st.buffers[g.read], st.buffers[g.write])], g.write)
  }

  /** The dispatch loop of one frame over the pipelines `pls`. */
  function RunFrame(k: Kernel, pls: seq<Pipeline>, workgroups: nat, st: SimState): (r: SimState)
    requires ValidState(st)
    ensures ValidState(r)
  {
    if pls == [] then st
    else Dispatch(k, pls[|pls| - 1], workgroups, RunFrame(k, pls[..|pls| - 1], workgroups, st))
  }

  lemma RunFrameSnoc(k: Kernel, pls: seq<Pipeline>, pl: Pipeline, workgroups: nat, st: SimState)
    requires ValidState(st)
    ensures RunFrame(k, pls + [pl], workgroups, st) == Dispatch(k, pl, workgroups, RunFrame(k, pls, workgroups, st))
  {
    assert (pls + [pl])[..|pls|] == pls;
  }

  /** After the last dispatch of a frame, the current bind group reads the buffer that
      dispatch wrote, which then holds the dispatch's output, while the other buffer holds
      what that dispatch read: the buffer rendered and the buffer the next frame's first
      dispatch reads are the one the last dispatch wrote. */
  lemma {:induction false} RenderIsLastWrite(k: Kernel, pls: seq<Pipeline>, pl: Pipeline, workgroups: nat, st: SimState)
    requires ValidState(st)
    ensures var mid := RunFrame(k, pls, workgroups, st);
      var fin := RunFrame(k, pls + [pl], workgroups, st);
      var g := GroupOf(mid.current);
      GroupOf(fin.current).read == g.write &&
      fin.buffers[g.write] == k(pl, workgroups, mid.buffers[g.read], mid.buffers[g.write]) &&
      fin.buffers[g.read] == mid.buffers[g.read]
  {
    RunFrameSnoc(k, pls, pl, workgroups, st);
  }

  /** Every dispatch switches the bind group, so after n dispatches the current group
      index has moved by n modulo 2. */
  lemma {:induction false} FrameParity(k: Kernel, pls: seq<Pipeline>, workgroups: nat, st: SimState)
    requires ValidState(st)
    ensures RunFrame(k, pls, workgroups, st).current == (st.current + |pls|) % 2
  {
    if pls != [] {
      FrameParity(k, pls[..|pls| - 1], workgroups, st);
    }
  }

  /** With one stability and six constraint iterations a frame dispatches nine
      pipelines, so every frame ends on the other bind group: the rendered buffer
      alternates from frame to frame. */
  lemma GpuFrameSwitchesGroup(k: Kernel, st: SimState)
    requires ValidState(st)
    ensures |Pipelines(GpuParams)| == 9
    ensures RunFrame(k, Pipelines(GpuParams), WorkgroupCount(GpuNumAgents), st).current == 1 - st.current
  {
    PipelineShape(GpuParams);
    FrameParity(k, Pipelines(GpuParams), WorkgroupCount(GpuNumAgents), st);
  }

  /** The kernel of a shader whose output depends only on the buffer it reads. */
  function ReadOnly(f: (Pipeline, nat, seq<real>) -> seq<real>): Kernel {
    (pl: Pipeline, wg: nat, r: seq<real>, w: seq<real>) => f(pl, wg, r)
  }

  /** The pipelines applied one after the other to one buffer. */
  function Compose(f: (Pipeline, nat, seq<real>) -> seq<real>, pls: seq<Pipeline>, workgroups: nat, b: seq<real>): seq<real> {
    if pls == [] then b
    else f(pls[|pls| - 1], workgroups, Compose(f, pls[..|pls| - 1], workgroups, b))
  }

  /** The ping-pong is invisible to shaders that read only their input: the buffer the
      current bind group reads after the frame holds the pipelines applied in order to
      the one it read before. */
  lemma {:induction false} PingPongComposes(f: (Pipeline, nat, seq<real>) -> seq<real>, pls: seq<Pipeline>,
                                           workgroups: nat, st: SimState)
    requires ValidState(st)
    ensures var fin := RunFrame(ReadOnly(f), pls, workgroups, st);
      fin.buffers[fin.current] == Compose(f, pls, workgroups, st.buffers[st.current])
  {
    if pls != [] {
      PingPongComposes(f, pls[..|pls| - 1], workgroups, st);
    }
  }

  /** The simulation state of the GPU sample: the two agent buffers, the two bind groups,
      the current one, and the pipelines of a frame. */
  class ComputeSim {
    var agentBuffers: seq<seq<real>>
    var computeBindGroups: seq<BindGroup>
    var computeBindGroup: BindGroup
    var computePipelines: seq<Pipeline>
    var numAgents: nat

    /** Two buffers, group i reading buffer i and writing the other, and the current group
        one of the two. */
    predicate Valid()
      reads this
    {
      |agentBuffers| == 2 &&
      computeBindGroups == [GroupOf(0), GroupOf(1)] &&
      computeBindGroup in computeBindGroups
    }

    /** The index of the current bind group in `computeBindGroups`. */
    function Current(): (c: nat)
      reads this
      requires Valid()
      ensures c < 2 && computeBindGroups[c] == computeBindGroup
    {
      if computeBindGroup == computeBindGroups[0] then 0 else 1
    }

    function State(): (st: SimState)
      reads this
      requires Valid()
      ensures ValidState(st)
    {
      SimState(agentBuffers, Current())
    }

    /** Both agent buffers are created holding the initial agent data; bind group i reads
        buffer i and writes buffer (i + 1) % 2; the first frame starts on group 0. */
    constructor (initialAgentData: seq<real>, p: SimParams, n: nat)
      ensures Valid()
      ensures agentBuffers == [initialAgentData, initialAgentData]
      ensures computeBindGroups == [BindGroup(0, 1), BindGroup(1, 0)]
      ensures computeBindGroup == computeBindGroups[0]
      ensures computePipelines == Pipelines(p)
      ensures numAgents == n
    {
      var pipelines := BuildPipelines(p);
      var buffers: seq<seq<real>> := [];
      for i := 0 to 2
        invariant buffers == seq(i, _ => initialAgentData)
      {
        buffers := buffers + [initialAgentData];
      }
      var groups: seq<BindGroup> := [];
      for i := 0 to 2
        invariant groups == seq(i, (j: nat) => GroupOf(j))
      {
        groups := groups + [BindGroup(i, (i + 1) % 2)];
      }
      agentBuffers := buffers;
      computeBindGroups := groups;
      computeBindGroup := groups[0];
      computePipelines := pipelines;
      numAgents := n;
    }

    /** `switchBindGroup()`: from group 0 to group 1 and back. A group that is neither
        is left alone by the source; `Valid` rules it out. */
    method SwitchBindGroup()
      requires Valid()
      modifies this
      ensures Valid()
      ensures computeBindGroup == (if old(computeBindGroup) == computeBindGroups[0] then computeBindGroups[1]
                                   else computeBindGroups[0])
      ensures State() == old(State()).(current := (old(State()).current + 1) % 2)
      ensures agentBuffers == old(agentBuffers) && computeBindGroups == old(computeBindGroups)
      ensures computePipelines == old(computePipelines) && numAgents == old(numAgents)
    {
      if computeBindGroup == computeBindGroups[0] {
        computeBindGroup := computeBindGroups[1];
      } else {
        computeBindGroup := computeBindGroups[0];
      }
    }

    /** `getRenderBuffer()`: the buffer that the current bind group reads. */
    method GetRenderBuffer() returns (b: nat)
      requires Valid()
      ensures b == Current() && b == computeBindGroup.read
    {
      if computeBindGroup == computeBindGroups[0] {
        b := 0;
      } else {
        b := 1;
      }
    }

    /** `passEncoder.dispatchWorkgroups(...)` with the current bind group: the write
        buffer receives the kernel's output. */
    method DispatchWorkgroups(k: Kernel, pl: Pipeline, workgroups: nat)
      requires Valid()
      modifies this
      ensures Valid()
      ensures agentBuffers == old(agentBuffers)[computeBindGroup.write :=
                k(pl, workgroups, old(agentBuffers)[computeBindGroup.read], old(agentBuffers)[computeBindGroup.write])]
      ensures computeBindGroup == old(computeBindGroup) && computeBindGroups == old(computeBindGroups)
      ensures computePipelines == old(computePipelines) && numAgents == old(numAgents)
    {
      var g := computeBindGroup;
      agentBuffers := agentBuffers[g.write := k(pl, workgroups, agentBuffers[g.read], agentBuffers[g.write])];
    }

    /** The compute part of `frame()`: every pipeline in order, each dispatched over
        ceil(numAgents / 64) workgroups with the current bind group and followed by a
        switch; then the buffer to render. */
    method Frame(k: Kernel) returns (renderBuffer: nat)
      requires Valid()
      modifies this
      ensures Valid()
      ensures State() == RunFrame(k, computePipelines, WorkgroupCount(numAgents), old(State()))
      ensures renderBuffer == Current()
      ensures computeBindGroups == old(computeBindGroups)
      ensures computePipelines == old(computePipelines) && numAgents == old(numAgents)
    {
      ghost var st0 := State();
      for i := 0 to |computePipelines|
        invariant Valid()
        invariant computeBindGroups == old(computeBindGroups)
        invariant computePipelines == old(computePipelines) && numAgents == old(numAgents)
        invariant State() == RunFrame(k, computePipelines[..i], WorkgroupCount(numAgents), st0)
      {
        ghost var before := State();
        DispatchWorkgroups(k, computePipelines[i], WorkgroupCount(numAgents));
        SwitchBindGroup();
        assert State() == Dispatch(k, computePipelines[i], WorkgroupCount(numAgents), before);
        RunFrameSnoc(k, computePipelines[..i], computePipelines[i], WorkgroupCount(numAgents), st0);
        assert computePipelines[..i] + [computePipelines[i]] == computePipelines[..i + 1];
      }
      assert computePipelines[..|computePipelines|] == computePipelines;
      renderBuffer := GetRenderBuffer();
    }
  }

  /** The two bind groups: each reads one buffer and writes the other, and each writes
      the buffer the other one reads. */
  lemma BindGroupsPingPong(i: nat)
    requires i < 2
    ensures GroupOf(i).read == i && GroupOf(i).write == 1 - i
    ensures GroupOf(i).read != GroupOf(i).write
    ensures GroupOf(GroupOf(i).write).write == GroupOf(i).read
  {
  }

  // ------------------------------------------------------------------ initial data

  /** The initial data of the GPU sample: `GpuNumAgents` RANDOM agents, written the way
      the RANDOM branch of the scene generator writes them. */
  method GpuInitialAgentData(draws: seq<real>) returns (initialAgentData: array<real>)
    requires 4 * GpuNumAgents <= |draws|
    ensures fresh(initialAgentData)
    ensures initialAgentData[..] == Encode(SceneAgents(Random, GpuNumAgents, 1.0, draws))
  {
    initialAgentData := new real[GpuNumAgents * 8];
    ghost var agents := SceneAgents(Random, GpuNumAgents, 1.0, draws);
    for i := 0 to GpuNumAgents
      invariant initialAgentData[..8 * i] == Encode(agents[..i])
    {
      ghost var before := initialAgentData[..8 * i];
      var a := RandomAgentAt(GpuNumAgents, 1.0, draws, i);
      assert a == agents[i];
      StoreRecord(initialAgentData, 8 * i, a);
      assert initialAgentData[..8 * (i + 1)] == before + Record(a);
      EncodeSnoc(agents[..i], a);
      assert agents[..i] + [a] == agents[..i + 1];
    }
    assert initialAgentData[..] == initialAgentData[..8 * GpuNumAgents];
    assert agents[..GpuNumAgents] == agents;
  }

  /** The initial GPU agents: even agents head for (1, 1), odd ones for (-1, -1), and
      every planned position starts at the position. */
  lemma GpuInitialAgents(draws: seq<real>, i: nat)
    requires 4 * GpuNumAgents <= |draws|
    requires i < GpuNumAgents
    ensures var a := SceneAgents(Random, GpuNumAgents, 1.0, draws)[i];
      a.ppos == a.pos && a.goal == (if i % 2 == 0 then Vec2(1.0, 1.0) else Vec2(-1.0, -1.0))
  {
  }
}
