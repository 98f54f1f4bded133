# Crowd simulation: a verified model of the CPU solver, its scenes and the GPU schedule

This project models, in Dafny, the core of the WebGPU crowd-simulation sample:

- The CPU sample (`crowd-simulation-cpu/main.ts`):
  - the stride-8 agent buffer codec (`buffer2ObjArray`, `objArray2Buffer`);
  - one solver step, `updateAgents`. It has four stages: blend velocity, short-range collision, long-range (time-to-collision) collision, and finalize velocity with cohesion. The stages run over two ping-pong agent arrays;
  - the agent scale formula and the sample's inline scene loop.
- The scene generator `generateScene` (`crowd-simulation-cpu/scenes/scenes.ts`): RANDOM, SQUARE and the unhandled CIRCLE.
- The GPU sample (`crowd-simulation/main.ts`):
  - the list of compute pipelines built per frame;
  - the two agent buffers and their bind groups;
  - `switchBindGroup`, `getRenderBuffer` and the dispatch loop of a frame;
  - the initial RANDOM agent data.

## How the model is organised

- `vec2.dfy` (module `Vec2Math`) holds the few gl-matrix `vec2` operations the solver uses, over exact reals.
  - `Math.sqrt`, `Math.exp` and `Math.pow` are tables in a `MathLib` value that every member needing them takes as a parameter.
  - Only what a property needs is assumed of them. A square root of a positive number is positive; a power of a positive base is positive. The law of an exact square root is the predicate `ExactSqrt`, which the speed-clamp lemmas require.
- `agent.dfy` (module `AgentCodec`) holds the agent record and the buffer codec.
  - Layout: pos at offsets 0-1, vel at 2-3, ppos at 4-5, goal at 6-7.
  - Both conversions are loops over arrays, proved against `Encode` and `Decode`. The two round trips are lemmas.
- `stages.dfy` (module `CrowdStages`) holds the new value of one agent in each stage. Each is a function of the current agent list.
- `sweep.dfy` (module `CrowdSchedule`) holds how a stage visits the agents, and the stage schedule of one step.
  - The stage loops copy an agent shallowly (`{ ...agents_r[i] }`). The in-place `vec2` operations then write into vectors that the read array and the write array share.
  - So a stage behaves as one list updated in index order: agent i is computed from a list in which agents 0 .. i-1 already hold their new values. `Sweep` is that order.
  - The model does not claim that the result is independent of that order.
- `passes.dfy` (module `CrowdSolver`) holds the imperative solver: one method per stage loop and per inner neighbour loop, with `swap()` and `updateAgents`. Each is proved against the functions above.
- `scenes.dfy` (module `CrowdScenes`) holds the scene generator. The values of `Math.random()` are an input sequence `draws`, consumed in call order.
- `cpu_sample.dfy` (module `CrowdCpuSample`) holds the CPU sample's own scene: 1024 SQUARE agents.
- `gpu.dfy` (module `CrowdGpu`) holds the GPU schedule and the `ComputeSim` class, which carries the two buffers, the two bind groups and the current group.
  - The WGSL shaders are not part of this model. A dispatch is a `Kernel` parameter that computes the new contents of the write buffer.

The model follows the code as written, in two places where it matters:

- Every stage updates the shared vectors in place, in index order, so the result can depend on agent order. That is what `Sweep` models, and no order independence is claimed.
- The cohesion loop of finalize evidently means to accumulate over agents with exactly equal goals, but its skip test indexes a boolean and skips every agent (see Findings). The solver, `Step`, `UpdateAgents` and `CpuFrame` model the loop as written. The intended stage is kept beside it as the stage `CorrectedFinalize` and the step `StepCorrected`, with the same goal and speed properties.

## Model

| member | source | states |
|---|---|---|
| AgentCodec.RecordRoundTrip | src/sample/crowd-simulation-cpu/main.ts:205-210 | reading back the eight floats written for an agent gives the same agent |
| AgentCodec.FromRecordRoundTrip | src/sample/crowd-simulation-cpu/main.ts:219-230 | writing the agent read from eight floats gives back the same eight floats |
| AgentCodec.EncodeAt | src/sample/crowd-simulation-cpu/main.ts:218-231 | slot 8i+k of the buffer holds field k of agent i (pos 0-1, vel 2-3, ppos 4-5, goal 6-7) |
| AgentCodec.DecodeAt | src/sample/crowd-simulation-cpu/main.ts:204-211 | decoded agent i is built from slots 8i .. 8i+7 |
| AgentCodec.DecodeEncode | src/sample/crowd-simulation-cpu/main.ts:202-233 | decoding an encoded agent list gives back the list |
| AgentCodec.EncodeDecode | src/sample/crowd-simulation-cpu/main.ts:202-233 | encoding the first n decoded agents gives back the first 8n floats of any buffer |
| AgentCodec.EncodeSnoc | src/sample/crowd-simulation-cpu/main.ts:218-231 | encoding one more agent appends exactly its eight floats |
| AgentCodec.Buffer2ObjArray | src/sample/crowd-simulation-cpu/main.ts:202-214 | the loop returns a fresh array holding the decoded agents |
| AgentCodec.StoreRecord | src/sample/crowd-simulation-cpu/main.ts:219-230 | the eight writes of one agent set slots off .. off+7 to its record and leave every other slot unchanged |
| AgentCodec.ObjArray2Buffer | src/sample/crowd-simulation-cpu/main.ts:216-233 | the loop returns a fresh buffer holding the encoding of the first numAgents agents |
| CrowdStages.ScaleExponent | src/sample/crowd-simulation-cpu/main.ts:37-38 | the exponent e is the largest with 512 * 4^e <= numAgents, and is 0 below 2048 |
| CrowdStages.AgentScale | src/sample/crowd-simulation-cpu/main.ts:37-38 | the agent scale lies in (0, 1] |
| CrowdStages.AgentScaleQuadruple | src/sample/crowd-simulation-cpu/main.ts:37-38 | from 512 agents on, four times the agents halve the agent scale |
| CrowdStages.CpuParamsValid | src/sample/crowd-simulation-cpu/main.ts:32-39 | the CPU sample's 1024 agents give agent scale 1 and valid parameters |
| CrowdStages.BlendAgent | src/sample/crowd-simulation-cpu/main.ts:264-290 | blend keeps pos and goal, sets vel to 0.0385 of the goal-seeking velocity plus 0.9615 of the old one, and sets ppos - pos to vel * deltaT |
| CrowdStages.SRContactsMembers | src/sample/crowd-simulation-cpu/main.ts:301-329 | agent k counts as a short-range contact exactly when k is before the bound, k != i, the planned distance is at most nearRadius and the overlap f is negative |
| CrowdStages.SRCountIsContacts | src/sample/crowd-simulation-cpu/main.ts:317-328 | neighborCount equals the number of short-range contacts |
| CrowdStages.ShortRangeAgent | src/sample/crowd-simulation-cpu/main.ts:331-337 | short range keeps vel and goal and moves pos and ppos by the same increment; without contacts the agent is unchanged |
| CrowdStages.ShortRangeKeepsPlan | src/sample/crowd-simulation-cpu/main.ts:334-335 | short range preserves ppos - pos |
| CrowdStages.ContactUsesOverlap | src/sample/crowd-simulation-cpu/main.ts:350-371 | every pair j != i that passes the farRadius and overlap guards gets the collision computation, and for it the squared contact distance is (r - dist)^2: the r * r case is never reached from the loop |
| CrowdStages.ContactTime | src/sample/crowd-simulation-cpu/main.ts:385-401 | an accepted contact time lies in [eps, t0], and then the discriminant is non-negative and abs(a) >= eps |
| CrowdStages.QuantizeBrackets | src/sample/crowd-simulation-cpu/main.ts:403-405 | for dt > 0 and t >= 0, 0 <= t_nocollision <= t < t_nocollision + dt = t_collision |
| CrowdStages.LRPushGuards | src/sample/crowd-simulation-cpu/main.ts:350-371 | a long-range push exists only for j != i with current distance below 2 * agentRadius, and so within farRadius |
| CrowdStages.LongRangeAgent | src/sample/crowd-simulation-cpu/main.ts:441-449 | long range changes only ppos; without contacts the agent is unchanged |
| CrowdStages.Poly6Kernel | src/sample/crowd-simulation-cpu/main.ts:458-467 | the kernel is 0 outside [eps, 217] |
| CrowdStages.Poly6KernelNonNegative | src/sample/crowd-simulation-cpu/main.ts:458-467 | the kernel is never negative |
| CrowdStages.Poly6KernelPositive | src/sample/crowd-simulation-cpu/main.ts:461-464 | the kernel is positive on [eps, 217) |
| CrowdStages.CohesionNeedsNeighbours | src/sample/crowd-simulation-cpu/main.ts:478-500 | the corrected cohesion sum is zero when no j != i has an equal goal within cohesionRadius |
| CrowdStages.CohesionSingleNeighbour | src/sample/crowd-simulation-cpu/main.ts:489-499 | one neighbour with a different velocity inside the kernel's support gives a non-zero corrected sum |
| CrowdStages.CohesionAsWrittenIsZero | src/sample/crowd-simulation-cpu/main.ts:484-487 | as written, the skip test skips every j, so the cohesion sum is always zero |
| CrowdStages.CohesionAsWrittenDiffers | src/sample/crowd-simulation-cpu/main.ts:484-500 | for two agents with the same goal 0.1 apart the written sum is zero and the intended one is not |
| CrowdStages.ClampSpeedBound | src/sample/crowd-simulation-cpu/main.ts:505-511 | with an exact square root, a clamped velocity is never longer than maxSpeed |
| CrowdStages.FinalizeAgent | src/sample/crowd-simulation-cpu/main.ts:469-516 | the intended finalize, with the equal-goal cohesion test, keeps ppos and goal, and the new pos is the old pos plus the new vel times deltaT |
| CrowdStages.FinalizeAgentAsWritten | src/sample/crowd-simulation-cpu/main.ts:469-516 | finalize as written keeps ppos and goal, and the new pos is the old pos plus the new vel times deltaT |
| CrowdStages.FinalizeSpeedBound | src/sample/crowd-simulation-cpu/main.ts:505-514 | with an exact square root, the velocity of the intended finalize is at most 1.2 * agentSpeed long |
| CrowdStages.FinalizeAsWrittenSpeedBound | src/sample/crowd-simulation-cpu/main.ts:505-514 | with an exact square root, the velocity of finalize as written is at most 1.2 * agentSpeed long |
| CrowdStages.FinalizeAsWrittenIgnoresCohesion | src/sample/crowd-simulation-cpu/main.ts:469-514 | as written, finalize's velocity is the clamped (ppos - pos) / deltaT, and it agrees with the corrected finalize when the corrected cohesion sum is zero |
| CrowdSchedule.SweepUntouched | src/sample/crowd-simulation-cpu/main.ts:265-290 | agents not yet visited keep their old values |
| CrowdSchedule.SweepVisited | src/sample/crowd-simulation-cpu/main.ts:265-290 | a visited agent holds its update computed from the list in which only the earlier agents have been updated |
| CrowdSchedule.PassAt | src/sample/crowd-simulation-cpu/main.ts:294-339 | after a pass, agent i holds its update from the list in which agents 0 .. i-1 are already updated and agent i is still old |
| CrowdSchedule.UpdateAgentFrame | src/sample/crowd-simulation-cpu/main.ts:264-516 | no stage writes goal; blend keeps pos; short range keeps vel and ppos - pos; long range keeps pos and vel; finalize keeps ppos |
| CrowdSchedule.PassFrame | src/sample/crowd-simulation-cpu/main.ts:264-516 | the same field frame holds for every agent after a whole pass |
| CrowdSchedule.BlendPassPointwise | src/sample/crowd-simulation-cpu/main.ts:265-290 | blend reads only its own agent, so its in-order pass equals blending every agent independently |
| CrowdSchedule.FinalizePassSpeedBound | src/sample/crowd-simulation-cpu/main.ts:455-517 | every agent leaves the finalize pass, as written or corrected, at most 1.2 * agentSpeed fast |
| CrowdSchedule.ScheduleShape | src/sample/crowd-simulation-cpu/main.ts:264-455 | a step runs blend once, short range stabilityIterations times, long range for itr = 0 .. constraintIterations-1 in order, then finalize |
| CrowdSchedule.RunStagesAppend | src/sample/crowd-simulation-cpu/main.ts:264-455 | running two stage lists one after the other equals running their concatenation |
| CrowdSchedule.StepStages | src/sample/crowd-simulation-cpu/main.ts:244-520 | blend, the short-range passes, the long-range passes and finalize together make one step |
| CrowdSchedule.RunStagesKeepGoals | src/sample/crowd-simulation-cpu/main.ts:264-517 | no sequence of stages changes an agent's goal |
| CrowdSchedule.StepKeepsGoals | src/sample/crowd-simulation-cpu/main.ts:244-520 | a step never changes an agent's goal |
| CrowdSchedule.StepSpeedBound | src/sample/crowd-simulation-cpu/main.ts:505-514 | after a step, every agent is at most 1.2 * agentSpeed fast |
| CrowdSchedule.StepsShareBody | src/sample/crowd-simulation-cpu/main.ts:264-517 | the step as written and the corrected step run the same blend, short-range and long-range passes and differ only in the finalize pass that ends them |
| CrowdSchedule.StepCorrectedKeepsGoals | src/sample/crowd-simulation-cpu/main.ts:264-517 | the corrected step never changes an agent's goal |
| CrowdSchedule.StepCorrectedSpeedBound | src/sample/crowd-simulation-cpu/main.ts:505-514 | after a corrected step, every agent is at most 1.2 * agentSpeed fast |
| CrowdSolver.BlendUpdate | src/sample/crowd-simulation-cpu/main.ts:266-288 | the body of the blend loop computes the blended agent |
| CrowdSolver.BlendPass | src/sample/crowd-simulation-cpu/main.ts:264-291 | the blend loop leaves in both arrays the in-order blend pass of the read array |
| CrowdSolver.ShortRangeSum | src/sample/crowd-simulation-cpu/main.ts:298-329 | the j loop returns the short-range sum of pushes and the contact count |
| CrowdSolver.ShortRangeUpdate | src/sample/crowd-simulation-cpu/main.ts:296-337 | the body of the short-range loop computes the short-range agent |
| CrowdSolver.ShortRangePass | src/sample/crowd-simulation-cpu/main.ts:295-338 | the short-range loop leaves in both arrays the in-order short-range pass |
| CrowdSolver.TimeToCollision | src/sample/crowd-simulation-cpu/main.ts:385-401 | the discriminant, the root and the pruning compute the contact time |
| CrowdSolver.CollisionCorrection | src/sample/crowd-simulation-cpu/main.ts:364-437 | the body for one pair computes that pair's long-range push, or none |
| CrowdSolver.CorrectionAt | src/sample/crowd-simulation-cpu/main.ts:403-437 | for an accepted contact time, the body computes the push at collision time |
| CrowdSolver.LongRangeSum | src/sample/crowd-simulation-cpu/main.ts:347-439 | the j loop returns the weighted long-range sum and the contact count |
| CrowdSolver.LongRangeUpdate | src/sample/crowd-simulation-cpu/main.ts:345-449 | the body of the long-range loop computes the long-range agent |
| CrowdSolver.LongRangePass | src/sample/crowd-simulation-cpu/main.ts:344-450 | the long-range loop leaves in both arrays the in-order long-range pass for iteration itr |
| CrowdSolver.CohesionSum | src/sample/crowd-simulation-cpu/main.ts:476-500 | the j loop returns the cohesion sum with the skip test as written, which `CohesionAsWrittenIsZero` shows is zero |
| CrowdSolver.FinalizeUpdate | src/sample/crowd-simulation-cpu/main.ts:456-516 | the body of the finalize loop computes the agent finalized as written |
| CrowdSolver.FinalizePass | src/sample/crowd-simulation-cpu/main.ts:455-517 | the finalize loop leaves in both arrays the in-order finalize pass as written |
| CrowdSolver.StabilityLoop | src/sample/crowd-simulation-cpu/main.ts:294-340 | n short-range passes with a swap after each leave both arrays equal to n passes of the input; the read role has moved n times |
| CrowdSolver.ConstraintLoop | src/sample/crowd-simulation-cpu/main.ts:343-452 | long-range passes for itr = 0 .. n-1 with a swap after each leave both arrays equal to those passes of the input |
| CrowdSolver.UpdateAgents | src/sample/crowd-simulation-cpu/main.ts:244-520 | updateAgents returns the array finalize wrote, agents_b when 1 + stabilityIterations + constraintIterations is even and agents_a otherwise; its contents are one step, as written, of the input, and both arrays end equal |
| CrowdSolver.CpuFrame | src/sample/crowd-simulation-cpu/main.ts:530-533 | the CPU frame's next buffer is the encoding of one step, as written, of the decoded buffer |
| CrowdScenes.GridSize | src/sample/crowd-simulation-cpu/scenes/scenes.ts:43-45 | x_count * y_count = numAgents / 2 |
| CrowdScenes.CellInRange | src/sample/crowd-simulation-cpu/scenes/scenes.ts:42-49 | every agent's cell lies in [0, x_count) x [0, y_count) |
| CrowdScenes.CellInjective | src/sample/crowd-simulation-cpu/scenes/scenes.ts:42-49 | two agents of one cohort with the same cell are the same agent |
| CrowdScenes.CellCovered | src/sample/crowd-simulation-cpu/scenes/scenes.ts:42-49 | every cell of the grid holds an agent of each cohort |
| CrowdScenes.RandomAgentAt | src/sample/crowd-simulation-cpu/scenes/scenes.ts:10-26 | the RANDOM branch computes scene agent i from draws 4i .. 4i+3 |
| CrowdScenes.SquareAgentAt | src/sample/crowd-simulation-cpu/scenes/scenes.ts:27-69 | the SQUARE branch computes scene agent i from draw i |
| CrowdScenes.WriteSceneAgent | src/sample/crowd-simulation-cpu/scenes/scenes.ts:10-70 | one loop iteration writes agent i's record into slots 8i .. 8i+7 and leaves the other slots as they were |
| CrowdScenes.GenerateScene | src/sample/crowd-simulation-cpu/scenes/scenes.ts:3-73 | the result is a fresh buffer of 8 * numAgents floats holding the scene's agents, so 0 agents give an empty buffer |
| CrowdScenes.ScenePposIsPos | src/sample/crowd-simulation-cpu/scenes/scenes.ts:22-23 | every scene agent starts with ppos == pos |
| CrowdScenes.CircleIsZero | src/sample/crowd-simulation-cpu/scenes/scenes.ts:8-71 | a CIRCLE scene leaves every slot zero |
| CrowdScenes.RandomAgent | src/sample/crowd-simulation-cpu/scenes/scenes.ts:10-26 | RANDOM goals are (1, 1) for even and (-1, -1) for odd agents; with draws in [0, 1), pos lies in [-1, 1) and vel in [-0.1, 0.1) per axis |
| CrowdScenes.SquareCohort | src/sample/crowd-simulation-cpu/scenes/scenes.ts:31-41 | even agents use the top box, velocity (0, -0.1 * agentScale) and goal (0, -1); odd agents use the bottom box, velocity (0, 0.1 * agentScale) and goal (0, 1) |
| CrowdScenes.SquareJitter | src/sample/crowd-simulation-cpu/scenes/scenes.ts:52-60 | the perturbation uses one randomVal on both axes and is at most x_offset / 5 and y_offset / 5 |
| CrowdScenes.SquareCohortsSeparated | src/sample/crowd-simulation-cpu/scenes/scenes.ts:31-60 | even SQUARE agents start strictly above the x axis and odd ones strictly below |
| CrowdCpuSample.CpuSquareGrid | src/sample/crowd-simulation-cpu/main.ts:32 | 1024 agents suit the SQUARE layout, with a 32 x 16 grid per cohort |
| CrowdCpuSample.CpuInitialAgentData | src/sample/crowd-simulation-cpu/main.ts:131-200 | the sample's inline scene loop produces the SQUARE scene of 1024 agents at the sample's agent scale |
| CrowdGpu.BuildPipelines | src/sample/crowd-simulation/main.ts:157-186 | the nested loops build one pipeline per stage of the solver's schedule, in schedule order |
| CrowdGpu.PipelineShape | src/sample/crowd-simulation/main.ts:112-186 | there are 2 + stabilityIterations + constraintIterations pipelines: blend, short range, long range with override constant 1000 set to 1 .. constraintIterations in order, then finalize; only long range carries a constant |
| CrowdGpu.WorkgroupCount | src/sample/crowd-simulation/main.ts:323 | ceil(n / 64) is the least count of 64-wide workgroups that covers n agents |
| CrowdGpu.WorkgroupsCover | src/sample/crowd-simulation/main.ts:323 | every agent index falls in a dispatched workgroup |
| CrowdGpu.BindGroupsPingPong | src/sample/crowd-simulation/main.ts:263-291 | bind group i reads buffer i and writes the other, which the other group reads |
| CrowdGpu.RenderIsLastWrite | src/sample/crowd-simulation/main.ts:320-332 | after a dispatch and a switch, the current group reads the buffer that the dispatch wrote, which holds that dispatch's output; the other buffer keeps what the dispatch read |
| CrowdGpu.FrameParity | src/sample/crowd-simulation/main.ts:320-325 | after n dispatch-and-switch iterations the current group has moved by n modulo 2 |
| CrowdGpu.GpuFrameSwitchesGroup | src/sample/crowd-simulation/main.ts:36-40 | the GPU sample dispatches nine pipelines per frame, so the rendered buffer alternates from frame to frame |
| CrowdGpu.PingPongComposes | src/sample/crowd-simulation/main.ts:320-325 | for shaders that read only their input, the buffer read after a frame holds the frame's pipelines applied in order |
| CrowdGpu.ComputeSim.constructor | src/sample/crowd-simulation/main.ts:249-294 | both buffers start with the initial data, group i reads buffer i and writes buffer (i + 1) % 2, and the first group is the current one |
| CrowdGpu.ComputeSim.SwitchBindGroup | src/sample/crowd-simulation/main.ts:295-300 | switchBindGroup toggles between the two groups and changes nothing else |
| CrowdGpu.ComputeSim.GetRenderBuffer | src/sample/crowd-simulation/main.ts:301-306 | the render buffer is the one that the current bind group reads |
| CrowdGpu.ComputeSim.DispatchWorkgroups | src/sample/crowd-simulation/main.ts:321-323 | a dispatch replaces the current group's write buffer by the kernel's output and changes nothing else |
| CrowdGpu.ComputeSim.Frame | src/sample/crowd-simulation/main.ts:320-325 | the dispatch loop leaves the state of running every pipeline in order, each followed by a switch, and returns the buffer to render |
| CrowdGpu.GpuInitialAgentData | src/sample/crowd-simulation/main.ts:229-247 | the initial GPU data is the RANDOM scene of 1500 agents |
| CrowdGpu.GpuInitialAgents | src/sample/crowd-simulation/main.ts:242-246 | the initial GPU agents have ppos == pos, and goals (1, 1) for even and (-1, -1) for odd agents |
| Vec2Math.ExactEquals | src/sample/crowd-simulation-cpu/main.ts:484 | `exactEquals` is a boolean that is true exactly for equal vectors |
| Vec2Math.ScaledNormalLength | src/sample/crowd-simulation-cpu/main.ts:506-510 | with an exact square root, the normal of a non-zero vector scaled by c >= 0 has length c |

## Left out

- WebGPU plumbing. Adapter, device, canvas, render pipeline, vertex buffers, command encoding, `queue.writeBuffer`, `requestAnimationFrame`, stats and the sample page are device interaction, so none of them is modelled.
- The WGSL compute shaders are not part of this model. A dispatch is an arbitrary `Kernel`, so nothing is claimed about what the GPU solver computes, only about which buffer it reads and writes.
- Floating point. Every value is an exact real; Float32 rounding, NaN and infinities are not modelled, and neither is the solver's convergence.
- `Math.sqrt`, `Math.exp`, `Math.pow` and `Math.PI` are tables in `MathLib`. A missing table entry reads as a fallback value, 1 or 0, chosen so that the positivity laws hold.
- `Math.random` is the input sequence `draws`. The bounds lemmas require draws in [0, 1).
- CrowdStages.AgentScale: the formula's `Math.log` ratio is replaced by the integer exponent it yields for whole numbers of agents. Rounding of the logarithms is not modelled.
- CrowdScenes.GenerateScene: a SQUARE scene requires numAgents to be 0 or twice a power of two. The CPU sample states that its agent count must be a power of two (main.ts line 32). For other counts `log2(numAgents / 2)` is not a whole number and the grid no longer has one cell per agent; a single agent gets x_count = 1 and y_count = 0.5.
- CrowdScenes.WriteSceneAgent: the RANDOM and SQUARE branches compute the agent first and then store its eight slots. The source writes the slots one by one and copies ppos back from the slots just written; the stored values are the same.
- CrowdGpu.ComputeSim.GetRenderBuffer: the source returns `undefined` when the current group is neither bind group. The class invariant `Valid` rules that state out, so it is not modelled.
- CrowdGpu.ComputeSim.SwitchBindGroup: the source leaves a group that is neither bind group unchanged. `Valid` rules that state out, so the method has only two branches.
- Friction and the avoidance model have no code in the source, so they are absent here too.
- Order independence of the stages is not claimed. The code updates shared vectors in place, in index order.
- CrowdSchedule.StepCorrected: the intended cohesion is modelled only as functions (the stage `CorrectedFinalize` and this step); the imperative methods of `CrowdSolver` follow the loop as written.
- The early velocity write of finalize, `vel = (ppos - pos) / deltaT`, is folded into the finalized agent. An agent j < i is read with its final velocity, which is what the in-order sweep gives.

## Findings

| source | as written | input that shows it | evidently intended | confidence | as-written member | corrected member |
|---|---|---|---|---|---|---|
| src/sample/crowd-simulation-cpu/main.ts:484-487 | `vec2.exactEquals` returns a boolean; `equality[0]` and `equality[1]` are `undefined`, so `!equality[0]` is always true and every j is skipped, and cohesion never accumulates | two agents with goal (0, 0), ppos (0, 0) and (0, 0.1), velocities (0, 0) and (1, 0): the written sum is zero, the intended one is not | skip j unless the two goals are exactly equal, then accumulate poly6(d^2) * (vel_i - vel_j) | not executed | CrowdStages.CohesionAsWrittenDiffers | CrowdStages.CohesionSingleNeighbour |
