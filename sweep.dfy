/** The stage schedule of one solver step and the order in which a stage visits agents.

    The stage loops copy each agent shallowly (`{ ...agents_r[i] }`), so the in-place vector
    operations of a stage write into the vectors that the read array and the write array
    share. Every stage therefore behaves as one list updated in index order: agent i is
    computed from the list in which agents 0 .. i-1 already hold their new values and
    agents i+1 .. n-1 still hold their old ones. `Sweep` is that order of updates. */
module CrowdSchedule {
  import opened Vec2Math
  import opened AgentCodec
  import opened CrowdStages

  /** The four kinds of stage; a long-range stage knows its 0-based iteration. Finalize is
      the stage as the loop is written; CorrectedFinalize is the same stage with the
      cohesion test it evidently intends. */
  datatype Stage = Blend | ShortRange | LongRange(itr: nat) | Finalize | CorrectedFinalize

  /** The new value of agent i in stage st, computed from the current list s. */
  function UpdateAgent(st: Stage, p: SimParams, m: MathLib, s: seq<Agent>, i: nat): Agent
    requires ValidParams(p)
    requires i < |s|
  {
    match st
    case Blend => BlendAgent(p, m, s[i])
    case ShortRange => ShortRangeAgent(p, m, s, i)
    case LongRange(itr) => LongRangeAgent(p, m, s, i, itr)
    case Finalize => FinalizeAgentAsWritten(p, m, s, i)
    case CorrectedFinalize => FinalizeAgent(p, m, s, i)
  }

  /** The list after agents 0 .. k-1 have been updated in order, each from the list as it
      stands when its turn comes. */
  function Sweep(st: Stage, p: SimParams, m: MathLib, s: seq<Agent>, k: nat): (r: seq<Agent>)
    requires ValidParams(p)
    requires k <= |s|
    ensures |r| == |s|
  {
    if k == 0 then s
    else
      var t := Sweep(st, p, m, s, k - 1);
      t[k - 1 := UpdateAgent(st, p, m, t, k - 1)]
  }

  /** One pass of a stage over every agent. */
  function Pass(st: Stage, p: SimParams, m: MathLib, s: seq<Agent>): (r: seq<Agent>)
    requires ValidParams(p)
    ensures |r| == |s|
  {
    Sweep(st, p, m, s, |s|)
  }

  /** One more agent visited: the list at its turn with agent i replaced by its update. */
  lemma SweepStep(st: Stage, p: SimParams, m: MathLib, s: seq<Agent>, i: nat, t: seq<Agent>, a: Agent)
    requires ValidParams(p)
    requires i < |s|
    requires t == Sweep(st, p, m, s, i)
    requires a == UpdateAgent(st, p, m, t, i)
    ensures Sweep(st, p, m, s, i + 1) == t[i := a]
  {
  }

  /** Agents the sweep has not reached yet still hold their old values. */
  lemma {:induction false} SweepUntouched(st: Stage, p: SimParams, m: MathLib, s: seq<Agent>, k: nat, j: nat)
    requires ValidParams(p)
    requires k <= j < |s|
    ensures Sweep(st, p, m, s, k)[j] == s[j]
  {
    if k > 0 {
      SweepUntouched(st, p, m, s, k - 1, j);
    }
  }

  /** Agent i, once visited, holds the update computed from the list as it stood at its
      turn: agents before i updated, agents from i on still old. */
  lemma {:induction false} SweepVisited(st: Stage, p: SimParams, m: MathLib, s: seq<Agent>, k: nat, i: nat)
    requires ValidParams(p)
    requires i < k <= |s|
    ensures Sweep(st, p, m, s, k)[i] == UpdateAgent(st, p, m, Sweep(st, p, m, s, i), i)
  {
    if i < k - 1 {
      SweepVisited(st, p, m, s, k - 1, i);
    }
  }

  /** Agent i of a pass, in terms of the list at its turn. */
  lemma PassAt(st: Stage, p: SimParams, m: MathLib, s: seq<Agent>, i: nat)
    requires ValidParams(p)
    requires i < |s|
    ensures Pass(st, p, m, s)[i] == UpdateAgent(st, p, m, Sweep(st, p, m, s, i), i)
    ensures Sweep(st, p, m, s, i)[i] == s[i]
  {
    SweepVisited(st, p, m, s, |s|, i);
    SweepUntouched(st, p, m, s, i, i);
  }

  /** The fields a stage may change, as a relation between an agent's old value a and its
      new value r: blend keeps pos; short range moves pos and ppos by the same amount and
      keeps vel; long range changes only ppos; finalize keeps ppos and advances pos along
      the new velocity. No stage changes the goal. */
  ghost predicate Frame(st: Stage, p: SimParams, a: Agent, r: Agent) {
    r.goal == a.goal &&
    match st
    case Blend => r.pos == a.pos
    case ShortRange => r.vel == a.vel && Sub(r.pos, a.pos) == Sub(r.ppos, a.ppos)
    case LongRange(_) => r.pos == a.pos && r.vel == a.vel
    case Finalize => r.ppos == a.ppos && r.pos == ScaleAndAdd(a.pos, r.vel, p.deltaT)
    case CorrectedFinalize => r.ppos == a.ppos && r.pos == ScaleAndAdd(a.pos, r.vel, p.deltaT)
  }

  lemma UpdateAgentFrame(st: Stage, p: SimParams, m: MathLib, s: seq<Agent>, i: nat)
    requires ValidParams(p)
    requires i < |s|
    ensures Frame(st, p, s[i], UpdateAgent(st, p, m, s, i))
  {
  }

  /** Every pass keeps the frame of its stage for every agent. */
  lemma PassFrame(st: Stage, p: SimParams, m: MathLib, s: seq<Agent>, i: nat)
    requires ValidParams(p)
    requires i < |s|
    ensures Frame(st, p, s[i], Pass(st, p, m, s)[i])
  {
    PassAt(st, p, m, s, i);
    UpdateAgentFrame(st, p, m, Sweep(st, p, m, s, i), i);
  }

  /** Blending reads only the agent itself, so its sweep is the same as updating every
      agent from the old list. */
  lemma BlendPassPointwise(p: SimParams, m: MathLib, s: seq<Agent>, i: nat)
    requires ValidParams(p)
    requires i < |s|
    ensures Pass(Blend, p, m, s)[i] == BlendAgent(p, m, s[i])
  {
    PassAt(Blend, p, m, s, i);
  }

  /** With an exact square root, every agent leaves a finalize pass, as written or
      corrected, no faster than 1.2 * agentSpeed. */
  lemma FinalizePassSpeedBound(st: Stage, p: SimParams, m: MathLib, s: seq<Agent>, i: nat)
    requires st == Finalize || st == CorrectedFinalize
    requires ValidParams(p) && ExactSqrt(m)
    requires i < |s|
    ensures Length(m, Pass(st, p, m, s)[i].vel) <= MaxSpeed(p)
  {
    PassAt(st, p, m, s, i);
    if st == Finalize {
      FinalizeAsWrittenSpeedBound(p, m, Sweep(st, p, m, s, i), i);
    } else {
      FinalizeSpeedBound(p, m, Sweep(st, p, m, s, i), i);
    }
  }

  // ----------------------------------------------------------------- the schedule

  function ShortRanges(n: nat): seq<Stage> { seq(n, _ => ShortRange) }

  function LongRanges(n: nat): (r: seq<Stage>)
    ensures |r| == n
  {
    seq(n, (k: nat) requires k < n => LongRange(k))
  }

  lemma ShortRangesSnoc(n: nat)
    ensures ShortRanges(n + 1) == ShortRanges(n) + [ShortRange]
  {
  }

  lemma LongRangesSnoc(n: nat)
    ensures LongRanges(n + 1) == LongRanges(n) + [LongRange(n)]
  {
  }

  /** The stages of one step: blend, short range stabilityIterations times, long range
      constraintIterations times (iterations 0, 1, ...), finalize. */
  function Schedule(p: SimParams): seq<Stage> {
    [Blend] + ShortRanges(p.stabilityIterations) + LongRanges(p.constraintIterations) + [Finalize]
  }

  lemma ScheduleShape(p: SimParams)
    ensures |Schedule(p)| == 2 + p.stabilityIterations + p.constraintIterations
    ensures Schedule(p)[0] == Blend
    ensures forall k :: 1 <= k <= p.stabilityIterations ==> Schedule(p)[k] == ShortRange
    ensures forall k :: 0 <= k < p.constraintIterations ==>
              Schedule(p)[1 + p.stabilityIterations + k] == LongRange(k)
    ensures Schedule(p)[|Schedule(p)| - 1] == Finalize
  {
  }

  /** The passes of `stages`, in order. */
  function RunStages(p: SimParams, m: MathLib, stages: seq<Stage>, s: seq<Agent>): (r: seq<Agent>)
    requires ValidParams(p)
    ensures |r| == |s|
  {
    if stages == [] then s
    else Pass(stages[|stages| - 1], p, m, RunStages(p, m, stages[..|stages| - 1], s))
  }

  lemma RunStagesSnoc(p: SimParams, m: MathLib, stages: seq<Stage>, st: Stage, s: seq<Agent>)
    requires ValidParams(p)
    ensures RunStages(p, m, stages + [st], s) == Pass(st, p, m, RunStages(p, m, stages, s))
  {
    assert (stages + [st])[..|stages|] == stages;
  }

  /** One call of `updateAgents`. */
  function Step(p: SimParams, m: MathLib, s: seq<Agent>): (r: seq<Agent>)
    requires ValidParams(p)
    ensures |r| == |s|
  {
    RunStages(p, m, Schedule(p), s)
  }

  /** Running two stage lists one after the other is running their concatenation. */
  lemma {:induction false} RunStagesAppend(p: SimParams, m: MathLib, a: seq<Stage>, b: seq<Stage>, s: seq<Agent>)
    requires ValidParams(p)
    ensures RunStages(p, m, a + b, s) == RunStages(p, m, b, RunStages(p, m, a, s))
  {
    if b == [] {
      assert a + b == a;
    } else {
      var b' := b[..|b| - 1];
      var st := b[|b| - 1];
      assert b == b' + [st];
      assert a + b == (a + b') + [st];
      RunStagesAppend(p, m, a, b', s);
      RunStagesSnoc(p, m, a + b', st, s);
      RunStagesSnoc(p, m, b', st, RunStages(p, m, a, s));
    }
  }

  /** A step as its four phases: blend, the short-range passes, the long-range passes and
      finalize. */
  lemma StepStages(p: SimParams, m: MathLib, s0: seq<Agent>, s1: seq<Agent>, s2: seq<Agent>,
                   s3: seq<Agent>, s4: seq<Agent>)
    requires ValidParams(p)
    requires s1 == Pass(Blend, p, m, s0)
    requires s2 == RunStages(p, m, ShortRanges(p.stabilityIterations), s1)
    requires s3 == RunStages(p, m, LongRanges(p.constraintIterations), s2)
    requires s4 == Pass(Finalize, p, m, s3)
    ensures s4 == Step(p, m, s0)
  {
    RunStagesSnoc(p, m, [], Blend, s0);
    assert [] + [Blend] == [Blend];
    RunStagesAppend(p, m, [Blend], ShortRanges(p.stabilityIterations), s0);
    RunStagesAppend(p, m, [Blend] + ShortRanges(p.stabilityIterations), LongRanges(p.constraintIterations), s0);
    RunStagesSnoc(p, m, [Blend] + ShortRanges(p.stabilityIterations) + LongRanges(p.constraintIterations), Finalize, s0);
  }

  /** No stage writes a goal, so no sequence of stages changes one. */
  lemma {:induction false} RunStagesKeepGoals(p: SimParams, m: MathLib, stages: seq<Stage>, s: seq<Agent>, i: nat)
    requires ValidParams(p)
    requires i < |s|
    ensures RunStages(p, m, stages, s)[i].goal == s[i].goal
  {
    if stages != [] {
      var prefix := stages[..|stages| - 1];
      RunStagesKeepGoals(p, m, prefix, s, i);
      PassFrame(stages[|stages| - 1], p, m, RunStages(p, m, prefix, s), i);
    }
  }

  lemma StepKeepsGoals(p: SimParams, m: MathLib, s: seq<Agent>, i: nat)
    requires ValidParams(p)
    requires i < |s|
    ensures Step(p, m, s)[i].goal == s[i].goal
  {
    RunStagesKeepGoals(p, m, Schedule(p), s, i);
  }

  /** A step ends with the finalize pass, so with an exact square root no agent is faster
      than 1.2 * agentSpeed after it. */
  lemma StepSpeedBound(p: SimParams, m: MathLib, s: seq<Agent>, i: nat)
    requires ValidParams(p) && ExactSqrt(m)
    requires i < |s|
    ensures Length(m, Step(p, m, s)[i].vel) <= MaxSpeed(p)
  {
    StepsShareBody(p, m, s);
    FinalizePassSpeedBound(Finalize, p, m, RunStages(p, m, Body(p), s), i);
  }

  // ------------------------------------------------------- the corrected step

  /** The stages before finalize. */
  function Body(p: SimParams): seq<Stage> {
    [Blend] + ShortRanges(p.stabilityIterations) + LongRanges(p.constraintIterations)
  }

  /** The schedule with the cohesion test the finalize loop evidently intends. */
  function CorrectedSchedule(p: SimParams): seq<Stage> {
    Body(p) + [CorrectedFinalize]
  }

  /** One step with the intended cohesion. */
  function StepCorrected(p: SimParams, m: MathLib, s: seq<Agent>): (r: seq<Agent>)
    requires ValidParams(p)
    ensures |r| == |s|
  {
    RunStages(p, m, CorrectedSchedule(p), s)
  }

  /** The step as written and the corrected step run the same blend, short-range and
      long-range passes and differ only in the finalize pass that ends them. */
  lemma StepsShareBody(p: SimParams, m: MathLib, s: seq<Agent>)
    requires ValidParams(p)
    ensures Step(p, m, s) == Pass(Finalize, p, m, RunStages(p, m, Body(p), s))
    ensures StepCorrected(p, m, s) == Pass(CorrectedFinalize, p, m, RunStages(p, m, Body(p), s))
  {
    assert Schedule(p) == Body(p) + [Finalize];
    RunStagesSnoc(p, m, Body(p), Finalize, s);
    RunStagesSnoc(p, m, Body(p), CorrectedFinalize, s);
  }

  lemma StepCorrectedKeepsGoals(p: SimParams, m: MathLib, s: seq<Agent>, i: nat)
    requires ValidParams(p)
    requires i < |s|
    ensures StepCorrected(p, m, s)[i].goal == s[i].goal
  {
    RunStagesKeepGoals(p, m, CorrectedSchedule(p), s, i);
  }

  lemma StepCorrectedSpeedBound(p: SimParams, m: MathLib, s: seq<Agent>, i: nat)
    requires ValidParams(p) && ExactSqrt(m)
    requires i < |s|
    ensures Length(m, StepCorrected(p, m, s)[i].vel) <= MaxSpeed(p)
  {
    StepsShareBody(p, m, s);
    FinalizePassSpeedBound(CorrectedFinalize, p, m, RunStages(p, m, Body(p), s), i);
  }
}
