/** `updateAgents`: the four stage loops over the two ping-pong arrays, and the CPU frame
    that decodes the agent buffer, steps it and encodes it again.

    A stage loop reads agent i from the read array, updates the vectors it shares with
    that array in place and stores the agent into the write array. In this model the
    update of the shared vectors is the store into the read array, so each loop stores the
    new agent into both arrays.

    The loop bodies are written out statement by statement as the source has them; the
    function of module CrowdStages that each one's `ensures` names is its specification. */
module CrowdSolver {
  import opened Vec2Math
  import opened AgentCodec
  import opened CrowdStages
  import opened CrowdSchedule

  /** The body of the stage-1 loop for agent i; `BlendAgent` is its specification. */
  method BlendUpdate(p: SimParams, m: MathLib, agentsR: array<Agent>, i: nat) returns (agent: Agent)
    requires ValidParams(p)
    requires i < agentsR.Length
    ensures agent == BlendAgent(p, m, agentsR[i])
  {
    agent := agentsR[i];
    var directionToGoal := Normalize(m, Sub(agent.goal, agent.pos));
    var vp := Scale(directionToGoal, AgentSpeed(p));
    var vel := ScaleAndAdd(Scale(vp, BlendFactor), agent.vel, 1.0 - BlendFactor);
    var deltaVel := Scale(vel, p.deltaT);
    agent := Agent(agent.pos, vel, Add(agent.pos, deltaVel), agent.goal);
  }

  /** Stage 1: blend every agent's velocity toward its goal. */
  method BlendPass(p: SimParams, m: MathLib, agentsR: array<Agent>, agentsW: array<Agent>)
    requires ValidParams(p)
    requires agentsR.Length == agentsW.Length
    modifies agentsR, agentsW
    ensures agentsR[..] == Pass(Blend, p, m, old(agentsR[..]))
    ensures agentsW[..] == agentsR[..]
  {
    ghost var s0 := agentsR[..];
    ghost var cur := s0;
    for i := 0 to agentsR.Length
      invariant cur == Sweep(Blend, p, m, s0, i)
      invariant agentsR[..] == cur
      invariant agentsW[..i] == cur[..i]
    {
      var agent := BlendUpdate(p, m, agentsR, i);
      SweepStep(Blend, p, m, s0, i, cur, agent);
      agentsR[i] := agent;
      agentsW[i] := agent;
      cur := cur[i := agent];
    }
  }

  /** The inner loop of stage 2: the pushes on agent i from its short-range contacts. */
  method ShortRangeSum(p: SimParams, m: MathLib, agentsR: array<Agent>, i: nat)
    returns (totalDx: Vec2, neighborCount: nat)
    requires i < agentsR.Length
    ensures Accum(totalDx, neighborCount) == SRAccum(p, m, agentsR[..], i, agentsR.Length)
  {
    var agent := agentsR[i];
    totalDx := Zero;
    neighborCount := 0;
    for j := 0 to agentsR.Length
      invariant Accum(totalDx, neighborCount) == SRAccum(p, m, agentsR[..], i, j)
    {
      if i == j {
        continue;
      }
      var agentJ := agentsR[j];
      var n := Sub(agent.ppos, agentJ.ppos);
      var d := Length(m, n);
      if d > NearRadius(p) {
        continue;
      }
      var f := d - 2.0 * AgentRadius(p);
      if f < 0.0 {
        var dx := Scale(Normalize(m, n), -Weight * KShortRange * f);
        totalDx := Add(totalDx, dx);
        neighborCount := neighborCount + 1;
      }
    }
  }

  /** The body of the stage-2 loop for agent i: both positions move by the averaged push. */
  method ShortRangeUpdate(p: SimParams, m: MathLib, agentsR: array<Agent>, i: nat) returns (agent: Agent)
    requires i < agentsR.Length
    ensures agent == ShortRangeAgent(p, m, agentsR[..], i)
  {
    agent := agentsR[i];
    var totalDx, neighborCount := ShortRangeSum(p, m, agentsR, i);
    if neighborCount > 0 {
      totalDx := Scale(totalDx, AvgCoeff / neighborCount as real);
      agent := Agent(Add(agent.pos, totalDx), agent.vel, Add(agent.ppos, totalDx), agent.goal);
    }
  }

  /** Stage 2, one stability iteration: push apart agents whose planned positions overlap. */
  method ShortRangePass(p: SimParams, m: MathLib, agentsR: array<Agent>, agentsW: array<Agent>)
    requires ValidParams(p)
    requires agentsR.Length == agentsW.Length
    modifies agentsR, agentsW
    ensures agentsR[..] == Pass(ShortRange, p, m, old(agentsR[..]))
    ensures agentsW[..] == agentsR[..]
  {
    ghost var s0 := agentsR[..];
    ghost var cur := s0;
    for i := 0 to agentsR.Length
      invariant cur == Sweep(ShortRange, p, m, s0, i)
      invariant agentsR[..] == cur
      invariant agentsW[..i] == cur[..i]
    {
      var agent := ShortRangeUpdate(p, m, agentsR, i);
      SweepStep(ShortRange, p, m, s0, i, cur, agent);
      agentsR[i] := agent;
      agentsW[i] := agent;
      cur := cur[i := agent];
    }
  }

  /** The earliest root of the contact quadratic, when it is accepted; `ContactTime` is its
      specification. */
  method TimeToCollision(m: MathLib, a: real, b: real, c: real) returns (t: Option<real>)
    ensures t == ContactTime(m, a, b, c)
  {
    var discr := b * b - a * c;
    if discr < 0.0 || Abs(a) < Eps {
      return None;
    }
    var sqrtDiscr := Sqrt(m, discr);
    var time := (b - sqrtDiscr) / a;
    if time < Eps || time > T0 {
      return None;
    }
    return Some(time);
  }

  /** The body of the stage-3 inner loop for an overlapping pair: the time of contact, the
      collision-free and colliding times around it, and the weighted correction;
      `CollisionPush` is its specification. */
  method CollisionCorrection(p: SimParams, m: MathLib, agent: Agent, agentJ: Agent, itr: nat)
    returns (push: Option<Push>)
    requires ValidParams(p)
    ensures push == CollisionPush(p, m, agent, agentJ, itr)
  {
    push := None;
    var r := 2.0 * AgentRadius(p);
    var r2 := r * r;
    var dt := p.deltaT;
    var dist := Distance(m, agent.pos, agentJ.pos);
    if dist < r {
      r2 := (r - dist) * (r - dist);
    }
    assert r2 == EffectiveRadiusSq(r, dist);
    var x := Sub(agent.pos, agentJ.pos);
    var v := Scale(Sub(Sub(agent.ppos, agent.pos), Sub(agentJ.ppos, agentJ.pos)), 1.0 / dt);
    var a := Dot(v, v);
    var b := -Dot(x, v);
    var c := Dot(x, x) - r2;
    var contact := TimeToCollision(m, a, b, c);
    if contact.None? {
      return;
    }
    push := CorrectionAt(p, m, agent, agentJ, contact.value, itr);
  }

  /** The rest of the stage-3 pair body once the contact time t is accepted; `ContactPush`
      is its specification. */
  method CorrectionAt(p: SimParams, m: MathLib, agent: Agent, agentJ: Agent, t: real, itr: nat)
    returns (push: Option<Push>)
    requires ValidParams(p)
    ensures push == ContactPush(p, m, agent, agentJ, t, itr)
  {
    push := None;
    var r := 2.0 * AgentRadius(p);
    var dt := p.deltaT;
    var tNoCollision := Quantize(dt, t);
    var tCollision := dt + tNoCollision;
    var xi := Add(agent.pos, Scale(agent.vel, tCollision));
    var xj := Add(agentJ.pos, Scale(agentJ.vel, tCollision));
    var n := Sub(xi, xj);
    var fCollision := Length(m, n) - r;
    if fCollision < 0.0 {
      var k := KLongRange * Exp(m, -Sqr(tNoCollision) / T0);
      var kAdjusted := 1.0 - Pow(m, 1.0 - k, 1.0 / ((itr + 1) as real));
      push := Some(Push(Scale(Normalize(m, n), -Weight * fCollision), kAdjusted));
    }
  }

  /** The inner loop of stage 3 in constraint iteration itr: the weighted corrections on
      agent i from every agent it will collide with. */
  method LongRangeSum(p: SimParams, m: MathLib, agentsR: array<Agent>, i: nat, itr: nat)
    returns (totalDx: Vec2, neighborCount: nat)
    requires ValidParams(p)
    requires i < agentsR.Length
    ensures Accum(totalDx, neighborCount) == LRAccum(p, m, agentsR[..], i, agentsR.Length, itr)
  {
    var agent := agentsR[i];
    totalDx := Zero;
    neighborCount := 0;
    for j := 0 to agentsR.Length
      invariant Accum(totalDx, neighborCount) == LRAccum(p, m, agentsR[..], i, j, itr)
    {
      if i == j {
        continue;
      }
      var agentJ := agentsR[j];
      var d := Distance(m, agent.pos, agentJ.pos);
      if d > FarRadius(p) {
        continue;
      }
      var f := d - 2.0 * AgentRadius(p);
      if f < 0.0 {
        var push := CollisionCorrection(p, m, agent, agentJ, itr);
        if push.Some? {
          totalDx := ScaleAndAdd(totalDx, push.value.dx, push.value.kAdjusted);
          neighborCount := neighborCount + 1;
        }
      }
    }
  }

  /** The body of the stage-3 loop for agent i: only the planned position moves. */
  method LongRangeUpdate(p: SimParams, m: MathLib, agentsR: array<Agent>, i: nat, itr: nat)
    returns (agent: Agent)
    requires ValidParams(p)
    requires i < agentsR.Length
    ensures agent == LongRangeAgent(p, m, agentsR[..], i, itr)
  {
    agent := agentsR[i];
    var totalDx, neighborCount := LongRangeSum(p, m, agentsR, i, itr);
    if neighborCount > 0 {
      agent := Agent(agent.pos, agent.vel, Add(agent.ppos, Scale(totalDx, AvgCoeff / neighborCount as real)), agent.goal);
    }
  }

  /** Stage 3, constraint iteration itr (0-based): steer planned positions away from
      predicted collisions. */
  method LongRangePass(p: SimParams, m: MathLib, agentsR: array<Agent>, agentsW: array<Agent>, itr: nat)
    requires ValidParams(p)
    requires agentsR.Length == agentsW.Length
    modifies agentsR, agentsW
    ensures agentsR[..] == Pass(LongRange(itr), p, m, old(agentsR[..]))
    ensures agentsW[..] == agentsR[..]
  {
    ghost var s0 := agentsR[..];
    ghost var cur := s0;
    for i := 0 to agentsR.Length
      invariant cur == Sweep(LongRange(itr), p, m, s0, i)
      invariant agentsR[..] == cur
      invariant agentsW[..i] == cur[..i]
    {
      var agent := LongRangeUpdate(p, m, agentsR, i, itr);
      SweepStep(LongRange(itr), p, m, s0, i, cur, agent);
      agentsR[i] := agent;
      agentsW[i] := agent;
      cur := cur[i := agent];
    }
  }

  /** The inner loop of stage 4: the XSPH sum over agent i's cohesion neighbours, vel being
      agent i's velocity recomputed from its planned displacement. The skip test indexes
      the boolean that `vec2.exactEquals` returns, as the loop is written, so the sum it
      returns is always zero (`CohesionAsWrittenIsZero`). */
  method CohesionSum(p: SimParams, m: MathLib, agentsR: array<Agent>, i: nat, vel: Vec2)
    returns (avgVel: Vec2)
    requires i < agentsR.Length
    ensures avgVel == CohesionAccumAsWritten(p, m, agentsR[..], i, vel, agentsR.Length)
  {
    var agent := agentsR[i];
    avgVel := Zero;
    for j := 0 to agentsR.Length
      invariant avgVel == CohesionAccumAsWritten(p, m, agentsR[..], i, vel, j)
    {
      if i == j {
        continue;
      }
      var agentJ := agentsR[j];
      var equality := ExactEquals(agentJ.goal, agent.goal);
      if !Truthy(IndexBoolean(equality, 0)) || !Truthy(IndexBoolean(equality, 1)) {
        continue;
      }
      var d := Distance(m, agent.ppos, agentJ.ppos);
      if d > CohesionRadius(p) {
        continue;
      }
      var w := Poly6Kernel(m, Sqr(d));
      avgVel := ScaleAndAdd(avgVel, Sub(vel, agentJ.vel), w);
    }
  }

  /** The body of the stage-4 loop for agent i: velocity from the planned displacement,
      XSPH smoothing as written, speed limit, then the position update. */
  method FinalizeUpdate(p: SimParams, m: MathLib, agentsR: array<Agent>, i: nat) returns (agent: Agent)
    requires ValidParams(p)
    requires i < agentsR.Length
    ensures agent == FinalizeAgentAsWritten(p, m, agentsR[..], i)
  {
    agent := agentsR[i];
    var vel := Scale(Sub(agent.ppos, agent.pos), 1.0 / p.deltaT);
    var avgVel := CohesionSum(p, m, agentsR, i, vel);
    vel := ScaleAndAdd(vel, avgVel, XsphH);
    var dir := Normalize(m, vel);
    if Length(m, vel) > MaxSpeed(p) {
      vel := Scale(dir, MaxSpeed(p));
    }
    agent := Agent(ScaleAndAdd(agent.pos, vel, p.deltaT), vel, agent.ppos, agent.goal);
  }

  /** Stage 4: finalize velocities and advance positions. */
  method FinalizePass(p: SimParams, m: MathLib, agentsR: array<Agent>, agentsW: array<Agent>)
    requires ValidParams(p)
    requires agentsR.Length == agentsW.Length
    modifies agentsR, agentsW
    ensures agentsR[..] == Pass(Finalize, p, m, old(agentsR[..]))
    ensures agentsW[..] == agentsR[..]
  {
    ghost var s0 := agentsR[..];
    ghost var cur := s0;
    for i := 0 to agentsR.Length
      invariant cur == Sweep(Finalize, p, m, s0, i)
      invariant agentsR[..] == cur
      invariant agentsW[..i] == cur[..i]
    {
      var agent := FinalizeUpdate(p, m, agentsR, i);
      SweepStep(Finalize, p, m, s0, i, cur, agent);
      agentsR[i] := agent;
      agentsW[i] := agent;
      cur := cur[i := agent];
    }
  }

  // ------------------------------------------------------------------ updateAgents

  /** The stage-2 loop: n short-range passes, swapping the arrays after each. */
  method StabilityLoop(p: SimParams, m: MathLib, agentsR: array<Agent>, agentsW: array<Agent>, n: nat)
    returns (r: array<Agent>, w: array<Agent>)
    requires ValidParams(p)
    requires agentsR.Length == agentsW.Length
    requires agentsW[..] == agentsR[..]
    modifies agentsR, agentsW
    ensures (r, w) == if n % 2 == 0 then (agentsR, agentsW) else (agentsW, agentsR)
    ensures r[..] == RunStages(p, m, ShortRanges(n), old(agentsR[..]))
    ensures w[..] == r[..]
  {
    ghost var s0 := agentsR[..];
    r, w := agentsR, agentsW;
    for itr := 0 to n
      invariant (r, w) == if itr % 2 == 0 then (agentsR, agentsW) else (agentsW, agentsR)
      invariant r[..] == RunStages(p, m, ShortRanges(itr), s0)
      invariant w[..] == r[..]
    {
      ShortRangePass(p, m, r, w);
      RunStagesSnoc(p, m, ShortRanges(itr), ShortRange, s0);
      ShortRangesSnoc(itr);
      r, w := w, r;
    }
  }

  /** The stage-3 loop: n long-range passes (iterations 0 .. n-1), swapping the arrays
      after each. */
  method ConstraintLoop(p: SimParams, m: MathLib, agentsR: array<Agent>, agentsW: array<Agent>, n: nat)
    returns (r: array<Agent>, w: array<Agent>)
    requires ValidParams(p)
    requires agentsR.Length == agentsW.Length
    requires agentsW[..] == agentsR[..]
    modifies agentsR, agentsW
    ensures (r, w) == if n % 2 == 0 then (agentsR, agentsW) else (agentsW, agentsR)
    ensures r[..] == RunStages(p, m, LongRanges(n), old(agentsR[..]))
    ensures w[..] == r[..]
  {
    ghost var s0 := agentsR[..];
    r, w := agentsR, agentsW;
    for itr := 0 to n
      invariant (r, w) == if itr % 2 == 0 then (agentsR, agentsW) else (agentsW, agentsR)
      invariant r[..] == RunStages(p, m, LongRanges(itr), s0)
      invariant w[..] == r[..]
    {
      LongRangePass(p, m, r, w, itr);
      RunStagesSnoc(p, m, LongRanges(itr), LongRange(itr), s0);
      LongRangesSnoc(itr);
      r, w := w, r;
    }
  }

  /** After blend's swap, k1 swaps and then k2 swaps the write array is agents_b exactly
      when k1 and k2 have different parities. */
  lemma SwapParity(k1: nat, k2: nat)
    ensures (1 + k1 + k2) % 2 == 0 <==> (k1 % 2 == 0) != (k2 % 2 == 0)
  {
  }

  /** `updateAgents(agents_a, agents_b)`: blend, stabilityIterations short-range passes,
      constraintIterations long-range passes and finalize, swapping the read and write
      arrays after every pass but the last. The array returned is the last write array:
      agents_b after an even number of swaps, agents_a after an odd one; it holds one
      step of the agents of agents_a, and both arrays end up holding the same agents. */
  method UpdateAgents(p: SimParams, m: MathLib, agentsA: array<Agent>, agentsB: array<Agent>)
    returns (result: array<Agent>)
    requires ValidParams(p)
    requires agentsA.Length == agentsB.Length
    modifies agentsA, agentsB
    ensures result == (if (1 + p.stabilityIterations + p.constraintIterations) % 2 == 0
                       then agentsB else agentsA)
    ensures result[..] == Step(p, m, old(agentsA[..]))
    ensures agentsA[..] == agentsB[..]
  {
    ghost var s0 := agentsA[..];
    BlendPass(p, m, agentsA, agentsB);
    ghost var s1 := agentsA[..];
    var agentsR, agentsW := StabilityLoop(p, m, agentsB, agentsA, p.stabilityIterations);
    ghost var s2 := agentsR[..];
    agentsR, agentsW := ConstraintLoop(p, m, agentsR, agentsW, p.constraintIterations);
    ghost var s3 := agentsR[..];
    FinalizePass(p, m, agentsR, agentsW);
    result := agentsW;
    SwapParity(p.stabilityIterations, p.constraintIterations);
    StepStages(p, m, s0, s1, s2, s3, result[..]);
  }

  /** The CPU half of `frame()`: decode the agent buffer into two arrays, step them and
      encode the returned array into the next agent buffer. */
  method CpuFrame(p: SimParams, m: MathLib, agentData: array<real>, numAgents: nat)
    returns (next: array<real>)
    requires ValidParams(p)
    requires agentData.Length == Stride * numAgents
    ensures fresh(next)
    ensures next.Length == agentData.Length
    ensures next[..] == Encode(Step(p, m, Decode(agentData[..], numAgents)))
  {
    var agentsR := Buffer2ObjArray(agentData, numAgents);
    var agentsW := Buffer2ObjArray(agentData, numAgents);
    var updated := UpdateAgents(p, m, agentsR, agentsW);
    next := ObjArray2Buffer(updated, numAgents);
    assert updated[..numAgents] == updated[..];
  }
}
