/** The solver's parameters and the per-agent update of each of its four stages.

    Every stage updates agent i from the current contents `s` of the agent list; the
    schedule and the sequential sweep that applies an update to every index are in
    module CrowdSchedule. */
module CrowdStages {
  import opened Vec2Math
  import opened AgentCodec

  datatype Option<T> = None | Some(value: T)

  datatype SimParams = SimParams(
    deltaT: real,
    stabilityIterations: nat,
    constraintIterations: nat,
    agentScale: real)

  /** The time step and the agent scale are positive. */
  predicate ValidParams(p: SimParams) {
    0.0 < p.deltaT && 0.0 < p.agentScale
  }

  /** 4^e. */
  function Pow4(e: nat): (r: nat)
    ensures 1 <= r
  {
    if e == 0 then 1 else 4 * Pow4(e - 1)
  }

  /** 0.5^e. */
  function Half(e: nat): (r: real)
    ensures 0.0 < r <= 1.0
  {
    if e == 0 then 1.0 else 0.5 * Half(e - 1)
  }

  /** The exponent max(0, floor(log(n / 512) / log(4))) of the agent scale, on integers:
      the number of times 512 can be multiplied by 4 without exceeding n. */
  function ScaleExponent(numAgents: nat): (e: nat)
    ensures e == 0 ==> numAgents < 2048
    ensures 0 < e ==> 512 * Pow4(e) <= numAgents
    ensures numAgents < 512 * Pow4(e + 1)
  {
    if numAgents < 2048 then 0 else 1 + ScaleExponent(numAgents / 4)
  }

  /** agentScale = 0.5 ^ ScaleExponent(numAgents). */
  function AgentScale(numAgents: nat): (s: real)
    ensures 0.0 < s <= 1.0
  {
    Half(ScaleExponent(numAgents))
  }

  /** Every fourfold increase of a population of at least 512 halves the agent scale. */
  lemma {:induction false} AgentScaleQuadruple(numAgents: nat)
    requires 512 <= numAgents
    ensures AgentScale(4 * numAgents) == 0.5 * AgentScale(numAgents)
  {
    assert (4 * numAgents) / 4 == numAgents;
  }

  /** The CPU variant: 1024 agents, deltaT 0.02, one stability and six constraint
      iterations. */
  const CpuNumAgents: nat := 1024
  const CpuParams: SimParams := SimParams(0.02, 1, 6, AgentScale(CpuNumAgents))

  lemma CpuParamsValid()
    ensures ValidParams(CpuParams) && CpuParams.agentScale == 1.0
  {
  }

  // The constants of `updateAgents`.
  function AgentSpeed(p: SimParams): real { 0.1 * p.agentScale }
  function NearRadius(p: SimParams): real { 0.2 * p.agentScale }
  function FarRadius(p: SimParams): real { 0.5 * p.agentScale }
  function CohesionRadius(p: SimParams): real { 1.0 * p.agentScale }
  function AgentRadius(p: SimParams): real { 0.03 * p.agentScale }
  function MaxSpeed(p: SimParams): real { 1.2 * AgentSpeed(p) }
  const BlendFactor: real := 0.0385
  const KShortRange: real := 1.0
  const KLongRange: real := 0.15
  const AvgCoeff: real := 1.2
  const Eps: real := 0.0001
  const T0: real := 20.0
  const Weight: real := 0.5
  const XsphC: real := 217.0
  const XsphH: real := 7.0

  /** A running sum of corrections and the number of neighbours that contributed. */
  datatype Accum = Accum(total: Vec2, count: nat)

  const NoNeighbours: Accum := Accum(Zero, 0)

  // ---------------------------------------------------------------- stage 1: blend

  /** Blend the velocity toward the goal direction and plan the next position. */
  function BlendAgent(p: SimParams, m: MathLib, a: Agent): (r: Agent)
    requires ValidParams(p)
    ensures r.pos == a.pos && r.goal == a.goal
    ensures r.vel == Add(Scale(Scale(Normalize(m, Sub(a.goal, a.pos)), AgentSpeed(p)), BlendFactor),
                         Scale(a.vel, 1.0 - BlendFactor))
    ensures Sub(r.ppos, r.pos) == Scale(r.vel, p.deltaT)
  {
    var directionToGoal := Normalize(m, Sub(a.goal, a.pos));
    var vp := Scale(directionToGoal, AgentSpeed(p));
    var vel := ScaleAndAdd(Scale(vp, BlendFactor), a.vel, 1.0 - BlendFactor);
    var ppos := Add(a.pos, Scale(vel, p.deltaT));
    Agent(a.pos, vel, ppos, a.goal)
  }

  // ---------------------------------------------------------- stage 2: short range

  /** Agent j is a short-range contact of agent i: another agent whose planned position
      is within nearRadius and closer than two agent radii. */
  predicate SRContact(p: SimParams, m: MathLib, s: seq<Agent>, i: nat, j: nat)
    requires i < |s| && j < |s|
  {
    var d := Length(m, Sub(s[i].ppos, s[j].ppos));
    i != j && !(d > NearRadius(p)) && d - 2.0 * AgentRadius(p) < 0.0
  }

  /** The push of a short-range contact j on agent i. */
  function SRPush(p: SimParams, m: MathLib, s: seq<Agent>, i: nat, j: nat): Vec2
    requires i < |s| && j < |s|
  {
    var n := Sub(s[i].ppos, s[j].ppos);
    var f := Length(m, n) - 2.0 * AgentRadius(p);
    Scale(Normalize(m, n), -Weight * KShortRange * f)
  }

  /** The short-range pushes from neighbours 0 .. j-1 of agent i. */
  function SRAccum(p: SimParams, m: MathLib, s: seq<Agent>, i: nat, j: nat): Accum
    requires i < |s| && j <= |s|
  {
    if j == 0 then NoNeighbours
    else
      var acc := SRAccum(p, m, s, i, j - 1);
      if SRContact(p, m, s, i, j - 1) then Accum(Add(acc.total, SRPush(p, m, s, i, j - 1)), acc.count + 1)
      else acc
  }

  /** The short-range contacts of agent i among agents 0 .. j-1. */
  ghost function SRContacts(p: SimParams, m: MathLib, s: seq<Agent>, i: nat, j: nat): (c: set<nat>)
    requires i < |s| && j <= |s|
    ensures forall k :: k in c ==> k < j
  {
    if j == 0 then {}
    else SRContacts(p, m, s, i, j - 1) + (if SRContact(p, m, s, i, j - 1) then {j - 1} else {})
  }

  /** The contact set holds exactly the indices below j that are contacts. */
  lemma {:induction false} SRContactsMembers(p: SimParams, m: MathLib, s: seq<Agent>, i: nat, j: nat, k: nat)
    requires i < |s| && j <= |s|
    ensures k in SRContacts(p, m, s, i, j) <==> k < j && SRContact(p, m, s, i, k)
  {
    if j > 0 {
      SRContactsMembers(p, m, s, i, j - 1, k);
    }
  }

  /** The neighbour count is the number of short-range contacts: agent i itself, agents
      beyond nearRadius and agents at least two radii away are never counted. */
  lemma {:induction false} SRCountIsContacts(p: SimParams, m: MathLib, s: seq<Agent>, i: nat, j: nat)
    requires i < |s| && j <= |s|
    ensures SRAccum(p, m, s, i, j).count == |SRContacts(p, m, s, i, j)|
  {
    if j > 0 {
      SRCountIsContacts(p, m, s, i, j - 1);
      assert j - 1 !in SRContacts(p, m, s, i, j - 1);
    }
  }

  /** Stage 2 for agent i: pos and ppos move by the same averaged correction. */
  function ShortRangeAgent(p: SimParams, m: MathLib, s: seq<Agent>, i: nat): (r: Agent)
    requires i < |s|
    ensures r.vel == s[i].vel && r.goal == s[i].goal
    ensures Sub(r.pos, s[i].pos) == Sub(r.ppos, s[i].ppos)
    ensures SRAccum(p, m, s, i, |s|).count == 0 ==> r == s[i]
  {
    var a := s[i];
    var acc := SRAccum(p, m, s, i, |s|);
    if acc.count > 0 then
      var totalDx := Scale(acc.total, AvgCoeff / acc.count as real);
      Agent(Add(a.pos, totalDx), a.vel, Add(a.ppos, totalDx), a.goal)
    else a
  }

  /** The same correction applied to pos and to ppos leaves ppos - pos, the planned
      displacement, as it was. */
  lemma ShortRangeKeepsPlan(p: SimParams, m: MathLib, s: seq<Agent>, i: nat)
    requires i < |s|
    ensures Sub(ShortRangeAgent(p, m, s, i).ppos, ShortRangeAgent(p, m, s, i).pos)
         == Sub(s[i].ppos, s[i].pos)
  {
    var r := ShortRangeAgent(p, m, s, i);
    var t := Sub(r.pos, s[i].pos);
    assert r.pos == Add(s[i].pos, t) && r.ppos == Add(s[i].ppos, t);
  }

  // ----------------------------------------------------------- stage 3: long range

  /** The squared contact distance: r*r, or (r - dist)^2 when the agents already overlap. */
  function EffectiveRadiusSq(r: real, dist: real): real {
    if dist < r then (r - dist) * (r - dist) else r * r
  }


  /** The earliest time of contact of two discs, as the smaller root of
      a t^2 - 2 b t + c = 0 with a = |v|^2, b = -x.v and c = |x|^2 - r2 (x the relative
      position, v the relative velocity, r2 the squared contact distance), when it is an
      accepted one: the roots are real, a is not negligible and the time lies in
      [eps, t0]. */
  function ContactTime(m: MathLib, a: real, b: real, c: real): (t: Option<real>)
    ensures t.Some? ==> Eps <= t.value <= T0
    ensures t.Some? ==> !(Abs(a) < Eps)
    ensures t.Some? ==> 0.0 <= b * b - a * c
  {
    var discr := b * b - a * c;
    if discr < 0.0 || Abs(a) < Eps then None
    else
      var t := (b - Sqrt(m, discr)) / a;
      if t < Eps || t > T0 then None else Some(t)
  }

  /** dt * floor(t / dt): the last whole time step before t. */
  function Quantize(dt: real, t: real): real
    requires 0.0 < dt
  {
    dt * ((t / dt).Floor as real)
  }

  lemma FloorBounds(x: real)
    ensures (x.Floor as real) <= x < (x.Floor as real) + 1.0
  {
  }

  /** For an accepted contact time t and dt > 0, the collision-free time t_nocollision and
      the collision time t_nocollision + dt bracket t. */
  lemma QuantizeBrackets(dt: real, t: real)
    requires 0.0 < dt && 0.0 <= t
    ensures 0.0 <= Quantize(dt, t) <= t < Quantize(dt, t) + dt
  {
    var q := t / dt;
    var fl := q.Floor as real;
    FloorBounds(q);
    assert 0.0 <= q;
    assert 0.0 <= fl;
    assert dt * q == t;
    calc {
      Quantize(dt, t);
      dt * fl;
    <=
      dt * q;
    }
    calc {
      t;
      dt * q;
    <
      dt * (fl + 1.0);
      dt * fl + dt;
    }
  }

  /** A long-range correction dx, weighted by kAdjusted. */
  datatype Push = Push(dx: Vec2, kAdjusted: real)

  /** The long-range correction of neighbour b on agent a in constraint iteration itr
      (0-based), for a pair already known to overlap: None when the contact time is
      rejected or the agents, advanced to the first whole step after it, no longer
      collide. */
  function CollisionPush(p: SimParams, m: MathLib, a: Agent, b: Agent, itr: nat): Option<Push>
    requires ValidParams(p)
  {
    var r := 2.0 * AgentRadius(p);
    var dt := p.deltaT;
    var dist := Distance(m, a.pos, b.pos);
    var r2 := EffectiveRadiusSq(r, dist);
    var x := Sub(a.pos, b.pos);
    var v := Scale(Sub(Sub(a.ppos, a.pos), Sub(b.ppos, b.pos)), 1.0 / dt);
    match ContactTime(m, Dot(v, v), -Dot(x, v), Dot(x, x) - r2)
    case None => None
    case Some(t) => ContactPush(p, m, a, b, t, itr)
  }

  /** The correction once a contact time t is accepted: the time without collision (t
      rounded down to a multiple of dt), the positions one step later along the current
      velocities, and a push along their separation when they still overlap, weighted by
      the stiffness k = kLongRange * exp(-tNoCollision^2 / t0) adjusted for iteration itr. */
  function ContactPush(p: SimParams, m: MathLib, a: Agent, b: Agent, t: real, itr: nat): Option<Push>
    requires ValidParams(p)
  {
    var r := 2.0 * AgentRadius(p);
    var dt := p.deltaT;
    var tNoCollision := Quantize(dt, t);
    var tCollision := dt + tNoCollision;
    var xi := Add(a.pos, Scale(a.vel, tCollision));
    var xj := Add(b.pos, Scale(b.vel, tCollision));
    var n := Sub(xi, xj);
    var fCollision := Length(m, n) - r;
    if fCollision < 0.0 then
      var k := KLongRange * Exp(m, -Sqr(tNoCollision) / T0);
      var kAdjusted := 1.0 - Pow(m, 1.0 - k, 1.0 / ((itr + 1) as real));
      Some(Push(Scale(Normalize(m, n), -Weight * fCollision), kAdjusted))
    else None
  }

  /** The long-range correction of agent j on agent i in constraint iteration itr, or None
      when the pair is skipped: agent i itself, agents beyond farRadius and agents that
      do not overlap contribute nothing. */
  function LRPush(p: SimParams, m: MathLib, s: seq<Agent>, i: nat, j: nat, itr: nat): Option<Push>
    requires ValidParams(p)
    requires i < |s| && j < |s|
  {
    var d := Distance(m, s[i].pos, s[j].pos);
    if i == j || d > FarRadius(p) || !(d - 2.0 * AgentRadius(p) < 0.0) then None
    else CollisionPush(p, m, s[i], s[j], itr)
  }

  /** A pair is considered only when i != j and the agents currently overlap (closer than
      two agent radii, which is inside farRadius); a pair whose contact time is rejected
      contributes nothing. */
  lemma LRPushGuards(p: SimParams, m: MathLib, s: seq<Agent>, i: nat, j: nat, itr: nat)
    requires ValidParams(p)
    requires i < |s| && j < |s|
    requires LRPush(p, m, s, i, j, itr).Some?
    ensures i != j
    ensures Distance(m, s[i].pos, s[j].pos) < 2.0 * AgentRadius(p)
    ensures Distance(m, s[i].pos, s[j].pos) <= FarRadius(p)
  {
  }

  /** Every pair that passes the long-range guards already overlaps, so its correction
      comes from the collision computation with the squared contact distance
      (r - dist)^2: the r * r case of the contact distance is never reached from the
      stage loop. */
  lemma ContactUsesOverlap(p: SimParams, m: MathLib, s: seq<Agent>, i: nat, j: nat, itr: nat)
    requires ValidParams(p)
    requires i < |s| && j < |s| && i != j
    requires !(Distance(m, s[i].pos, s[j].pos) > FarRadius(p))
    requires Distance(m, s[i].pos, s[j].pos) - 2.0 * AgentRadius(p) < 0.0
    ensures LRPush(p, m, s, i, j, itr) == CollisionPush(p, m, s[i], s[j], itr)
    ensures EffectiveRadiusSq(2.0 * AgentRadius(p), Distance(m, s[i].pos, s[j].pos))
         == Sqr(2.0 * AgentRadius(p) - Distance(m, s[i].pos, s[j].pos))
  {
  }

  /** The weighted long-range corrections from neighbours 0 .. j-1 of agent i. */
  function LRAccum(p: SimParams, m: MathLib, s: seq<Agent>, i: nat, j: nat, itr: nat): Accum
    requires ValidParams(p)
    requires i < |s| && j <= |s|
  {
    if j == 0 then NoNeighbours
    else
      var acc := LRAccum(p, m, s, i, j - 1, itr);
      match LRPush(p, m, s, i, j - 1, itr)
      case None => acc
      case Some(c) => Accum(ScaleAndAdd(acc.total, c.dx, c.kAdjusted), acc.count + 1)
  }

  /** Stage 3 for agent i: only the planned position moves. */
  function LongRangeAgent(p: SimParams, m: MathLib, s: seq<Agent>, i: nat, itr: nat): (r: Agent)
    requires ValidParams(p)
    requires i < |s|
    ensures r.pos == s[i].pos && r.vel == s[i].vel && r.goal == s[i].goal
    ensures LRAccum(p, m, s, i, |s|, itr).count == 0 ==> r == s[i]
  {
    var a := s[i];
    var acc := LRAccum(p, m, s, i, |s|, itr);
    if acc.count > 0 then
      Agent(a.pos, a.vel, Add(a.ppos, Scale(acc.total, AvgCoeff / acc.count as real)), a.goal)
    else a
  }

  // ------------------------------------------------------------- stage 4: finalize

  lemma ProductPositive(a: real, b: real)
    requires 0.0 < a && 0.0 < b
    ensures 0.0 < a * b
  {
  }

  lemma ProductNonNegative(a: real, b: real)
    requires 0.0 <= a && 0.0 <= b
    ensures 0.0 <= a * b
  {
  }

  lemma SquareMonotone(a: real, b: real)
    requires 0.0 <= a <= b
    ensures a * a <= b * b
  {
    calc {
      a * a;
    <=
      a * b;
    <=
      b * b;
    }
  }

  /** w * h * ... * h with n factors h, multiplied from the left. */
  function TimesPower(w: real, h: real, n: nat): real {
    if n == 0 then w else TimesPower(w, h, n - 1) * h
  }

  lemma {:induction false} TimesPowerSign(w: real, h: real, n: nat)
    ensures 0.0 <= w && 0.0 <= h ==> 0.0 <= TimesPower(w, h, n)
    ensures 0.0 < w && 0.0 < h ==> 0.0 < TimesPower(w, h, n)
  {
    if n > 0 {
      TimesPowerSign(w, h, n - 1);
      var t := TimesPower(w, h, n - 1);
      if 0.0 <= t && 0.0 <= h {
        ProductNonNegative(t, h);
      }
      if 0.0 < t && 0.0 < h {
        ProductPositive(t, h);
      }
    }
  }

  /** The number of factors (h^2 - r^2) in the poly6 kernel. */
  const KernelDegree: nat := 3

  /** The poly6 normalisation 315 / (64 * PI * 217^9). */
  function Poly6Coefficient(m: MathLib): real {
    315.0 / (64.0 * m.pi * Pow(m, XsphC, 9.0))
  }

  /** h^2 - r^2 for the kernel radius h = 217. */
  function Hmr(r: real): real {
    XsphC * XsphC - r * r
  }

  /** The poly6 smoothing kernel with support [eps, 217]; `w * hmr * hmr * hmr` is
      TimesPower(w, hmr, KernelDegree). */
  function Poly6Kernel(m: MathLib, r: real): (w: real)
    ensures !(Eps <= r <= XsphC) ==> w == 0.0
  {
    if Eps <= r && r <= XsphC then TimesPower(Poly6Coefficient(m), Hmr(r), KernelDegree)
    else 0.0
  }

  /** The kernel's leading coefficient is positive. */
  lemma Poly6CoefficientPositive(m: MathLib)
    ensures 0.0 < Poly6Coefficient(m)
  {
    ProductPositive(64.0 * m.pi, Pow(m, XsphC, 9.0));
  }

  lemma HmrSign(r: real)
    requires 0.0 <= r <= XsphC
    ensures 0.0 <= Hmr(r)
    ensures r < XsphC ==> 0.0 < Hmr(r)
  {
    SquareMonotone(r, XsphC);
    SquareStrictlyMonotone(r, XsphC);
  }

  /** The kernel is never negative. */
  lemma Poly6KernelNonNegative(m: MathLib, r: real)
    ensures 0.0 <= Poly6Kernel(m, r)
  {
    if Eps <= r && r <= XsphC {
      Poly6CoefficientPositive(m);
      HmrSign(r);
      TimesPowerSign(Poly6Coefficient(m), Hmr(r), KernelDegree);
    }
  }

  /** The kernel is positive strictly inside its support. */
  lemma Poly6KernelPositive(m: MathLib, r: real)
    requires Eps <= r < XsphC
    ensures 0.0 < Poly6Kernel(m, r)
  {
    Poly6CoefficientPositive(m);
    HmrSign(r);
    TimesPowerSign(Poly6Coefficient(m), Hmr(r), KernelDegree);
  }

  /** Agent j takes part in agent i's cohesion: another agent with exactly the same goal
      whose planned position is within cohesionRadius. */
  predicate CohesionNeighbour(p: SimParams, m: MathLib, s: seq<Agent>, i: nat, j: nat)
    requires i < |s| && j < |s|
  {
    i != j && ExactEquals(s[j].goal, s[i].goal)
    && !(Distance(m, s[i].ppos, s[j].ppos) > CohesionRadius(p))
  }

  /** The kernel weight `poly6Kernel(d * d)` of neighbour b for agent a, d the distance of
      their planned positions. */
  function CohesionWeight(m: MathLib, a: Agent, b: Agent): real {
    Poly6Kernel(m, Sqr(Distance(m, a.ppos, b.ppos)))
  }

  function Sqr(x: real): real { x * x }

  lemma CohesionWeightPositive(m: MathLib, a: Agent, b: Agent)
    requires Eps <= Sqr(Distance(m, a.ppos, b.ppos)) < XsphC
    ensures 0.0 < CohesionWeight(m, a, b)
  {
    Poly6KernelPositive(m, Sqr(Distance(m, a.ppos, b.ppos)));
  }

  /** The XSPH average velocity of agent i over neighbours 0 .. j-1, agent i's velocity
      being vel. */
  function CohesionAccum(p: SimParams, m: MathLib, s: seq<Agent>, i: nat, vel: Vec2, j: nat): Vec2
    requires i < |s| && j <= |s|
  {
    if j == 0 then Zero
    else
      var avg := CohesionAccum(p, m, s, i, vel, j - 1);
      if CohesionNeighbour(p, m, s, i, j - 1) then
        ScaleAndAdd(avg, Sub(vel, s[j - 1].vel), CohesionWeight(m, s[i], s[j - 1]))
      else avg
  }

  /** An agent without cohesion neighbours gets no XSPH correction. */
  lemma {:induction false} CohesionNeedsNeighbours(p: SimParams, m: MathLib, s: seq<Agent>, i: nat, vel: Vec2, j: nat)
    requires i < |s| && j <= |s|
    requires forall k :: 0 <= k < j ==> !CohesionNeighbour(p, m, s, i, k)
    ensures CohesionAccum(p, m, s, i, vel, j) == Zero
  {
    if j > 0 {
      CohesionNeedsNeighbours(p, m, s, i, vel, j - 1);
    }
  }

  /** A JavaScript value as far as `equality[0]` needs: indexing a boolean yields
      `undefined`. */
  datatype JsValue = Undefined | JsBool(b: bool)

  /** `b[k]` for a boolean b: booleans have no indexed properties. */
  function IndexBoolean(b: bool, k: int): JsValue { Undefined }

  /** JavaScript truthiness, of which `!v` is the negation. */
  predicate Truthy(v: JsValue) {
    match v
    case Undefined => false
    case JsBool(b) => b
  }

  /** The skip test `!equality[0] || !equality[1]` of the finalize loop, with `equality`
      the boolean that `vec2.exactEquals` returns. */
  predicate SkipAsWritten(equality: bool) {
    !Truthy(IndexBoolean(equality, 0)) || !Truthy(IndexBoolean(equality, 1))
  }

  /** The cohesion sum as the loop is written: the skip test is applied to the boolean
      result of `exactEquals`. */
  function CohesionAccumAsWritten(p: SimParams, m: MathLib, s: seq<Agent>, i: nat, vel: Vec2, j: nat): Vec2
    requires i < |s| && j <= |s|
  {
    if j == 0 then Zero
    else
      var avg := CohesionAccumAsWritten(p, m, s, i, vel, j - 1);
      if i == j - 1 || SkipAsWritten(ExactEquals(s[j - 1].goal, s[i].goal)) then avg
      else
        var d := Distance(m, s[i].ppos, s[j - 1].ppos);
        if d > CohesionRadius(p) then avg
        else ScaleAndAdd(avg, Sub(vel, s[j - 1].vel), CohesionWeight(m, s[i], s[j - 1]))
  }

  /** As written, every neighbour is skipped, whatever the goals: cohesion never adds
      anything. */
  lemma {:induction false} CohesionAsWrittenIsZero(p: SimParams, m: MathLib, s: seq<Agent>, i: nat, vel: Vec2, j: nat)
    requires i < |s| && j <= |s|
    ensures CohesionAccumAsWritten(p, m, s, i, vel, j) == Zero
  {
    if j > 0 {
      CohesionAsWrittenIsZero(p, m, s, i, vel, j - 1);
    }
  }

  lemma NonZeroScaled(u: Vec2, w: real)
    requires u != Zero && 0.0 < w
    ensures ScaleAndAdd(Zero, u, w) != Zero
  {
    if u.x != 0.0 {
      ProductZeroOf(u.x, w);
    } else {
      ProductZeroOf(u.y, w);
    }
  }

  lemma ProductZeroOf(a: real, b: real)
    requires a != 0.0 && b != 0.0
    ensures 0.0 + a * b != 0.0
  {
  }

  /** One more neighbour in the cohesion sum. */
  lemma CohesionStep(p: SimParams, m: MathLib, s: seq<Agent>, i: nat, vel: Vec2, j: nat)
    requires i < |s| && j < |s|
    ensures CohesionAccum(p, m, s, i, vel, j + 1)
         == if CohesionNeighbour(p, m, s, i, j)
            then ScaleAndAdd(CohesionAccum(p, m, s, i, vel, j), Sub(vel, s[j].vel), CohesionWeight(m, s[i], s[j]))
            else CohesionAccum(p, m, s, i, vel, j)
  {
  }

  /** With one neighbour, agent 0's cohesion sum is the kernel-weighted velocity
      difference, ... */
  lemma CohesionOfPair(p: SimParams, m: MathLib, s: seq<Agent>, vel: Vec2)
    requires |s| == 2
    requires CohesionNeighbour(p, m, s, 0, 1)
    ensures CohesionAccum(p, m, s, 0, vel, 2) == ScaleAndAdd(Zero, Sub(vel, s[1].vel), CohesionWeight(m, s[0], s[1]))
  {
    CohesionStep(p, m, s, 0, vel, 0);
    CohesionStep(p, m, s, 0, vel, 1);
  }

  /** ... which is not zero when the velocities differ and the kernel is positive. */
  lemma CohesionSingleNeighbour(p: SimParams, m: MathLib, s: seq<Agent>, vel: Vec2)
    requires |s| == 2
    requires CohesionNeighbour(p, m, s, 0, 1)
    requires Eps <= Sqr(Distance(m, s[0].ppos, s[1].ppos)) < XsphC
    requires Sub(vel, s[1].vel) != Zero
    ensures CohesionAccum(p, m, s, 0, vel, 2) != Zero
  {
    CohesionOfPair(p, m, s, vel);
    CohesionWeightPositive(m, s[0], s[1]);
    NonZeroScaled(Sub(vel, s[1].vel), CohesionWeight(m, s[0], s[1]));
  }

  /** Two agents with the same goal, 0.1 apart and moving at different velocities, in the
      CPU variant's parameters. */
  function TenthPair(): seq<Agent> {
    [Agent(Zero, Zero, Zero, Zero), Agent(Zero, Vec2(1.0, 0.0), Vec2(0.0, 0.1), Zero)]
  }

  lemma TenthPairNeighbours(m: MathLib)
    requires ExactSqrt(m)
    ensures CohesionNeighbour(CpuParams, m, TenthPair(), 0, 1)
    ensures Eps <= Sqr(Distance(m, TenthPair()[0].ppos, TenthPair()[1].ppos)) < XsphC
  {
    CpuParamsValid();
    SqrtOfTenth(m);
    TenthSquared(Distance(m, TenthPair()[0].ppos, TenthPair()[1].ppos));
  }

  /** For that pair the written loop adds nothing and the intended one does. */
  lemma CohesionAsWrittenDiffers(m: MathLib)
    requires ExactSqrt(m)
    ensures CohesionAccumAsWritten(CpuParams, m, TenthPair(), 0, Zero, 2) == Zero
    ensures CohesionAccum(CpuParams, m, TenthPair(), 0, Zero, 2) != Zero
  {
    CohesionAsWrittenIsZero(CpuParams, m, TenthPair(), 0, Zero, 2);
    TenthPairNeighbours(m);
    assert Sub(Zero, TenthPair()[1].vel) != Zero;
    CohesionSingleNeighbour(CpuParams, m, TenthPair(), Zero);
  }

  lemma SqrtOfTenth(m: MathLib)
    requires ExactSqrt(m)
    ensures Distance(m, Zero, Vec2(0.0, 0.1)) == 0.1
  {
    TenthSquaredLength();
    SqrtOfSquare(m, 0.1);
  }

  lemma TenthSquared(x: real)
    requires x == 0.1
    ensures Eps <= Sqr(x) < XsphC
  {
  }

  lemma TenthSquaredLength()
    ensures SquaredLength(Sub(Vec2(0.0, 0.1), Zero)) == 0.1 * 0.1
  {
  }

  /** Clamp a velocity to a maximum speed, keeping its direction. */
  function ClampSpeed(m: MathLib, v: Vec2, maxSpeed: real): Vec2 {
    var dir := Normalize(m, v);
    if Length(m, v) > maxSpeed then Scale(dir, maxSpeed) else v
  }

  /** With an exact square root, a clamped velocity is never faster than the maximum. */
  lemma ClampSpeedBound(m: MathLib, v: Vec2, maxSpeed: real)
    requires ExactSqrt(m)
    requires 0.0 <= maxSpeed
    ensures Length(m, ClampSpeed(m, v, maxSpeed)) <= maxSpeed
  {
    if Length(m, v) > maxSpeed {
      if v == Zero {
        LengthOfZero(m);
      } else {
        ScaledNormalLength(m, v, maxSpeed);
      }
    }
  }

  /** Stage 4 for agent i: the velocity is recomputed from the planned displacement,
      smoothed by XSPH cohesion, clamped, and then the position advances along it. */
  function FinalizeAgent(p: SimParams, m: MathLib, s: seq<Agent>, i: nat): (r: Agent)
    requires ValidParams(p)
    requires i < |s|
    ensures r.ppos == s[i].ppos && r.goal == s[i].goal
    ensures r.pos == ScaleAndAdd(s[i].pos, r.vel, p.deltaT)
  {
    var a := s[i];
    var vel := Scale(Sub(a.ppos, a.pos), 1.0 / p.deltaT);
    var avgVel := CohesionAccum(p, m, s, i, vel, |s|);
    var smoothed := ScaleAndAdd(vel, avgVel, XsphH);
    var clamped := ClampSpeed(m, smoothed, MaxSpeed(p));
    Agent(ScaleAndAdd(a.pos, clamped, p.deltaT), clamped, a.ppos, a.goal)
  }

  /** With an exact square root, a finalized agent is never faster than 1.2 * agentSpeed. */
  lemma FinalizeSpeedBound(p: SimParams, m: MathLib, s: seq<Agent>, i: nat)
    requires ValidParams(p) && ExactSqrt(m)
    requires i < |s|
    ensures Length(m, FinalizeAgent(p, m, s, i).vel) <= MaxSpeed(p)
  {
    var a := s[i];
    var vel := Scale(Sub(a.ppos, a.pos), 1.0 / p.deltaT);
    var smoothed := ScaleAndAdd(vel, CohesionAccum(p, m, s, i, vel, |s|), XsphH);
    ClampSpeedBound(m, smoothed, MaxSpeed(p));
  }

  /** Stage 4 as the loop is written, with the cohesion sum that skips every neighbour:
      the velocity is recomputed from the planned displacement, clamped, and then the
      position advances along it. */
  function FinalizeAgentAsWritten(p: SimParams, m: MathLib, s: seq<Agent>, i: nat): (r: Agent)
    requires ValidParams(p)
    requires i < |s|
    ensures r.ppos == s[i].ppos && r.goal == s[i].goal
    ensures r.pos == ScaleAndAdd(s[i].pos, r.vel, p.deltaT)
  {
    var a := s[i];
    var vel := Scale(Sub(a.ppos, a.pos), 1.0 / p.deltaT);
    var avgVel := CohesionAccumAsWritten(p, m, s, i, vel, |s|);
    var smoothed := ScaleAndAdd(vel, avgVel, XsphH);
    var clamped := ClampSpeed(m, smoothed, MaxSpeed(p));
    Agent(ScaleAndAdd(a.pos, clamped, p.deltaT), clamped, a.ppos, a.goal)
  }

  /** With an exact square root, an agent finalized as written is never faster than
      1.2 * agentSpeed. */
  lemma FinalizeAsWrittenSpeedBound(p: SimParams, m: MathLib, s: seq<Agent>, i: nat)
    requires ValidParams(p) && ExactSqrt(m)
    requires i < |s|
    ensures Length(m, FinalizeAgentAsWritten(p, m, s, i).vel) <= MaxSpeed(p)
  {
    var a := s[i];
    var vel := Scale(Sub(a.ppos, a.pos), 1.0 / p.deltaT);
    var smoothed := ScaleAndAdd(vel, CohesionAccumAsWritten(p, m, s, i, vel, |s|), XsphH);
    ClampSpeedBound(m, smoothed, MaxSpeed(p));
  }

  /** As written, the finalized velocity is the clamped planned displacement over deltaT,
      untouched by cohesion; it agrees with the intended stage exactly when the XSPH sum
      is zero. */
  lemma FinalizeAsWrittenIgnoresCohesion(p: SimParams, m: MathLib, s: seq<Agent>, i: nat)
    requires ValidParams(p)
    requires i < |s|
    ensures FinalizeAgentAsWritten(p, m, s, i).vel
         == ClampSpeed(m, Scale(Sub(s[i].ppos, s[i].pos), 1.0 / p.deltaT), MaxSpeed(p))
    ensures CohesionAccum(p, m, s, i, Scale(Sub(s[i].ppos, s[i].pos), 1.0 / p.deltaT), |s|) == Zero
        ==> FinalizeAgentAsWritten(p, m, s, i) == FinalizeAgent(p, m, s, i)
  {
    var vel := Scale(Sub(s[i].ppos, s[i].pos), 1.0 / p.deltaT);
    CohesionAsWrittenIsZero(p, m, s, i, vel, |s|);
    assert ScaleAndAdd(vel, Zero, XsphH) == vel;
  }
}
