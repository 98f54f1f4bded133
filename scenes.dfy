/** `generateScene`: the initial agent buffer of the CPU sample.

    Agent i is written into slots 8i .. 8i+7 from pure arithmetic on i and on the values
    `Math.random()` returns, which the model takes as an input sequence `draws` consumed in
    call order: four per agent in a RANDOM scene (pos.x, pos.y, vel.x, vel.y), one per agent
    in a SQUARE scene. A CIRCLE scene writes nothing, so its buffer stays zero. Even agents
    and odd agents form two cohorts heading in opposite directions. */
module CrowdScenes {
  import opened Vec2Math
  import opened AgentCodec

  datatype SceneType = Random | Square | Circle

  /** How many draws the scene takes per agent. */
  function DrawsPerAgent(scene: SceneType): nat {
    match scene
    case Random => 4
    case Square => 1
    case Circle => 0
  }

  /** `2 * (Math.random() - 0.5)`: a draw in [0, 1) mapped to [-1, 1). */
  function Spread(draw: real): real { 2.0 * (draw - 0.5) }

  // ------------------------------------------------------------------ powers of two

  function Pow2(e: nat): (r: nat)
    ensures 1 <= r
  {
    if e == 0 then 1 else 2 * Pow2(e - 1)
  }

  predicate IsPow2(n: nat) {
    n == 1 || (1 < n && n % 2 == 0 && IsPow2(n / 2))
  }

  /** `Math.log2(n)` for a power of two. */
  function Log2(n: nat): (k: nat)
    requires IsPow2(n)
    ensures Pow2(k) == n
  {
    if n == 1 then 0 else 1 + Log2(n / 2)
  }

  lemma {:induction false} Pow2Add(a: nat, b: nat)
    ensures Pow2(a) * Pow2(b) == Pow2(a + b)
  {
    if a > 0 {
      Pow2Add(a - 1, b);
      assert Pow2(a) * Pow2(b) == 2 * (Pow2(a - 1) * Pow2(b));
    }
  }

  /** The agent counts a SQUARE scene is laid out for: none, or two cohorts whose size is a
      power of two. */
  predicate SquareCount(numAgents: nat) {
    numAgents == 0 || (numAgents % 2 == 0 && IsPow2(numAgents / 2))
  }

  // ------------------------------------------------------------------ the square grid

  /** `x_count = 2 ** ceil(log2(n / 2) / 2)`. */
  function XCount(numAgents: nat): (c: nat)
    requires 2 <= numAgents && SquareCount(numAgents)
    ensures 1 <= c
  {
    Pow2((Log2(numAgents / 2) + 1) / 2)
  }

  /** `y_count = 2 ** floor(log2(n / 2) / 2)`. */
  function YCount(numAgents: nat): (c: nat)
    requires 2 <= numAgents && SquareCount(numAgents)
    ensures 1 <= c
  {
    Pow2(Log2(numAgents / 2) / 2)
  }

  /** The grid has one cell per agent of a cohort. */
  lemma GridSize(numAgents: nat)
    requires 2 <= numAgents && SquareCount(numAgents)
    ensures XCount(numAgents) * YCount(numAgents) == numAgents / 2
  {
    var k := Log2(numAgents / 2);
    Pow2Add((k + 1) / 2, k / 2);
    assert (k + 1) / 2 + k / 2 == k;
  }

  /** The cell (x_idx, y_idx) of agent i: Idx = floor(i / 2) laid out row by row. */
  function XIndex(numAgents: nat, i: nat): int
    requires 2 <= numAgents && SquareCount(numAgents)
  {
    (i / 2) % XCount(numAgents)
  }

  function YIndex(numAgents: nat, i: nat): int
    requires 2 <= numAgents && SquareCount(numAgents)
  {
    (i / 2) / XCount(numAgents)
  }

  lemma {:induction false} MulMonotone(a: nat, b: nat, c: nat)
    requires a <= b
    ensures a * c <= b * c
  {
    if c > 0 {
      MulMonotone(a, b, c - 1);
      assert a * c == a * (c - 1) + a;
      assert b * c == b * (c - 1) + b;
    }
  }

  /** a * c < b * c with c > 0 gives a < b. */
  lemma MulCancel(a: nat, b: nat, c: nat)
    requires a * c < b * c
    ensures a < b
  {
    if b <= a {
      MulMonotone(b, a, c);
    }
  }

  /** The quotient and remainder of y * xc + x by xc, for x < xc, are y and x. */
  lemma DivMod(idx: nat, xc: nat, x: nat, y: nat)
    requires x < xc && idx == y * xc + x
    ensures idx / xc == y && idx % xc == x
  {
    var q, r := idx / xc, idx % xc;
    assert idx == q * xc + r;
    assert q * xc < (y + 1) * xc;
    MulCancel(q, y + 1, xc);
    assert y * xc < (q + 1) * xc;
    MulCancel(y, q + 1, xc);
  }

  lemma RowBound(idx: nat, xc: nat, yc: nat)
    requires 1 <= xc && idx < xc * yc
    ensures idx / xc < yc
  {
    var q := idx / xc;
    assert q * xc <= idx;
    assert q * xc < yc * xc;
    MulCancel(q, yc, xc);
  }

  lemma CellInRangeAt(n: nat, i: nat, xc: nat, yc: nat)
    requires 1 <= xc && xc * yc == n / 2 && n % 2 == 0 && i < n
    ensures 0 <= (i / 2) % xc < xc
    ensures 0 <= (i / 2) / xc < yc
  {
    RowBound(i / 2, xc, yc);
  }

  /** Every agent's cell lies in [0, x_count) x [0, y_count). */
  lemma CellInRange(numAgents: nat, i: nat)
    requires 2 <= numAgents && SquareCount(numAgents)
    requires i < numAgents
    ensures 0 <= XIndex(numAgents, i) < XCount(numAgents)
    ensures 0 <= YIndex(numAgents, i) < YCount(numAgents)
  {
    GridSize(numAgents);
    CellInRangeAt(numAgents, i, XCount(numAgents), YCount(numAgents));
  }

  lemma RowMajor(idx: nat, xc: nat)
    requires 1 <= xc
    ensures idx == (idx / xc) * xc + idx % xc
  {
  }

  /** No two agents of one cohort share a cell. */
  lemma CellInjective(numAgents: nat, i: nat, j: nat)
    requires 2 <= numAgents && SquareCount(numAgents)
    requires i < numAgents && j < numAgents
    requires i % 2 == j % 2
    requires XIndex(numAgents, i) == XIndex(numAgents, j)
    requires YIndex(numAgents, i) == YIndex(numAgents, j)
    ensures i == j
  {
    var xc := XCount(numAgents);
    RowMajor(i / 2, xc);
    RowMajor(j / 2, xc);
  }

  lemma CellBelow(x: nat, y: nat, xc: nat, yc: nat)
    requires x < xc && y < yc
    ensures y * xc + x < xc * yc
  {
    MulMonotone(y + 1, yc, xc);
    assert (y + 1) * xc == y * xc + xc;
  }

  /** Every cell of the grid holds an agent of each cohort. */
  lemma CellCovered(numAgents: nat, x: nat, y: nat, parity: nat)
    requires 2 <= numAgents && SquareCount(numAgents)
    requires x < XCount(numAgents) && y < YCount(numAgents) && parity < 2
    ensures 2 * (y * XCount(numAgents) + x) + parity < numAgents
    ensures (2 * (y * XCount(numAgents) + x) + parity) % 2 == parity
    ensures XIndex(numAgents, 2 * (y * XCount(numAgents) + x) + parity) == x
    ensures YIndex(numAgents, 2 * (y * XCount(numAgents) + x) + parity) == y
  {
    var xc := XCount(numAgents);
    GridSize(numAgents);
    CellBelow(x, y, xc, YCount(numAgents));
    DivMod(y * xc + x, xc, x, y);
    var i := 2 * (y * xc + x) + parity;
    assert i / 2 == y * xc + x;
  }

  // ------------------------------------------------------------------ the scene

  /** The bounding box [lo, hi] of a cohort: the top box for even agents, the bottom box
      for odd agents, both inside a margin of 0.2. */
  datatype Box = Box(lo: Vec2, hi: Vec2)

  const XMargin: real := 0.2
  const YMargin: real := 0.2

  function Boundary(i: nat): Box {
    if i % 2 == 0 then Box(Vec2(XMargin - 1.0, YMargin), Vec2(1.0 - XMargin, 1.0 - YMargin))
    else Box(Vec2(XMargin - 1.0, YMargin - 1.0), Vec2(1.0 - XMargin, -YMargin))
  }

  /** The width and the height of one grid cell of agent i's box. */
  function XOffset(numAgents: nat, i: nat): real
    requires 2 <= numAgents && SquareCount(numAgents)
  {
    (Boundary(i).hi.x - Boundary(i).lo.x) / XCount(numAgents) as real
  }

  function YOffset(numAgents: nat, i: nat): real
    requires 2 <= numAgents && SquareCount(numAgents)
  {
    (Boundary(i).hi.y - Boundary(i).lo.y) / YCount(numAgents) as real
  }

  /** The width and the height of agent i's cell. */
  function CellSize(numAgents: nat, i: nat): Vec2
    requires 2 <= numAgents && SquareCount(numAgents)
  {
    Vec2(XOffset(numAgents, i), YOffset(numAgents, i))
  }

  /** The lower-left corner of cell (x, y) of a grid of cells of the given size whose
      lower-left corner is lo. */
  function Corner(lo: Vec2, x: int, y: int, size: Vec2): Vec2 {
    Vec2(CellStart(lo.x, x, size.x), CellStart(lo.y, y, size.y))
  }

  /** The start lo + k * offset of cell k of a row or column of cells of the given width. */
  function CellStart(lo: real, k: int, offset: real): real {
    lo + (k as real) * offset
  }

  /** The lower-left corner of agent i's cell. */
  function CellCorner(numAgents: nat, i: nat): Vec2
    requires 2 <= numAgents && SquareCount(numAgents)
  {
    Corner(Boundary(i).lo, XIndex(numAgents, i), YIndex(numAgents, i), CellSize(numAgents, i))
  }

  /** The perturbation of a SQUARE agent: a fifth of the cell, scaled on both axes by the
      same value rv. */
  function Perturbation(size: Vec2, rv: real): Vec2 {
    Vec2((size.x * rv) / 5.0, (size.y * rv) / 5.0)
  }

  /** The draws a scene of numAgents agents takes, and what each scene needs of the count. */
  predicate SceneInput(scene: SceneType, numAgents: nat, draws: seq<real>) {
    DrawsPerAgent(scene) * numAgents <= |draws| &&
    (scene == Square ==> SquareCount(numAgents))
  }

  /** Agent i of the scene. */
  function SceneAgent(scene: SceneType, numAgents: nat, agentScale: real, draws: seq<real>, i: nat): Agent
    requires SceneInput(scene, numAgents, draws)
    requires i < numAgents
  {
    match scene
    case Random =>
      var pos := Vec2(Spread(draws[4 * i]), Spread(draws[4 * i + 1]));
      var vel := Vec2(Spread(draws[4 * i + 2]) * 0.1, Spread(draws[4 * i + 3]) * 0.1);
      var goal := if i % 2 == 0 then Vec2(1.0, 1.0) else Vec2(-1.0, -1.0);
      Agent(pos, vel, pos, goal)
    case Square =>
      var pos := Add(CellCorner(numAgents, i), Perturbation(CellSize(numAgents, i), Spread(draws[i])));
      var vel := if i % 2 == 0 then Vec2(0.0, -0.1) else Vec2(0.0, 0.1);
      var goal := if i % 2 == 0 then Vec2(0.0, -1.0) else Vec2(0.0, 1.0);
      Agent(pos, Scale(vel, agentScale), pos, goal)
    case Circle =>
      Agent(Zero, Zero, Zero, Zero)
  }

  /** The agents of the scene, in buffer order. */
  function SceneAgents(scene: SceneType, numAgents: nat, agentScale: real, draws: seq<real>): (s: seq<Agent>)
    requires SceneInput(scene, numAgents, draws)
    ensures |s| == numAgents
  {
    seq(numAgents, (i: nat) requires i < numAgents => SceneAgent(scene, numAgents, agentScale, draws, i))
  }

  /** Agent i of a RANDOM scene, computed as the scene loop computes its slots: the
      position and the velocity from four draws, the planned position copied from the
      position, the goal by parity. */
  method RandomAgentAt(numAgents: nat, agentScale: real, draws: seq<real>, i: nat) returns (a: Agent)
    requires SceneInput(Random, numAgents, draws)
    requires i < numAgents
    ensures a == SceneAgent(Random, numAgents, agentScale, draws, i)
  {
    var px := 2.0 * (draws[4 * i] - 0.5);
    var py := 2.0 * (draws[4 * i + 1] - 0.5);
    var vx := 2.0 * (draws[4 * i + 2] - 0.5) * 0.1;
    var vy := 2.0 * (draws[4 * i + 3] - 0.5) * 0.1;
    var g := if i % 2 == 0 then 1.0 else -1.0;
    a := Agent(Vec2(px, py), Vec2(vx, vy), Vec2(px, py), Vec2(g, g));
  }

  /** Agent i of a SQUARE scene, computed as the scene loop computes its slots: the cell
      of i / 2 in the grid of its cohort's box, jittered by one draw. */
  method SquareAgentAt(numAgents: nat, agentScale: real, draws: seq<real>, i: nat) returns (a: Agent)
    requires SceneInput(Square, numAgents, draws)
    requires i < numAgents
    ensures a == SceneAgent(Square, numAgents, agentScale, draws, i)
  {
    var boundary := Boundary(i);
    var velocity := if i % 2 == 0 then Vec2(0.0, -0.1) else Vec2(0.0, 0.1);
    var goal := if i % 2 == 0 then Vec2(0.0, -1.0) else Vec2(0.0, 1.0);
    var idx := i / 2;
    var xCount := XCount(numAgents);
    var yCount := YCount(numAgents);
    var xOffset := (boundary.hi.x - boundary.lo.x) / xCount as real;
    var yOffset := (boundary.hi.y - boundary.lo.y) / yCount as real;
    var xIdx := idx % xCount;
    var yIdx := idx / xCount;
    var randomVal := 2.0 * (draws[i] - 0.5);
    var size := Vec2(xOffset, yOffset);
    var perturbation := Perturbation(size, randomVal);
    var corner := Corner(boundary.lo, xIdx, yIdx, size);
    assert size == CellSize(numAgents, i);
    assert xIdx == XIndex(numAgents, i) && yIdx == YIndex(numAgents, i);
    assert corner == CellCorner(numAgents, i);
    var pos := Add(corner, perturbation);
    a := Agent(pos, Vec2(velocity.x * agentScale, velocity.y * agentScale), pos, goal);
  }

  /** The body of the scene loop for agent i: the eight slots of agent i; a CIRCLE scene
      leaves them zero. */
  method WriteSceneAgent(data: array<real>, scene: SceneType, numAgents: nat, agentScale: real,
                         draws: seq<real>, i: nat)
    requires SceneInput(scene, numAgents, draws)
    requires i < numAgents && data.Length == Stride * numAgents
    requires forall j :: Stride * i <= j < data.Length ==> data[j] == 0.0
    modifies data
    ensures data[..Stride * i] == old(data[..Stride * i])
    ensures data[Stride * i .. Stride * i + Stride] == Record(SceneAgents(scene, numAgents, agentScale, draws)[i])
    ensures forall j :: Stride * (i + 1) <= j < data.Length ==> data[j] == 0.0
  {
    assert SceneAgents(scene, numAgents, agentScale, draws)[i] == SceneAgent(scene, numAgents, agentScale, draws, i);
    if scene == Random {
      var a := RandomAgentAt(numAgents, agentScale, draws, i);
      StoreRecord(data, Stride * i, a);
    } else if scene == Square {
      var a := SquareAgentAt(numAgents, agentScale, draws, i);
      StoreRecord(data, Stride * i, a);
    } else {
      assert data[Stride * i .. Stride * i + Stride] == Record(Agent(Zero, Zero, Zero, Zero));
    }
  }

  /** `generateScene(scene, numAgents, agentScale)`: a zeroed buffer of 8 * numAgents
      floats holding the records of the scene's agents. */
  method GenerateScene(scene: SceneType, numAgents: nat, agentScale: real, draws: seq<real>)
    returns (initialAgentData: array<real>)
    requires SceneInput(scene, numAgents, draws)
    ensures fresh(initialAgentData)
    ensures initialAgentData.Length == 8 * numAgents
    ensures initialAgentData[..] == Encode(SceneAgents(scene, numAgents, agentScale, draws))
  {
    initialAgentData := new real[numAgents * 8](_ => 0.0);
    ghost var agents := SceneAgents(scene, numAgents, agentScale, draws);
    for i := 0 to numAgents
      invariant initialAgentData[..8 * i] == Encode(agents[..i])
      invariant forall j :: 8 * i <= j < initialAgentData.Length ==> initialAgentData[j] == 0.0
    {
      ghost var before := initialAgentData[..8 * i];
      WriteSceneAgent(initialAgentData, scene, numAgents, agentScale, draws, i);
      assert initialAgentData[..8 * (i + 1)] == before + Record(agents[i]);
      EncodeSnoc(agents[..i], agents[i]);
      assert agents[..i] + [agents[i]] == agents[..i + 1];
    }
    assert initialAgentData[..] == initialAgentData[..8 * numAgents];
    assert agents[..numAgents] == agents;
  }

  // ------------------------------------------------------------------ properties

  /** In RANDOM and SQUARE scenes the planned position starts at the position; in a CIRCLE
      scene both are zero. */
  lemma ScenePposIsPos(scene: SceneType, numAgents: nat, agentScale: real, draws: seq<real>, i: nat)
    requires SceneInput(scene, numAgents, draws)
    requires i < numAgents
    ensures SceneAgent(scene, numAgents, agentScale, draws, i).ppos
         == SceneAgent(scene, numAgents, agentScale, draws, i).pos
  {
  }

  /** A CIRCLE scene is not handled: every record is all zeros. */
  lemma CircleIsZero(numAgents: nat, agentScale: real, draws: seq<real>, i: nat, k: nat)
    requires i < numAgents && k < Stride
    ensures Encode(SceneAgents(Circle, numAgents, agentScale, draws))[Stride * i + k] == 0.0
  {
    EncodeAt(SceneAgents(Circle, numAgents, agentScale, draws), i, k);
  }

  /** RANDOM: even agents head for (1, 1), odd agents for (-1, -1); with draws in [0, 1)
      positions lie in [-1, 1) and velocities in [-0.1, 0.1) on each axis. */
  lemma RandomAgent(numAgents: nat, agentScale: real, draws: seq<real>, i: nat)
    requires SceneInput(Random, numAgents, draws)
    requires i < numAgents
    requires forall k :: 0 <= k < |draws| ==> 0.0 <= draws[k] < 1.0
    ensures var a := SceneAgent(Random, numAgents, agentScale, draws, i);
      a.goal == (if i % 2 == 0 then Vec2(1.0, 1.0) else Vec2(-1.0, -1.0)) &&
      -1.0 <= a.pos.x < 1.0 && -1.0 <= a.pos.y < 1.0 &&
      -0.1 <= a.vel.x < 0.1 && -0.1 <= a.vel.y < 0.1
  {
    assert 0.0 <= draws[4 * i] < 1.0 && 0.0 <= draws[4 * i + 1] < 1.0;
    assert 0.0 <= draws[4 * i + 2] < 1.0 && 0.0 <= draws[4 * i + 3] < 1.0;
  }

  /** SQUARE cohorts: even agents start in the top box moving down at 0.1 * agentScale
      toward (0, -1); odd agents start in the bottom box moving up toward (0, 1). */
  lemma SquareCohort(numAgents: nat, agentScale: real, draws: seq<real>, i: nat)
    requires SceneInput(Square, numAgents, draws)
    requires i < numAgents
    ensures var a := SceneAgent(Square, numAgents, agentScale, draws, i);
      if i % 2 == 0 then
        Boundary(i) == Box(Vec2(-0.8, 0.2), Vec2(0.8, 0.8)) &&
        a.vel == Vec2(0.0, -0.1 * agentScale) && a.goal == Vec2(0.0, -1.0)
      else
        Boundary(i) == Box(Vec2(-0.8, -0.8), Vec2(0.8, -0.2)) &&
        a.vel == Vec2(0.0, 0.1 * agentScale) && a.goal == Vec2(0.0, 1.0)
  {
  }

  /** A SQUARE agent's position is its cell corner plus the perturbation of its draw. */
  lemma SquarePosition(numAgents: nat, agentScale: real, draws: seq<real>, i: nat)
    requires SceneInput(Square, numAgents, draws)
    requires i < numAgents
    ensures SceneAgent(Square, numAgents, agentScale, draws, i).pos
         == Add(CellCorner(numAgents, i), Perturbation(CellSize(numAgents, i), Spread(draws[i])))
  {
  }

  lemma SubAdd(c: Vec2, d: Vec2)
    ensures Sub(Add(c, d), c) == d
  {
  }

  /** A SQUARE agent is at its cell corner plus a perturbation of at most a fifth of the
      cell on each axis, both axes scaled by the same draw. */
  lemma SquareJitter(numAgents: nat, agentScale: real, draws: seq<real>, i: nat)
    requires SceneInput(Square, numAgents, draws)
    requires i < numAgents
    requires 0.0 <= draws[i] < 1.0
    ensures var a := SceneAgent(Square, numAgents, agentScale, draws, i);
      var d := Sub(a.pos, CellCorner(numAgents, i));
      d == Perturbation(CellSize(numAgents, i), Spread(draws[i])) &&
      Abs(d.x) <= XOffset(numAgents, i) / 5.0 && Abs(d.y) <= YOffset(numAgents, i) / 5.0
  {
    var rv := Spread(draws[i]);
    SquarePosition(numAgents, agentScale, draws, i);
    SubAdd(CellCorner(numAgents, i), Perturbation(CellSize(numAgents, i), rv));
    OffsetsPositive(numAgents, i);
    PerturbationBound(CellSize(numAgents, i), rv);
  }

  /** For rv in [-1, 1] the perturbation is at most a fifth of the cell on each axis. */
  lemma PerturbationBound(size: Vec2, rv: real)
    requires 0.0 < size.x && 0.0 < size.y
    requires -1.0 <= rv <= 1.0
    ensures Abs(Perturbation(size, rv).x) <= size.x / 5.0
    ensures Abs(Perturbation(size, rv).y) <= size.y / 5.0
  {
    JitterBound(size.x, rv);
    JitterBound(size.y, rv);
  }

  lemma OffsetsPositive(numAgents: nat, i: nat)
    requires 2 <= numAgents && SquareCount(numAgents)
    ensures 0.0 < XOffset(numAgents, i) && 0.0 < YOffset(numAgents, i)
  {
  }

  lemma JitterBound(offset: real, rv: real)
    requires 0.0 < offset
    requires -1.0 <= rv <= 1.0
    ensures Abs((offset * rv) / 5.0) <= offset / 5.0
  {
    if rv < 0.0 {
      assert offset * rv >= -offset;
    } else {
      assert offset * rv <= offset;
    }
  }

  lemma YOffsetTimesCount(numAgents: nat, i: nat)
    requires 2 <= numAgents && SquareCount(numAgents)
    ensures (YCount(numAgents) as real) * YOffset(numAgents, i) == Boundary(i).hi.y - Boundary(i).lo.y
  {
  }

  // Steps of real arithmetic that the solver does not take on its own inside larger
  // contexts.

  lemma MulMonotoneReal(a: real, b: real, c: real)
    requires a <= b && 0.0 <= c
    ensures a * c <= b * c
  {
  }

  lemma MulOneLess(a: real, c: real)
    ensures (a - 1.0) * c == a * c - c
  {
  }

  lemma ChainBelow(p: real, q: real, r: real, h: real, d: real)
    requires p <= q && q == r - d && r == h
    ensures p <= h - d
  {
  }

  lemma DivTimes(h: real, c: real, q: real)
    requires 0.0 < h && 1.0 <= c && q == h / c
    ensures 0.0 < q && c * q == h
  {
  }

  /** Rows 0 .. yc-1 of height yo in a box of height h = yc * yo start between 0 and one
      row below the top. */
  lemma RowHeight(row: real, yc: real, yo: real, h: real)
    requires 0.0 <= row <= yc - 1.0 && 0.0 < yo && yc * yo == h
    ensures 0.0 <= row * yo <= h - yo
  {
    MulMonotoneReal(0.0, row, yo);
    MulMonotoneReal(row, yc - 1.0, yo);
    MulOneLess(yc, yo);
    ChainBelow(row * yo, (yc - 1.0) * yo, yc * yo, h, yo);
  }

  /** One cell is no taller than the box. */
  lemma CellHeight(yo: real, yc: real, h: real)
    requires 1.0 <= yc && 0.0 < yo && yc * yo == h
    ensures yo <= h
  {
    MulMonotoneReal(1.0, yc, yo);
  }

  /** The height lo + rowY + jitter of a jittered row of a cohort's box lies on the side of
      the x axis of its cohort, when the row starts at most one cell below the top. */
  lemma RowSide(parity: nat, lo: real, hi: real, rowY: real, yo: real, jitter: real)
    requires parity < 2
    requires lo == (if parity == 0 then YMargin else YMargin - 1.0)
    requires hi == (if parity == 0 then 1.0 - YMargin else -YMargin)
    requires 0.0 <= rowY <= (hi - lo) - yo && 0.0 < yo <= hi - lo
    requires Abs(jitter) <= yo / 5.0
    ensures parity == 0 ==> 0.0 < lo + rowY + jitter
    ensures parity == 1 ==> lo + rowY + jitter < 0.0
  {
  }

  /** Row `row` of `yc` rows of height `yo` filling a cohort's box, moved vertically by at
      most a fifth of a row, stays on the cohort's side of the x axis. */
  lemma RowJitterSide(parity: nat, lo: real, hi: real, row: int, yc: int, yo: real, jitter: real)
    requires parity < 2
    requires lo == (if parity == 0 then YMargin else YMargin - 1.0)
    requires hi == (if parity == 0 then 1.0 - YMargin else -YMargin)
    requires 0 <= row < yc && yo == (hi - lo) / yc as real
    requires Abs(jitter) <= yo / 5.0
    ensures parity == 0 ==> 0.0 < CellStart(lo, row, yo) + jitter
    ensures parity == 1 ==> CellStart(lo, row, yo) + jitter < 0.0
  {
    DivTimes(hi - lo, yc as real, yo);
    RowHeight(row as real, yc as real, yo, hi - lo);
    CellHeight(yo, yc as real, hi - lo);
    RowSide(parity, lo, hi, (row as real) * yo, yo, jitter);
  }

  /** A cell's corner, moved vertically by at most a fifth of the cell, stays on its
      cohort's side of the x axis. */
  lemma CornerSide(numAgents: nat, i: nat, jitter: real)
    requires 2 <= numAgents && SquareCount(numAgents)
    requires i < numAgents
    requires Abs(jitter) <= YOffset(numAgents, i) / 5.0
    ensures i % 2 == 0 ==> 0.0 < CellCorner(numAgents, i).y + jitter
    ensures i % 2 == 1 ==> CellCorner(numAgents, i).y + jitter < 0.0
  {
    CellInRange(numAgents, i);
    RowJitterSide(i % 2, Boundary(i).lo.y, Boundary(i).hi.y, YIndex(numAgents, i), YCount(numAgents),
                  YOffset(numAgents, i), jitter);
  }

  /** The jittered rows of both cohorts stay on their side of the x axis: the top cohort
      strictly above it, the bottom cohort strictly below it. */
  lemma SquareCohortsSeparated(numAgents: nat, agentScale: real, draws: seq<real>, i: nat)
    requires SceneInput(Square, numAgents, draws)
    requires i < numAgents
    requires 0.0 <= draws[i] < 1.0
    ensures var a := SceneAgent(Square, numAgents, agentScale, draws, i);
      if i % 2 == 0 then 0.0 < a.pos.y else a.pos.y < 0.0
  {
    var rv := Spread(draws[i]);
    SquarePosition(numAgents, agentScale, draws, i);
    OffsetsPositive(numAgents, i);
    PerturbationBound(CellSize(numAgents, i), rv);
    CornerSide(numAgents, i, Perturbation(CellSize(numAgents, i), rv).y);
  }
}
