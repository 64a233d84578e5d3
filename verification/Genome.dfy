/** The evolvable chromosome: bounds, clamping in place, and the random operators. */
module Genome {
  import opened Data
  import opened Numeric

  /** A source of random draws; the streams are arbitrary. */
  class Rng {
    const uniforms: nat -> real
    const normals: nat -> real
    const choices: (nat, nat) -> nat
    var pos: nat

    constructor (uniforms: nat -> real, normals: nat -> real, choices: (nat, nat) -> nat) {
      this.uniforms, this.normals, this.choices := uniforms, normals, choices;
      pos := 0;
    }

    method Float64() returns (u: real)
      modifies this
      ensures u == uniforms(old(pos)) && pos == old(pos) + 1
    {
      u := uniforms(pos);
      pos := pos + 1;
    }

    method NormFloat64() returns (z: real)
      modifies this
      ensures z == normals(old(pos)) && pos == old(pos) + 1
    {
      z := normals(pos);
      pos := pos + 1;
    }

    /** The i-th draw, as a choice among n. */
    function Choice(i: nat, n: nat): (k: nat)
      requires n > 0
      ensures k < n
    {
      if choices(i, n) < n then choices(i, n) else 0
    }

    method Intn(n: nat) returns (k: nat)
      requires n > 0
      modifies this
      ensures k == Choice(old(pos), n) && pos == old(pos) + 1
    {
      k := Choice(pos, n);
      pos := pos + 1;
    }
  }

  const DROP_MIN: real := 0.05
  const DROP_MAX: real := 0.30
  const SENSITIVITY_MIN: real := 1.0
  const SENSITIVITY_MAX: real := 10.0
  const STOP_MIN: real := -0.30
  const STOP_MAX: real := -0.10

  const DEFAULT_SEED := Chromosome(0.10, 5.0, -0.20)

  predicate InBounds(c: Chromosome) {
    && DROP_MIN <= c.dcaDropPct <= DROP_MAX
    && SENSITIVITY_MIN <= c.sigmoidSensitivity <= SENSITIVITY_MAX
    && STOP_MIN <= c.stopLossThreshold <= STOP_MAX
  }

  function Clamped(c: Chromosome): (r: Chromosome)
    ensures InBounds(r)
    ensures InBounds(c) ==> r == c
  {
    Chromosome(ClipFloat64(c.dcaDropPct, DROP_MIN, DROP_MAX),
               ClipFloat64(c.sigmoidSensitivity, SENSITIVITY_MIN, SENSITIVITY_MAX),
               ClipFloat64(c.stopLossThreshold, STOP_MIN, STOP_MAX))
  }

  /** A chromosome that is edited in place. */
  class ChromosomeCell {
    var dcaDropPct: real
    var sigmoidSensitivity: real
    var stopLossThreshold: real

    constructor (c: Chromosome)
      ensures Value() == c
    {
      dcaDropPct, sigmoidSensitivity, stopLossThreshold := c.dcaDropPct, c.sigmoidSensitivity, c.stopLossThreshold;
    }

    function Value(): Chromosome
      reads this
    {
      Chromosome(dcaDropPct, sigmoidSensitivity, stopLossThreshold)
    }

    method Clamp()
      modifies this
      ensures Value() == Clamped(old(Value()))
    {
      dcaDropPct := ClipFloat64(dcaDropPct, DROP_MIN, DROP_MAX);
      sigmoidSensitivity := ClipFloat64(sigmoidSensitivity, SENSITIVITY_MIN, SENSITIVITY_MAX);
      stopLossThreshold := ClipFloat64(stopLossThreshold, STOP_MIN, STOP_MAX);
    }
  }

  /** A stored parameter pack decodes to a legal chromosome, or to the default seed when it
      cannot be read. */
  function DecodeElite(raw: Option<Chromosome>): (c: Chromosome)
    ensures InBounds(c)
    ensures raw.None? ==> c == DEFAULT_SEED
    ensures raw.Some? && InBounds(raw.value) ==> c == raw.value
  {
    match raw
    case None => DEFAULT_SEED
    case Some(c) => Clamped(c)
  }

  function Between(lo: real, hi: real, u: real): real {
    lo + u * (hi - lo)
  }

  /** Three uniform draws, one a field, scaled into the bounds. */
  function Sampled(rng: Rng, pos: nat): Chromosome {
    Clamped(Chromosome(Between(DROP_MIN, DROP_MAX, rng.uniforms(pos)),
                       Between(SENSITIVITY_MIN, SENSITIVITY_MAX, rng.uniforms(pos + 1)),
                       Between(STOP_MIN, STOP_MAX, rng.uniforms(pos + 2))))
  }

  method Sample(rng: Rng) returns (c: Chromosome)
    modifies rng
    ensures InBounds(c) && rng.pos == old(rng.pos) + 3
    ensures c == Sampled(rng, old(rng.pos))
  {
    var u1 := rng.Float64();
    var u2 := rng.Float64();
    var u3 := rng.Float64();
    var cell := new ChromosomeCell(Chromosome(Between(DROP_MIN, DROP_MAX, u1),
                                              Between(SENSITIVITY_MIN, SENSITIVITY_MAX, u2),
                                              Between(STOP_MIN, STOP_MAX, u3)));
    cell.Clamp();
    c := cell.Value();
  }

  function Noise(z: real, step: real, scale: real): real {
    z * step * scale
  }

  /** One gated field: a uniform draw below prob spends a normal draw on noise. */
  function GatedField(rng: Rng, pos: nat, v: real, prob: real, step: real, scale: real): (r: (real, nat))
    ensures rng.uniforms(pos) >= prob ==> r == (v, pos + 1)
  {
    if rng.uniforms(pos) < prob then (v + Noise(rng.normals(pos + 1), step, scale), pos + 2) else (v, pos + 1)
  }

  function Mutated(rng: Rng, pos: nat, g: Chromosome, prob: real, scale: real): Chromosome {
    var (a, p1) := GatedField(rng, pos, g.dcaDropPct, prob, 0.01, scale);
    var (b, p2) := GatedField(rng, p1, g.sigmoidSensitivity, prob, 0.50, scale);
    var (c, p3) := GatedField(rng, p2, g.stopLossThreshold, prob, 0.01, scale);
    Clamped(Chromosome(a, b, c))
  }

  /** A legal chromosome that no gate opens for is unchanged. */
  lemma NoGateNoChange(rng: Rng, pos: nat, g: Chromosome, prob: real, scale: real)
    requires InBounds(g) && forall i :: rng.uniforms(i) >= prob
    ensures Mutated(rng, pos, g, prob, scale) == g
  {
    hide InBounds, Noise;
  }

  method MutateField(v: real, prob: real, step: real, scale: real, rng: Rng) returns (v': real)
    modifies rng
    ensures (v', rng.pos) == GatedField(rng, old(rng.pos), v, prob, step, scale)
    ensures rng.pos > old(rng.pos)
  {
    v' := v;
    var u := rng.Float64();
    if u < prob {
      var z := rng.NormFloat64();
      v' := v' + Noise(z, step, scale);
    }
  }

  /** Gated noise per field, then clamping; a legal chromosome that no gate opens for is
      returned as it is. */
  method Mutate(g: Chromosome, prob: real, scale: real, rng: Rng) returns (c: Chromosome)
    modifies rng
    ensures InBounds(c) && rng.pos > old(rng.pos)
    ensures c == Mutated(rng, old(rng.pos), g, prob, scale)
    ensures (forall i :: rng.uniforms(i) >= prob) ==> c == Clamped(g)
  {
    var cell := new ChromosomeCell(g);
    cell.dcaDropPct := MutateField(cell.dcaDropPct, prob, 0.01, scale, rng);
    cell.sigmoidSensitivity := MutateField(cell.sigmoidSensitivity, prob, 0.50, scale, rng);
    cell.stopLossThreshold := MutateField(cell.stopLossThreshold, prob, 0.01, scale, rng);
    cell.Clamp();
    c := cell.Value();
  }

  /** Every field of c is the field of a or of b. */
  predicate BredFrom(c: Chromosome, a: Chromosome, b: Chromosome) {
    && (c.dcaDropPct == a.dcaDropPct || c.dcaDropPct == b.dcaDropPct)
    && (c.sigmoidSensitivity == a.sigmoidSensitivity || c.sigmoidSensitivity == b.sigmoidSensitivity)
    && (c.stopLossThreshold == a.stopLossThreshold || c.stopLossThreshold == b.stopLossThreshold)
  }

  /** Uniform crossover: a fair draw per field chooses the parent. */
  function Crossed(rng: Rng, pos: nat, p1: Chromosome, p2: Chromosome): Chromosome {
    Clamped(Chromosome((if rng.uniforms(pos) < 0.5 then p2 else p1).dcaDropPct,
                       (if rng.uniforms(pos + 1) < 0.5 then p2 else p1).sigmoidSensitivity,
                       (if rng.uniforms(pos + 2) < 0.5 then p2 else p1).stopLossThreshold))
  }

  lemma CrossedIsBred(rng: Rng, pos: nat, p1: Chromosome, p2: Chromosome)
    requires InBounds(p1) && InBounds(p2)
    ensures InBounds(Crossed(rng, pos, p1, p2)) && BredFrom(Crossed(rng, pos, p1, p2), p1, p2)
  {}

  method Crossover(p1: Chromosome, p2: Chromosome, rng: Rng) returns (c: Chromosome)
    modifies rng
    ensures InBounds(c) && rng.pos == old(rng.pos) + 3
    ensures InBounds(p1) && InBounds(p2) ==> BredFrom(c, p1, p2)
    ensures c == Crossed(rng, old(rng.pos), p1, p2)
  {
    var child := new ChromosomeCell(p1);
    var u := rng.Float64();
    if u < 0.5 {
      child.dcaDropPct := p2.dcaDropPct;
    }
    u := rng.Float64();
    if u < 0.5 {
      child.sigmoidSensitivity := p2.sigmoidSensitivity;
    }
    u := rng.Float64();
    if u < 0.5 {
      child.stopLossThreshold := p2.stopLossThreshold;
    }
    child.Clamp();
    c := child.Value();
  }

  /** The hard bounds and the default seed. */
  lemma HardBounds(c: Chromosome)
    ensures InBounds(c) <==> (&& 0.05 <= c.dcaDropPct <= 0.30 && 1.0 <= c.sigmoidSensitivity <= 10.0
                              && -0.30 <= c.stopLossThreshold <= -0.10)
    ensures DecodeElite(None) == Chromosome(0.10, 5.0, -0.20) && InBounds(DecodeElite(None))
  {}

  /** A sample spreads three draws of the unit interval evenly over the bounds. */
  lemma SampleSpread(rng: Rng, pos: nat)
    requires forall i :: pos <= i < pos + 3 ==> 0.0 <= rng.uniforms(i) <= 1.0
    ensures Sampled(rng, pos) == Chromosome(0.05 + 0.25 * rng.uniforms(pos), 1.0 + 9.0 * rng.uniforms(pos + 1),
                                            -0.30 + 0.20 * rng.uniforms(pos + 2))
  {}

  /** Whose field a child of legal parents gets. */
  lemma ParentOfField(rng: Rng, pos: nat, p1: Chromosome, p2: Chromosome)
    requires InBounds(p1) && InBounds(p2)
    ensures var c := Crossed(rng, pos, p1, p2);
      && c.dcaDropPct == (if rng.uniforms(pos) < 0.5 then p2.dcaDropPct else p1.dcaDropPct)
      && c.sigmoidSensitivity == (if rng.uniforms(pos + 1) < 0.5 then p2.sigmoidSensitivity else p1.sigmoidSensitivity)
      && c.stopLossThreshold == (if rng.uniforms(pos + 2) < 0.5 then p2.stopLossThreshold else p1.stopLossThreshold)
  {}

  /** Where the draws of each field start: an open gate spends one more. */
  function AfterGate(rng: Rng, pos: nat, prob: real): nat {
    if rng.uniforms(pos) < prob then pos + 2 else pos + 1
  }

  /** What an open gate does to each field of a legal chromosome: normal noise of 0.01, 0.5
      and 0.01 times the scale, cut off at the bounds; a closed gate does nothing. */
  lemma MutationSteps(rng: Rng, pos: nat, g: Chromosome, prob: real, scale: real)
    requires InBounds(g)
    ensures var c, p1 := Mutated(rng, pos, g, prob, scale), AfterGate(rng, pos, prob);
      var p2 := AfterGate(rng, p1, prob);
      && c.dcaDropPct == (if rng.uniforms(pos) < prob
           then ClipFloat64(g.dcaDropPct + rng.normals(pos + 1) * 0.01 * scale, 0.05, 0.30) else g.dcaDropPct)
      && c.sigmoidSensitivity == (if rng.uniforms(p1) < prob
           then ClipFloat64(g.sigmoidSensitivity + rng.normals(p1 + 1) * 0.5 * scale, 1.0, 10.0)
           else g.sigmoidSensitivity)
      && c.stopLossThreshold == (if rng.uniforms(p2) < prob
           then ClipFloat64(g.stopLossThreshold + rng.normals(p2 + 1) * 0.01 * scale, -0.30, -0.10)
           else g.stopLossThreshold)
  {}
}
