/** One evolution epoch: initial population, evaluation, elitism, selection, early stop. */
module Epoch {
  import opened Data
  import opened Numeric
  import opened Genome
  import opened WorkerPool
  import opened EarlyStop

  datatype Individual = Individual(gene: Chromosome, fitness: real)

  datatype EpochResult = EpochResult(bestScore: real, generations: nat, bestGene: Chromosome)

  /** What an epoch is given: how genes are fingerprinted and scored, and the stored elites,
      best first, with the unreadable ones as None. */
  datatype Setting = Setting(
    fingerprint: Chromosome -> int, fit: Chromosome -> real, numCpu: nat, elites: seq<Option<Chromosome>>)

  /** Scores agree on equal fingerprints, so that the cache changes nothing. */
  ghost predicate WellScored(s: Setting) {
    && s.numCpu > 0
    && forall a, b :: s.fingerprint(a) == s.fingerprint(b) ==> s.fit(a) == s.fit(b)
  }

  ghost predicate AllInBounds(pop: seq<Chromosome>) {
    forall i :: 0 <= i < |pop| ==> InBounds(pop[i])
  }

  function Seed(s: Setting): Chromosome {
    DecodeElite(if |s.elites| > 0 then s.elites[0] else None)
  }

  /** How many elite copies and how many mutated elites the initial population gets. */
  function EliteCopies(remaining: int): int {
    var tenth := remaining * 10 / 100;
    if tenth > 1 then tenth else 1
  }

  function Mutants(remaining: int): int {
    remaining * 40 / 100
  }

  /** The number of elite copies that fit. */
  function CopiesIn(s: Setting, popSize: int): int {
    if |s.elites| == 0 || popSize <= 1 then 0
    else if EliteCopies(popSize - 1) < popSize - 1 then EliteCopies(popSize - 1)
    else popSize - 1
  }

  /** The seed, then the first k elite copies, round robin. */
  ghost predicate SeedAndCopies(s: Setting, pop: seq<Chromosome>, k: int) {
    && 0 <= k < |pop| && AllInBounds(pop) && pop[0] == Seed(s)
    && (k > 0 ==> |s.elites| > 0 && forall i :: 1 <= i <= k ==> pop[i] == DecodeElite(s.elites[(i - 1) % |s.elites|]))
  }

  /** The number of mutated elites that fit after the copies. */
  function MutantsIn(s: Setting, popSize: int): int {
    var left := popSize - 1 - CopiesIn(s, popSize);
    if |s.elites| == 0 || popSize <= 1 then 0
    else if Mutants(popSize - 1) < left then Mutants(popSize - 1)
    else left
  }

  ghost predicate MutantOf(c: Chromosome, base: Chromosome, rng: Rng) {
    exists at: nat :: c == Mutated(rng, at, base, 0.15, 1.5)
  }

  ghost predicate RandomGene(c: Chromosome, rng: Rng) {
    exists at: nat :: c == Sampled(rng, at)
  }

  /** The n genes from position `from` on are mutated elites, round robin. */
  ghost predicate MutantsFrom(s: Setting, pop: seq<Chromosome>, from: nat, n: int, rng: Rng) {
    && from + n <= |pop| && (n > 0 ==> |s.elites| > 0)
    && forall i :: 0 <= i < n ==> MutantOf(pop[from + i], DecodeElite(s.elites[i % |s.elites|]), rng)
  }

  /** The initial population: the seed, about 10% elite copies, 40% mutated elites, and
      random genes. */
  ghost predicate Initial(s: Setting, popSize: int, pop: seq<Chromosome>, rng: Rng) {
    var copies, mutants := CopiesIn(s, popSize), MutantsIn(s, popSize);
    && |pop| == popSize && AllInBounds(pop)
    && SeedAndCopies(s, pop, copies)
    && MutantsFrom(s, pop, 1 + copies, mutants, rng)
    && forall k :: 1 + copies + mutants <= k < popSize ==> RandomGene(pop[k], rng)
  }

  lemma NoMutants(s: Setting, pop: seq<Chromosome>, from: nat, rng: Rng)
    ensures from <= |pop| ==> MutantsFrom(s, pop, from, 0, rng)
  {}

  lemma MutantAdded(s: Setting, pop: seq<Chromosome>, from: nat, n: nat, c: Chromosome, rng: Rng)
    requires MutantsFrom(s, pop, from, n, rng) && |pop| == from + n && |s.elites| > 0
    requires MutantOf(c, DecodeElite(s.elites[n % |s.elites|]), rng)
    ensures MutantsFrom(s, pop + [c], from, n + 1, rng)
  {
    hide MutantOf;
  }

  method MutatedElite(base: Chromosome, rng: Rng) returns (c: Chromosome)
    modifies rng
    ensures InBounds(c) && MutantOf(c, base, rng)
  {
    c := Mutate(base, 0.15, 1.5, rng);
  }

  method RandomOne(rng: Rng) returns (c: Chromosome)
    modifies rng
    ensures InBounds(c) && RandomGene(c, rng)
  {
    c := Sample(rng);
  }

  /** The rest of the initial population. */
  method RandomGenes(n: nat, rng: Rng) returns (genes: seq<Chromosome>)
    modifies rng
    ensures |genes| == n && AllInBounds(genes) && forall k :: 0 <= k < n ==> RandomGene(genes[k], rng)
  {
    hide RandomGene, InBounds;
    genes := [];
    while |genes| < n
      invariant |genes| <= n && AllInBounds(genes)
      invariant forall k :: 0 <= k < |genes| ==> RandomGene(genes[k], rng)
    {
      var c := RandomOne(rng);
      genes := genes + [c];
    }
  }

  lemma RandomsAdded(s: Setting, popSize: int, pop: seq<Chromosome>, genes: seq<Chromosome>, rng: Rng)
    requires var copies, mutants := CopiesIn(s, popSize), MutantsIn(s, popSize);
      && SeedAndCopies(s, pop, copies) && MutantsFrom(s, pop, 1 + copies, mutants, rng)
      && |pop| == 1 + copies + mutants && |pop| + |genes| == popSize
    requires AllInBounds(genes) && forall k :: 0 <= k < |genes| ==> RandomGene(genes[k], rng)
    ensures Initial(s, popSize, pop + genes, rng)
  {
    hide RandomGene, MutantOf, InBounds, DecodeElite, CopiesIn, MutantsIn, Seed;
  }

  method InitPopulation(s: Setting, popSize: int, rng: Rng) returns (pop: seq<Chromosome>)
    requires popSize > 0
    modifies rng
    ensures |pop| == popSize && AllInBounds(pop)
    ensures pop[0] == Seed(s)
    ensures SeedAndCopies(s, pop, CopiesIn(s, popSize))
    ensures Initial(s, popSize, pop, rng)
  {
    hide MutantOf, RandomGene, InBounds, Clamped;
    pop := [Seed(s)];
    var copies, mutants := CopiesIn(s, popSize), MutantsIn(s, popSize);
    if |s.elites| > 0 && popSize > 1 {
      var eliteCount, mutCount := EliteCopies(popSize - 1), Mutants(popSize - 1);
      var i: nat := 0;
      while i < eliteCount && |pop| < popSize
        invariant |pop| == i + 1 <= popSize && i <= eliteCount
        invariant SeedAndCopies(s, pop, i)
      {
        pop := pop + [DecodeElite(s.elites[i % |s.elites|])];
        i := i + 1;
      }
      i := 0;
      NoMutants(s, pop, 1 + copies, rng);
      while i < mutCount && |pop| < popSize
        invariant |pop| == 1 + copies + i <= popSize && i <= mutCount
        invariant SeedAndCopies(s, pop, copies) && MutantsFrom(s, pop, 1 + copies, i, rng)
      {
        var base := DecodeElite(s.elites[i % |s.elites|]);
        var mutant := MutatedElite(base, rng);
        MutantAdded(s, pop, 1 + copies, i, mutant, rng);
        pop := pop + [mutant];
        i := i + 1;
      }
    }
    var genes := RandomGenes(popSize - |pop|, rng);
    RandomsAdded(s, popSize, pop, genes, rng);
    pop := pop + genes;
  }

  ghost predicate Descending(inds: seq<Individual>) {
    forall i, j :: 0 <= i < j < |inds| ==> inds[i].fitness >= inds[j].fitness
  }

  method IndexOfBest(inds: array<Individual>, from: nat) returns (best: nat)
    requires from < inds.Length
    ensures from <= best < inds.Length
    ensures forall b :: from <= b < inds.Length ==> inds[best].fitness >= inds[b].fitness
  {
    best := from;
    for j := from + 1 to inds.Length
      invariant from <= best < inds.Length
      invariant forall b :: from <= b < j ==> inds[best].fitness >= inds[b].fitness
    {
      if inds[j].fitness > inds[best].fitness {
        best := j;
      }
    }
  }

  method Swap(inds: array<Individual>, i: nat, j: nat)
    requires i <= j < inds.Length
    modifies inds
    ensures multiset(inds[..]) == multiset(old(inds[..]))
    ensures inds[i] == old(inds[j]) && inds[j] == old(inds[i])
    ensures forall k :: 0 <= k < inds.Length && k != i && k != j ==> inds[k] == old(inds[k])
  {
    inds[i], inds[j] := inds[j], inds[i];
  }

  /** The first i individuals are in place. */
  ghost predicate InPlace(inds: seq<Individual>, i: int) {
    forall a, b :: 0 <= a < i && a < b < |inds| ==> inds[a].fitness >= inds[b].fitness
  }

  lemma SwapKeepsOrder(before: seq<Individual>, after: seq<Individual>, i: nat, best: nat)
    requires i <= best < |before| == |after| && InPlace(before, i)
    requires forall b :: i <= b < |before| ==> before[best].fitness >= before[b].fitness
    requires after[i] == before[best] && after[best] == before[i]
    requires forall k :: 0 <= k < |before| && k != i && k != best ==> after[k] == before[k]
    ensures InPlace(after, i + 1)
  {}

  /** Best first.  The program leaves the algorithm to its library; any permutation in
      descending order meets this contract. */
  method SortByFitness(inds: array<Individual>)
    modifies inds
    ensures multiset(inds[..]) == multiset(old(inds[..]))
    ensures Descending(inds[..])
  {
    for i := 0 to inds.Length
      invariant multiset(inds[..]) == multiset(old(inds[..]))
      invariant InPlace(inds[..], i)
    {
      var best := IndexOfBest(inds, i);
      ghost var before := inds[..];
      Swap(inds, i, best);
      SwapKeepsOrder(before, inds[..], i, best);
    }
  }

  /** k is the fittest of the draws at the stream positions from..to. */
  ghost predicate FittestDraw(inds: seq<Individual>, rng: Rng, from: nat, to: nat, k: int)
    requires |inds| > 0
  {
    && 0 <= k < |inds|
    && (exists i :: from <= i < to && rng.Choice(i, |inds|) == k)
    && (forall i :: from <= i < to ==> inds[rng.Choice(i, |inds|)].fitness <= inds[k].fitness)
  }

  function Max1(size: int): nat {
    if size > 1 then size else 1
  }

  /** The fittest of `size` draws with replacement (at least one); k is its position. */
  method TournamentSelect(inds: seq<Individual>, size: int, rng: Rng) returns (gene: Chromosome, ghost k: int)
    requires |inds| > 0
    modifies rng
    ensures rng.pos == old(rng.pos) + Max1(size)
    ensures FittestDraw(inds, rng, old(rng.pos), rng.pos, k) && gene == inds[k].gene
  {
    ghost var start := rng.pos;
    var best: nat := rng.Intn(|inds|);
    var d := 1;
    while d < size
      invariant 1 <= d <= Max1(size) && rng.pos == start + d
      invariant 0 <= best && FittestDraw(inds, rng, start, rng.pos, best)
    {
      ghost var at := rng.pos;
      var candidate := rng.Intn(|inds|);
      assert rng.Choice(at, |inds|) == candidate;
      if inds[candidate].fitness > inds[best].fitness {
        best := candidate;
      }
      d := d + 1;
    }
    gene, k := inds[best].gene, best;
  }

  function Genes(inds: seq<Individual>): seq<Chromosome> {
    seq(|inds|, i requires 0 <= i < |inds| => inds[i].gene)
  }

  lemma TakeOut<T>(s: seq<T>, j: nat)
    requires j < |s|
    ensures multiset(s) == multiset(s[..j] + s[j + 1..]) + multiset{s[j]}
  {
    assert s == s[..j] + [s[j]] + s[j + 1..];
  }

  lemma GenesTakeOut(inds: seq<Individual>, j: nat)
    requires j < |inds|
    ensures multiset(Genes(inds)) == multiset(Genes(inds[..j] + inds[j + 1..])) + multiset{inds[j].gene}
  {
    TakeOut(Genes(inds), j);
    assert Genes(inds)[..j] + Genes(inds)[j + 1..] == Genes(inds[..j] + inds[j + 1..]);
  }

  lemma SameRest<T>(a: multiset<T>, b: multiset<T>, x: T)
    requires a + multiset{x} == b + multiset{x}
    ensures a == b
  {
    assert a == (a + multiset{x}) - multiset{x};
    assert b == (b + multiset{x}) - multiset{x};
  }

  lemma RestsAgree(a: seq<Individual>, b: seq<Individual>, j: nat)
    requires multiset(a) == multiset(b) && |a| > 0 && j < |b| && b[j] == a[0]
    ensures multiset(a[1..]) == multiset(b[..j] + b[j + 1..])
  {
    assert a[..0] + a[1..] == a[1..];
    TakeOut(a, 0);
    TakeOut(b, j);
    SameRest(multiset(a[1..]), multiset(b[..j] + b[j + 1..]), a[0]);
  }

  lemma {:induction false} GenesPermute(a: seq<Individual>, b: seq<Individual>)
    requires multiset(a) == multiset(b)
    ensures multiset(Genes(a)) == multiset(Genes(b))
  {
    assert |a| == |multiset(a)| == |multiset(b)| == |b|;
    if |a| == 0 {
    } else {
      assert a[0] in multiset(b);
      var j :| 0 <= j < |b| && b[j] == a[0];
      RestsAgree(a, b, j);
      GenesPermute(a[1..], b[..j] + b[j + 1..]);
      assert a[..0] + a[1..] == a[1..];
      GenesTakeOut(a, 0);
      GenesTakeOut(b, j);
      hide Genes;
    }
  }

  /** The individuals of one population, scored and best first. */
  ghost predicate Ranked(s: Setting, pop: seq<Chromosome>, inds: seq<Individual>) {
    && |inds| == |pop| > 0 && multiset(Genes(inds)) == multiset(pop)
    && Descending(inds)
    && (forall i :: 0 <= i < |inds| ==> inds[i].fitness == s.fit(inds[i].gene) && inds[i].gene in pop)
    && (forall g :: g in pop ==> s.fit(g) <= inds[0].fitness)
  }

  lemma RankedAfterSort(s: Setting, pop: seq<Chromosome>, before: seq<Individual>, after: seq<Individual>)
    requires |before| == |pop| > 0 && multiset(after) == multiset(before) && Descending(after)
    requires forall i :: 0 <= i < |pop| ==> before[i] == Individual(pop[i], s.fit(pop[i]))
    ensures Ranked(s, pop, after)
  {
    assert |after| == |multiset(after)| == |multiset(before)| == |before|;
    GenesPermute(after, before);
    assert Genes(before) == pop;
    forall i | 0 <= i < |after|
      ensures after[i].fitness == s.fit(after[i].gene) && after[i].gene in pop
    {
      assert after[i] in multiset(before);
      var j :| 0 <= j < |before| && before[j] == after[i];
    }
    forall g | g in pop
      ensures s.fit(g) <= after[0].fitness
    {
      var i :| 0 <= i < |pop| && pop[i] == g;
      assert before[i] in multiset(after);
      var j :| 0 <= j < |after| && after[j] == before[i];
    }
  }

  /** Concurrent evaluation, then ranking. */
  method Rank(s: Setting, pop: seq<Chromosome>) returns (ranked: array<Individual>)
    requires WellScored(s) && |pop| > 0
    ensures fresh(ranked) && ranked.Length > 0 && Ranked(s, pop, ranked[..])
  {
    var job := Job(pop, s.fingerprint, (g: Chromosome, t: nat) => s.fit(g));
    var pool := EvaluatePopulation(job, s.numCpu);
    SequentialResult(job, pool, s.fit);
    ranked := new Individual[|pop|](
      i requires 0 <= i < |pop| && |pool.scores| == |pop| => Individual(pop[i], pool.scores[i]));
    ghost var before := ranked[..];
    assert forall i :: 0 <= i < |pop| ==> before[i] == Individual(pop[i], s.fit(pop[i]));
    SortByFitness(ranked);
    RankedAfterSort(s, pop, before, ranked[..]);
  }

  /** A gene bred from two individuals. */
  ghost predicate ChildOf(c: Chromosome, inds: seq<Individual>) {
    exists a, b :: 0 <= a < |inds| && 0 <= b < |inds| && BredFrom(c, inds[a].gene, inds[b].gene)
  }

  /** c is bred from the individuals a and b, winners of two tournaments, and mutated, all
      on the draws from `at` on. */
  ghost predicate BredAt(
    h: Hyper, mutProb: real, mutScale: real, inds: seq<Individual>, c: Chromosome, rng: Rng, at: nat, a: int, b: int)
    requires |inds| > 0
  {
    var t := Max1(h.tournamentSize);
    && FittestDraw(inds, rng, at, at + t, a) && FittestDraw(inds, rng, at + t, at + 2 * t, b)
    && c == Mutated(rng, at + 2 * t + 3, Crossed(rng, at + 2 * t, inds[a].gene, inds[b].gene), mutProb, mutScale)
  }

  ghost predicate Offspring(
    h: Hyper, mutProb: real, mutScale: real, inds: seq<Individual>, c: Chromosome, rng: Rng, at: nat)
    requires |inds| > 0
  {
    exists a, b :: BredAt(h, mutProb, mutScale, inds, c, rng, at, a, b)
  }

  ghost predicate Rising(positions: seq<nat>) {
    forall i, j :: 0 <= i < j < |positions| ==> positions[i] < positions[j]
  }

  function ElitesIn(h: Hyper, popSize: nat): nat {
    if h.eliteCount > popSize then popSize else h.eliteCount
  }

  /** The next population: the best genes unchanged, then one offspring a slot, each on its
      own later part of the draws. */
  ghost predicate Bred(
    h: Hyper, mutProb: real, mutScale: real, inds: seq<Individual>, pop: seq<Chromosome>, starts: seq<nat>, rng: Rng)
  {
    var elites := ElitesIn(h, |inds|);
    && |pop| == elites + |starts| && |inds| > 0 && Rising(starts)
    && (forall i :: 0 <= i < elites ==> pop[i] == inds[i].gene)
    && (forall i :: 0 <= i < |starts| ==> Offspring(h, mutProb, mutScale, inds, pop[elites + i], rng, starts[i]))
  }

  lemma OffspringAdded(
    h: Hyper, mutProb: real, mutScale: real, inds: seq<Individual>, pop: seq<Chromosome>, starts: seq<nat>, rng: Rng,
    c: Chromosome, at: nat)
    requires Bred(h, mutProb, mutScale, inds, pop, starts, rng)
    requires Offspring(h, mutProb, mutScale, inds, c, rng, at) && forall i :: 0 <= i < |starts| ==> starts[i] < at
    ensures Bred(h, mutProb, mutScale, inds, pop + [c], starts + [at], rng)
  {
    hide Offspring;
  }

  /** When no mutation gate opens, every offspring takes each field from one of its parents. */
  lemma OffspringWithoutMutation(
    h: Hyper, mutProb: real, mutScale: real, inds: seq<Individual>, c: Chromosome, rng: Rng, at: nat)
    requires |inds| > 0 && forall i :: 0 <= i < |inds| ==> InBounds(inds[i].gene)
    requires forall i :: rng.uniforms(i) >= mutProb
    requires Offspring(h, mutProb, mutScale, inds, c, rng, at)
    ensures ChildOf(c, inds)
  {
    var t := Max1(h.tournamentSize);
    var a, b :| BredAt(h, mutProb, mutScale, inds, c, rng, at, a, b);
    var bred := Crossed(rng, at + 2 * t, inds[a].gene, inds[b].gene);
    CrossedIsBred(rng, at + 2 * t, inds[a].gene, inds[b].gene);
    NoGateNoChange(rng, at + 2 * t + 3, bred, mutProb, mutScale);
    hide InBounds, Crossed, Mutated, Max1, BredFrom;
  }

  /** Two tournaments, crossover and mutation. */
  method Breed(h: Hyper, inds: seq<Individual>, mutProb: real, mutScale: real, rng: Rng) returns (child: Chromosome)
    requires |inds| > 0
    modifies rng
    ensures InBounds(child) && rng.pos > old(rng.pos)
    ensures Offspring(h, mutProb, mutScale, inds, child, rng, old(rng.pos))
  {
    hide Mutated, Crossed, FittestDraw, InBounds;
    ghost var at := rng.pos;
    var p1, a := TournamentSelect(inds, h.tournamentSize, rng);
    var p2, b := TournamentSelect(inds, h.tournamentSize, rng);
    var bred := Crossover(p1, p2, rng);
    child := Mutate(bred, mutProb, mutScale, rng);
    assert BredAt(h, mutProb, mutScale, inds, child, rng, at, a, b);
  }

  method NextPopulation(h: Hyper, popSize: int, inds: seq<Individual>, mutProb: real, mutScale: real, rng: Rng)
    returns (pop: seq<Chromosome>, ghost starts: seq<nat>)
    requires |inds| == popSize > 0
    requires forall i :: 0 <= i < |inds| ==> InBounds(inds[i].gene)
    modifies rng
    ensures |pop| == popSize && AllInBounds(pop)
    ensures Bred(h, mutProb, mutScale, inds, pop, starts, rng)
  {
    pop, starts := [], [];
    var eliteN := h.eliteCount;
    if eliteN > |inds| {
      eliteN := |inds|;
    }
    for i := 0 to eliteN
      invariant |pop| == i && AllInBounds(pop)
      invariant forall k :: 0 <= k < i ==> pop[k] == inds[k].gene
    {
      pop := pop + [inds[i].gene];
    }
    while |pop| < popSize
      invariant |pop| <= popSize && AllInBounds(pop)
      invariant Bred(h, mutProb, mutScale, inds, pop, starts, rng)
      invariant forall i :: 0 <= i < |starts| ==> starts[i] < rng.pos
    {
      ghost var at := rng.pos;
      var child := Breed(h, inds, mutProb, mutScale, rng);
      OffspringAdded(h, mutProb, mutScale, inds, pop, starts, rng, child, at);
      pop, starts := pop + [child], starts + [at];
    }
  }

  function Effective(configured: int, default: int): int {
    if configured > 0 then configured else default
  }

  /** v is the best fitness of a population. */
  ghost predicate BestOf(s: Setting, pop: seq<Chromosome>, v: real) {
    && (forall g :: g in pop ==> s.fit(g) <= v)
    && (exists g :: g in pop && s.fit(g) == v)
  }

  /** pop' is bred from pop, ranked by fitness, at the given mutation ramps. */
  ghost predicate Succeeds(h: Hyper, s: Setting, c: Control, pop: seq<Chromosome>, pop': seq<Chromosome>, rng: Rng) {
    exists inds: seq<Individual>, starts: seq<nat> ::
      Ranked(s, pop, inds) && Bred(h, c.mutProb, c.mutScale, inds, pop', starts, rng)
  }

  lemma RankedBest(s: Setting, pop: seq<Chromosome>, inds: seq<Individual>)
    requires Ranked(s, pop, inds)
    ensures BestOf(s, pop, inds[0].fitness) && inds[0].gene in pop && s.fit(inds[0].gene) == inds[0].fitness
  {}

  /** Elitism: the best fitness of a population never exceeds that of its successor. */
  lemma ElitesKeepBest(
    h: Hyper, s: Setting, c: Control, pop: seq<Chromosome>, pop': seq<Chromosome>, rng: Rng, v: real, v': real)
    requires h.eliteCount > 0 && Succeeds(h, s, c, pop, pop', rng)
    requires BestOf(s, pop, v) && BestOf(s, pop', v')
    ensures v <= v'
  {
    var inds: seq<Individual>, starts: seq<nat> :|
      Ranked(s, pop, inds) && Bred(h, c.mutProb, c.mutScale, inds, pop', starts, rng);
    var g :| g in pop && s.fit(g) == v;
    assert pop'[0] == inds[0].gene && pop'[0] in pop';
  }

  /** One generation: elites and children, evaluated and ranked; the best never gets worse. */
  method NextGeneration(
    h: Hyper, s: Setting, popSize: int, pop: seq<Chromosome>, inds: seq<Individual>, c: Control, rng: Rng)
    returns (pop': seq<Chromosome>, ranked: array<Individual>)
    requires WellScored(s)
    requires |pop| == popSize && AllInBounds(pop) && Ranked(s, pop, inds)
    modifies rng
    ensures |pop'| == popSize && AllInBounds(pop')
    ensures fresh(ranked) && ranked.Length > 0 && Ranked(s, pop', ranked[..])
    ensures Succeeds(h, s, c, pop, pop', rng)
    ensures h.eliteCount > 0 ==> inds[0].fitness <= ranked[..][0].fitness
  {
    ghost var starts: seq<nat>;
    pop', starts := NextPopulation(h, popSize, inds, c.mutProb, c.mutScale, rng);
    ranked := Rank(s, pop');
    assert Succeeds(h, s, c, pop, pop', rng);
    RankedBest(s, pop, inds);
    RankedBest(s, pop', ranked[..]);
    if h.eliteCount > 0 {
      ElitesKeepBest(h, s, c, pop, pop', rng, inds[0].fitness, ranked[..][0].fitness);
    }
  }

  // ----- the whole epoch

  ghost predicate Sized(popSize: int, history: seq<seq<Chromosome>>) {
    forall k :: 0 <= k < |history| ==> |history[k]| == popSize && AllInBounds(history[k])
  }

  /** tops lists the best fitness of every population. */
  ghost predicate Tops(s: Setting, history: seq<seq<Chromosome>>, tops: seq<real>) {
    |history| == |tops| && forall k :: 0 <= k < |tops| ==> BestOf(s, history[k], tops[k])
  }

  /** Every population but the first is bred from the one before it, at the ramps that the
      bests so far lead to. */
  ghost predicate Successive(h: Hyper, s: Setting, history: seq<seq<Chromosome>>, tops: seq<real>, rng: Rng)
    requires |history| == |tops|
  {
    forall k :: 0 < k < |tops| ==> Succeeds(h, s, After(h, tops[0], tops[..k]), history[k - 1], history[k], rng)
  }

  /** The populations of an epoch so far, none of which but the last may have stopped it. */
  ghost predicate Trace(
    h: Hyper, s: Setting, popSize: int, history: seq<seq<Chromosome>>, tops: seq<real>, rng: Rng)
  {
    && |tops| > 0 && Tops(s, history, tops) && Sized(popSize, history)
    && Initial(s, popSize, history[0], rng)
    && Successive(h, s, history, tops, rng)
    && RunsThrough(h, tops[0], tops)
  }

  lemma TraceStart(h: Hyper, s: Setting, popSize: int, pop: seq<Chromosome>, top: real, rng: Rng)
    requires Initial(s, popSize, pop, rng) && BestOf(s, pop, top)
    ensures Trace(h, s, popSize, [pop], [top], rng)
  {
    hide BestOf, Succeeds, InBounds, SeedAndCopies, MutantsFrom, RandomGene;
  }

  lemma Prefixes(tops: seq<real>, top: real)
    ensures forall k :: 0 <= k <= |tops| ==> (tops + [top])[..k] == tops[..k]
    ensures tops[..|tops|] == tops
  {}

  lemma TraceGrows(
    h: Hyper, s: Setting, popSize: int, history: seq<seq<Chromosome>>, tops: seq<real>, rng: Rng,
    pop: seq<Chromosome>, top: real)
    requires Trace(h, s, popSize, history, tops, rng)
    requires !Stops(h, After(h, tops[0], tops))
    requires |pop| == popSize && AllInBounds(pop) && BestOf(s, pop, top)
    requires Succeeds(h, s, After(h, tops[0], tops), history[|tops| - 1], pop, rng)
    ensures Trace(h, s, popSize, history + [pop], tops + [top], rng)
  {
    hide BestOf, Succeeds, InBounds, Initial, After, Stops;
    Prefixes(tops, top);
    var history', tops' := history + [pop], tops + [top];
    assert tops'[0] == tops[0] && history'[0] == history[0];
    forall k | 0 < k < |tops'|
      ensures Succeeds(h, s, After(h, tops'[0], tops'[..k]), history'[k - 1], history'[k], rng)
    {
      assert tops'[..k] == tops[..k];
    }
    forall n | 0 < n < |tops'|
      ensures !Stops(h, After(h, tops'[0], tops'[..n]))
    {
      assert tops'[..n] == tops[..n];
    }
  }

  lemma ObserveLast(h: Hyper, tops: seq<real>)
    requires |tops| > 0
    ensures After(h, tops[0], tops) == Observe(h, After(h, tops[0], tops[..|tops| - 1]), tops[|tops| - 1])
  {}

  /** One more generation of an epoch. */
  method Advance(
    h: Hyper, s: Setting, popSize: int, ghost history: seq<seq<Chromosome>>, ghost tops: seq<real>,
    pop: seq<Chromosome>, inds: seq<Individual>, c: Control, rng: Rng)
    returns (pop': seq<Chromosome>, ranked: array<Individual>)
    requires WellScored(s)
    requires |pop| == popSize && AllInBounds(pop) && Ranked(s, pop, inds)
    requires Trace(h, s, popSize, history, tops, rng) && history[|tops| - 1] == pop
    requires c == After(h, tops[0], tops) && !Stops(h, c)
    modifies rng
    ensures |pop'| == popSize && AllInBounds(pop')
    ensures fresh(ranked) && ranked.Length > 0 && Ranked(s, pop', ranked[..])
    ensures Trace(h, s, popSize, history + [pop'], tops + [ranked[..][0].fitness], rng)
  {
    pop', ranked := NextGeneration(h, s, popSize, pop, inds, c, rng);
    RankedBest(s, pop', ranked[..]);
    TraceGrows(h, s, popSize, history, tops, rng, pop', ranked[..][0].fitness);
  }

  /** The epoch was stopped by its last observation. */
  predicate Stopped(h: Hyper, bests: seq<real>) {
    |bests| > 0 && Stops(h, After(h, bests[0], bests))
  }

  /** The best fitness of every population: a stopped epoch reported them all, one at its
      limit has a last population that no generation observed. */
  function AllTops(h: Hyper, result: EpochResult, bests: seq<real>): seq<real> {
    if Stopped(h, bests) then bests else bests + [result.bestScore]
  }

  /** What an uncancelled epoch promises: it runs to its limit or to the first stop, its
      populations and their bests are as reported, and the result is the best of the last. */
  ghost predicate EpochOutcome(
    h: Hyper, s: Setting, popSize: int, maxGen: int,
    result: EpochResult, history: seq<seq<Chromosome>>, bests: seq<real>, rng: Rng)
  {
    var tops := AllTops(h, result, bests);
    && 0 < |bests| == result.generations <= maxGen
    && (Stopped(h, bests) || |bests| == maxGen)
    && RunsThrough(h, bests[0], bests)
    && Trace(h, s, popSize, history, tops, rng)
    && result.bestScore == tops[|tops| - 1] == s.fit(result.bestGene)
    && result.bestGene in history[|history| - 1]
  }

  lemma OutcomeAtStop(
    h: Hyper, s: Setting, popSize: int, maxGen: int,
    result: EpochResult, history: seq<seq<Chromosome>>, bests: seq<real>, rng: Rng)
    requires Trace(h, s, popSize, history, bests, rng) && Stops(h, After(h, bests[0], bests))
    requires |bests| == result.generations <= maxGen && result.bestScore == bests[|bests| - 1]
    requires result.bestScore == s.fit(result.bestGene) && result.bestGene in history[|history| - 1]
    ensures EpochOutcome(h, s, popSize, maxGen, result, history, bests, rng)
  {}

  lemma OutcomeAtLimit(
    h: Hyper, s: Setting, popSize: int, maxGen: int,
    result: EpochResult, history: seq<seq<Chromosome>>, bests: seq<real>, rng: Rng)
    requires |bests| == result.generations == maxGen > 0 && !Stops(h, After(h, bests[0], bests))
    requires Trace(h, s, popSize, history, bests + [result.bestScore], rng)
    requires result.bestScore == s.fit(result.bestGene) && result.bestGene in history[|history| - 1]
    ensures EpochOutcome(h, s, popSize, maxGen, result, history, bests, rng)
  {
    Prefixes(bests, result.bestScore);
    forall n | 0 < n < |bests|
      ensures !Stops(h, After(h, bests[0], bests[..n]))
    {
      assert (bests + [result.bestScore])[..n] == bests[..n];
    }
    hide Stops, After, Trace;
  }

  lemma OutcomeSizes(
    h: Hyper, s: Setting, popSize: int, maxGen: int,
    result: EpochResult, history: seq<seq<Chromosome>>, bests: seq<real>, rng: Rng)
    requires EpochOutcome(h, s, popSize, maxGen, result, history, bests, rng)
    ensures forall k :: 0 <= k < |history| ==> |history[k]| == popSize
    ensures result.generations <= maxGen && (result.generations < maxGen ==> Stopped(h, bests))
  {
    hide Tops, Initial, Successive, RunsThrough, Stops, After, InBounds;
  }

  lemma NothingObserved(h: Hyper, first: real)
    ensures After(h, first, []) == StartControl(h, first)
  {}

  /** An uncancelled epoch.  `history` lists every population evaluated, `bests` the best
      fitness reported to each generation. */
  method RunEpoch(h: Hyper, s: Setting, popSizeOverride: int, maxGenOverride: int, rng: Rng)
    returns (result: EpochResult, history: seq<seq<Chromosome>>, bests: seq<real>)
    requires WellScored(s)
    requires h.popSize > 0 && h.maxGenerations > 0
    modifies rng
    ensures EpochOutcome(h, s, Effective(popSizeOverride, h.popSize), Effective(maxGenOverride, h.maxGenerations),
                         result, history, bests, rng)
    ensures forall k :: 0 <= k < |history| ==>
              |history[k]| == if popSizeOverride > 0 then popSizeOverride else h.popSize
    ensures var limit := if maxGenOverride > 0 then maxGenOverride else h.maxGenerations;
      result.generations <= limit && (result.generations < limit ==> Stopped(h, bests))
  {
    hide Trace, EpochOutcome, Ranked, BestOf, Initial, AllInBounds, Stops, Observe, Stopped, After, WellScored;
    var popSize := Effective(popSizeOverride, h.popSize);
    var maxGen := Effective(maxGenOverride, h.maxGenerations);
    var pop := InitPopulation(s, popSize, rng);
    var inds := Rank(s, pop);
    history := [pop];
    bests := [];
    var first := inds[..][0].fitness;
    var control := StartControl(h, first);
    RankedBest(s, pop, inds[..]);
    TraceStart(h, s, popSize, pop, first, rng);
    assert bests + [first] == [first];
    NothingObserved(h, first);
    for gen := 0 to maxGen
      invariant fresh(inds) && inds.Length > 0 && Ranked(s, pop, inds[..]) && AllInBounds(pop) && |pop| == popSize
      invariant |bests| == gen && (bests + [inds[..][0].fitness])[0] == first
      invariant control == After(h, first, bests)
      invariant Trace(h, s, popSize, history, bests + [inds[..][0].fitness], rng)
      invariant |history| == gen + 1 && history[gen] == pop
      invariant gen > 0 ==> !Stops(h, After(h, first, bests))
    {
      var best := inds[..][0];
      ghost var tops := bests + [best.fitness];
      RankedBest(s, pop, inds[..]);
      ObserveLast(h, tops);
      Prefixes(bests, best.fitness);
      control := Observe(h, control, best.fitness);
      bests := bests + [best.fitness];
      if Stops(h, control) {
        result := EpochResult(best.fitness, gen + 1, best.gene);
        OutcomeAtStop(h, s, popSize, maxGen, result, history, bests, rng);
        OutcomeSizes(h, s, popSize, maxGen, result, history, bests, rng);
        return;
      }
      var nextPop, nextInds := Advance(h, s, popSize, history, tops, pop, inds[..], control, rng);
      pop, inds := nextPop, nextInds;
      history := history + [pop];
    }
    var best := inds[..][0];
    RankedBest(s, pop, inds[..]);
    result := EpochResult(best.fitness, maxGen, best.gene);
    OutcomeAtLimit(h, s, popSize, maxGen, result, history, bests, rng);
    OutcomeSizes(h, s, popSize, maxGen, result, history, bests, rng);
  }

  ghost predicate NonDecreasing(bests: seq<real>) {
    forall i, j :: 0 <= i < j < |bests| ==> bests[i] <= bests[j]
  }

  lemma {:induction false} BestNeverDrops(
    h: Hyper, s: Setting, history: seq<seq<Chromosome>>, tops: seq<real>, rng: Rng, i: nat, j: nat)
    requires h.eliteCount > 0 && Tops(s, history, tops) && Successive(h, s, history, tops, rng)
    requires i <= j < |tops|
    ensures tops[i] <= tops[j]
  {
    hide BestOf, Succeeds;
    if i == j {
    } else {
      BestNeverDrops(h, s, history, tops, rng, i, j - 1);
      var c := After(h, tops[0], tops[..j]);
      assert Succeeds(h, s, c, history[j - 1], history[j], rng);
      ElitesKeepBest(h, s, c, history[j - 1], history[j], rng, tops[j - 1], tops[j]);
    }
  }

  /** With at least one elite, the stored score is the maximum over every individual ever
      evaluated, among them the seed. */
  lemma StoredScoreIsMaximum(
    h: Hyper, s: Setting, popSize: int, maxGen: int,
    result: EpochResult, history: seq<seq<Chromosome>>, bests: seq<real>, rng: Rng)
    requires h.eliteCount > 0 && EpochOutcome(h, s, popSize, maxGen, result, history, bests, rng)
    ensures forall k, g :: 0 <= k < |history| && g in history[k] ==> s.fit(g) <= result.bestScore
    ensures s.fit(Seed(s)) <= result.bestScore
    ensures exists k :: 0 <= k < |history| && result.bestGene in history[k]
    ensures NonDecreasing(bests)
  {
    var tops := AllTops(h, result, bests);
    forall k, g | 0 <= k < |history| && g in history[k]
      ensures s.fit(g) <= result.bestScore
    {
      assert BestOf(s, history[k], tops[k]);
      BestNeverDrops(h, s, history, tops, rng, k, |tops| - 1);
    }
    forall i, j | 0 <= i < j < |bests|
      ensures bests[i] <= bests[j]
    {
      BestNeverDrops(h, s, history, tops, rng, i, j);
    }
    assert history[0][0] == Seed(s) && Seed(s) in history[0];
    hide BestOf, Successive, Stops, After, RunsThrough;
  }

  /** The first and the last best of an epoch are those of its first and last population. */
  lemma OutcomeEnds(
    h: Hyper, s: Setting, popSize: int, maxGen: int,
    result: EpochResult, history: seq<seq<Chromosome>>, bests: seq<real>, rng: Rng)
    requires EpochOutcome(h, s, popSize, maxGen, result, history, bests, rng)
    ensures BestOf(s, history[0], bests[0]) && BestOf(s, history[|history| - 1], result.bestScore)
    ensures h.eliteCount > 0 ==> bests[|bests| - 1] <= result.bestScore
  {
    hide BestOf, Successive, RunsThrough, After, Stops, Initial, Sized;
    var tops := AllTops(h, result, bests);
    assert tops[0] == bests[0];
    assert BestOf(s, history[0], tops[0]) && BestOf(s, history[|tops| - 1], tops[|tops| - 1]);
    if h.eliteCount > 0 {
      BestNeverDrops(h, s, history, tops, rng, |bests| - 1, |tops| - 1);
    }
  }

  lemma {:induction false} BestEverIsSeen(first: real, bests: seq<real>)
    requires |bests| > 0 && NonDecreasing(bests) && first <= bests[0]
    ensures After(DEFAULTS, first, bests).bestEver <= bests[|bests| - 1]
  {
    if |bests| == 1 {
    } else {
      var init := bests[..|bests| - 1];
      BestEverIsSeen(first, init);
      assert init[|init| - 1] <= bests[|bests| - 1];
    }
  }

  /** With the default hyperparameters: at most 10 + 5r generations for any limit, where
      the r patience resets are paid for by the rise of the best fitness from the initial
      population to the result. */
  lemma DefaultEpochBound(
    s: Setting, popSize: int, maxGen: int,
    result: EpochResult, history: seq<seq<Chromosome>>, bests: seq<real>, rng: Rng)
    requires EpochOutcome(DEFAULTS, s, popSize, maxGen, result, history, bests, rng)
    ensures BestOf(s, history[0], bests[0]) && BestOf(s, history[|history| - 1], result.bestScore)
    ensures var r := Resets(DEFAULTS, bests[0], bests);
      result.generations <= 10 + 5 * r && r as real * 0.001 <= result.bestScore - bests[0]
  {
    hide Trace, RunsThrough, Resets, After, Stopped, BestOf, AllTops;
    OutcomeEnds(DEFAULTS, s, popSize, maxGen, result, history, bests, rng);
    StoredScoreIsMaximum(DEFAULTS, s, popSize, maxGen, result, history, bests, rng);
    EarlyStopBound(bests[0], bests);
    ResetsRaiseBest(bests[0], bests);
    BestEverIsSeen(bests[0], bests);
  }

  // ----- what the parts of an epoch mean

  /** The shares of the initial population: a tenth copies and four tenths mutants of the
      places behind the seed, rounded down; the rest is random. */
  lemma InitialShares(s: Setting, popSize: int)
    requires |s.elites| > 0 && popSize >= 11
    ensures 10 * CopiesIn(s, popSize) <= popSize - 1 < 10 * CopiesIn(s, popSize) + 10
    ensures 10 * MutantsIn(s, popSize) <= 4 * (popSize - 1) < 10 * MutantsIn(s, popSize) + 10
  {}

  /** The seed is the best stored gene, and the copies are the stored genes in turn. */
  lemma InitialGenes(s: Setting, popSize: int, pop: seq<Chromosome>, rng: Rng)
    requires popSize > 0 && Initial(s, popSize, pop, rng)
    ensures pop[0] == if |s.elites| > 0 then DecodeElite(s.elites[0]) else DEFAULT_SEED
    ensures |s.elites| > 0 ==>
              forall i :: 0 <= i < CopiesIn(s, popSize) ==> pop[1 + i] == DecodeElite(s.elites[i % |s.elites|])
  {
    hide MutantsFrom, RandomGene, CopiesIn, MutantsIn, InBounds;
    if |s.elites| > 0 {
      forall i | 0 <= i < CopiesIn(s, popSize)
        ensures pop[1 + i] == DecodeElite(s.elites[i % |s.elites|])
      {
        assert pop[1 + i] == DecodeElite(s.elites[(1 + i - 1) % |s.elites|]);
      }
    }
  }

  /** The gates of a mutated elite open with probability 0.15, for noise of scale 1.5. */
  lemma MutantSteps(c: Chromosome, base: Chromosome, rng: Rng)
    requires InBounds(base) && MutantOf(c, base, rng)
    ensures exists at: nat :: c.dcaDropPct ==
              if rng.uniforms(at) < 0.15
              then ClipFloat64(base.dcaDropPct + rng.normals(at + 1) * 0.01 * 1.5, 0.05, 0.30) else base.dcaDropPct
  {
    var at: nat :| c == Mutated(rng, at, base, 0.15, 1.5);
    MutationSteps(rng, at, base, 0.15, 1.5);
    hide Mutated, InBounds;
  }

  /** The parents of an offspring are each at least as fit as all the draws of their
      tournament: with the default size three each. */
  lemma ParentsBeatTheirDraws(
    h: Hyper, mutProb: real, mutScale: real, inds: seq<Individual>, c: Chromosome, rng: Rng, at: nat, a: int, b: int)
    requires |inds| > 0 && BredAt(h, mutProb, mutScale, inds, c, rng, at, a, b)
    ensures 0 <= a < |inds| && 0 <= b < |inds|
    ensures var t: nat := if h.tournamentSize < 1 then 1 else h.tournamentSize;
      && (forall d :: at <= d < at + t ==> inds[rng.Choice(d, |inds|)].fitness <= inds[a].fitness)
      && (forall d :: at + t <= d < at + 2 * t ==> inds[rng.Choice(d, |inds|)].fitness <= inds[b].fitness)
      && c == Mutated(rng, at + 2 * t + 3, Crossed(rng, at + 2 * t, inds[a].gene, inds[b].gene), mutProb, mutScale)
  {
    hide Mutated, Crossed;
  }

  /** A default epoch: populations of 300, at most 25 generations, the best eight unchanged
      from each to the next, parents that win tournaments of three. */
  lemma DefaultEpochShape(
    s: Setting, result: EpochResult, history: seq<seq<Chromosome>>, bests: seq<real>, rng: Rng, k: nat)
    requires EpochOutcome(DEFAULTS, s, Effective(0, DEFAULTS.popSize), Effective(0, DEFAULTS.maxGenerations),
                          result, history, bests, rng)
    requires k < |history|
    ensures |history[k]| == 300 && AllInBounds(history[k]) && 0 < result.generations <= 25
    ensures k > 0 ==> exists inds: seq<Individual> ::
              && Ranked(s, history[k - 1], inds) && |inds| == 300
              && forall i :: 0 <= i < 8 ==> history[k][i] == inds[i].gene
    ensures DEFAULTS.tournamentSize == 3
  {
    var tops := AllTops(DEFAULTS, result, bests);
    if k > 0 {
      var c := After(DEFAULTS, tops[0], tops[..k]);
      assert Succeeds(DEFAULTS, s, c, history[k - 1], history[k], rng);
      var inds: seq<Individual>, starts: seq<nat> :|
        Ranked(s, history[k - 1], inds) && Bred(DEFAULTS, c.mutProb, c.mutScale, inds, history[k], starts, rng);
      assert |inds| == 300;
    }
    hide Stops, After, RunsThrough, Initial, InBounds;
  }

  /** The first of a population are the best of the individuals, as many as there are elites;
      the others are their offspring at the given probability and scale. */
  ghost predicate ElitesThenOffspring(
    h: Hyper, prob: real, scale: real, inds: seq<Individual>, pop: seq<Chromosome>, starts: seq<nat>, rng: Rng)
  {
    var e: nat := if h.eliteCount < |inds| then h.eliteCount else |inds|;
    && |inds| > 0 && |pop| == e + |starts|
    && (forall i :: 0 <= i < e ==> pop[i] == inds[i].gene)
    && (forall i :: 0 <= i < |starts| ==> Offspring(h, prob, scale, inds, pop[e + i], rng, starts[i]))
  }

  /** Every population after the first is bred from the one before it, at the ramps of the
      generations so far. */
  lemma GenerationOf(
    h: Hyper, s: Setting, popSize: int, history: seq<seq<Chromosome>>, tops: seq<real>, rng: Rng, k: nat)
    requires Trace(h, s, popSize, history, tops, rng) && 0 < k < |tops|
    ensures exists inds: seq<Individual>, starts: seq<nat> ::
              && Ranked(s, history[k - 1], inds) && |inds| == popSize
              && ElitesThenOffspring(h, After(h, tops[0], tops[..k]).mutProb, After(h, tops[0], tops[..k]).mutScale,
                                     inds, history[k], starts, rng)
  {
    hide After, RunsThrough, Initial, InBounds, Offspring, Descending, BestOf;
    var c := After(h, tops[0], tops[..k]);
    assert Succeeds(h, s, c, history[k - 1], history[k], rng);
    var inds: seq<Individual>, starts: seq<nat> :|
      Ranked(s, history[k - 1], inds) && Bred(h, c.mutProb, c.mutScale, inds, history[k], starts, rng);
    assert ElitesThenOffspring(h, c.mutProb, c.mutScale, inds, history[k], starts, rng);
    assert |history[k - 1]| == popSize;
    hide *;
  }
}
