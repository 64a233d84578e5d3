/** Concurrent evaluation of a population with a shared fingerprint cache.  A pool is moved
    one atomic worker action at a time, in any order. */
module WorkerPool {

  /** Where a worker is in its loop: before taking a job, with a job, evaluating it, about
      to store the result in the cache, about to write the score, or finished. */
  datatype Worker =
    | Ready
    | Holding(idx: nat)
    | Evaluating(idx: nat)
    | Storing(idx: nat, score: real)
    | Writing(idx: nat, score: real)
    | Exited

  /** next is the head of the closed job channel; writes counts the writes to each score. */
  datatype Pool = Pool(next: nat, cache: map<int, real>, scores: seq<real>, writes: seq<nat>, workers: seq<Worker>)

  /** The environment of one call: the population, its fingerprints, and what an evaluation
      of a gene at a moment returns. */
  datatype Job<!G> = Job(pop: seq<G>, fingerprint: G -> int, evaluate: (G, nat) -> real)

  function Start<G>(job: Job<G>, workers: nat): Pool {
    Pool(0, map[], seq(|job.pop|, _ => 0.0), seq(|job.pop|, _ => 0), seq(workers, _ => Ready))
  }

  function Fp<G>(job: Job<G>, i: nat): int
    requires i < |job.pop|
  {
    job.fingerprint(job.pop[i])
  }

  predicate HasJob(w: Worker) {
    w.Holding? || w.Evaluating? || w.Storing? || w.Writing?
  }

  ghost predicate Shape<G>(job: Job<G>, p: Pool) {
    && p.next <= |job.pop| == |p.scores| == |p.writes|
    && forall w :: 0 <= w < |p.workers| && HasJob(p.workers[w]) ==> p.workers[w].idx < p.next
  }

  /** The next atomic action of worker w at moment t. */
  function Move<G>(job: Job<G>, p: Pool, w: nat, t: nat): Pool
    requires Shape(job, p) && w < |p.workers|
  {
    match p.workers[w]
    case Ready =>
      if p.next < |job.pop| then p.(next := p.next + 1, workers := p.workers[w := Holding(p.next)])
      else p.(workers := p.workers[w := Exited])
    case Holding(i) =>
      if Fp(job, i) in p.cache then p.(workers := p.workers[w := Writing(i, p.cache[Fp(job, i)])])
      else p.(workers := p.workers[w := Evaluating(i)])
    case Evaluating(i) => p.(workers := p.workers[w := Storing(i, job.evaluate(job.pop[i], t))])
    case Storing(i, s) => p.(cache := p.cache[Fp(job, i) := s], workers := p.workers[w := Writing(i, s)])
    case Writing(i, s) =>
      p.(scores := p.scores[i := s], writes := p.writes[i := p.writes[i] + 1], workers := p.workers[w := Ready])
    case Exited => p
  }

  /** Some evaluation of g returned s. */
  ghost predicate Outcome<G>(job: Job<G>, g: G, s: real) {
    exists t: nat :: job.evaluate(g, t) == s
  }

  /** s is an evaluation result of some member of the population with this fingerprint. */
  ghost predicate Justified<G>(job: Job<G>, fp: int, s: real) {
    exists j :: 0 <= j < |job.pop| && Fp(job, j) == fp && Outcome(job, job.pop[j], s)
  }

  /** Worker w holds index i. */
  predicate Holds(p: Pool, w: int, i: int) {
    0 <= w < |p.workers| && HasJob(p.workers[w]) && p.workers[w].idx == i
  }

  /** No index is held twice, and a held index is not written yet. */
  ghost predicate HeldOnce(p: Pool) {
    && (forall v, w, i :: Holds(p, v, i) && Holds(p, w, i) ==> v == w)
    && (forall w, i :: Holds(p, w, i) && 0 <= i < |p.writes| ==> p.writes[i] == 0)
  }

  ghost predicate IsHeld(p: Pool, i: int) {
    exists w :: Holds(p, w, i)
  }

  /** An index is written at most once, never before it is taken, and a taken index that is
      not written is held. */
  ghost predicate WrittenOnce(p: Pool) {
    && (forall i :: 0 <= i < |p.writes| ==> p.writes[i] <= 1)
    && (forall i :: p.next <= i < |p.writes| ==> p.writes[i] == 0)
    && (forall i :: 0 <= i < p.next && i < |p.writes| && p.writes[i] == 0 ==> IsHeld(p, i))
  }

  /** Each taken index is either held by one worker and not written, or written once. */
  ghost predicate Exclusive(p: Pool) {
    HeldOnce(p) && WrittenOnce(p)
  }

  ghost predicate Sourced<G>(job: Job<G>, p: Pool)
    requires Shape(job, p)
  {
    && (forall fp :: fp in p.cache ==> Justified(job, fp, p.cache[fp]))
    && (forall w :: 0 <= w < |p.workers| && (p.workers[w].Storing? || p.workers[w].Writing?)
          ==> Justified(job, Fp(job, p.workers[w].idx), p.workers[w].score))
    && (forall i :: 0 <= i < |job.pop| && p.writes[i] > 0 ==> Justified(job, Fp(job, i), p.scores[i]))
  }

  /** No worker leaves while jobs remain. */
  ghost predicate Drained<G>(job: Job<G>, p: Pool) {
    (exists w :: 0 <= w < |p.workers| && p.workers[w] == Exited) ==> p.next == |job.pop|
  }

  ghost predicate Inv<G>(job: Job<G>, p: Pool) {
    Shape(job, p) && Exclusive(p) && Sourced(job, p) && Drained(job, p)
  }

  lemma StartInv<G>(job: Job<G>, workers: nat)
    ensures Inv(job, Start(job, workers))
  {}

  lemma MoveShape<G>(job: Job<G>, p: Pool, w: nat, t: nat)
    requires Inv(job, p) && w < |p.workers|
    ensures Shape(job, Move(job, p, w, t)) && Drained(job, Move(job, p, w, t))
    ensures |Move(job, p, w, t).workers| == |p.workers|
  {
    hide Sourced, Exclusive;
  }

  /** Who holds what after a move: only the moved worker changes. */
  lemma MoveHolds<G>(job: Job<G>, p: Pool, w: nat, t: nat, v: int, i: int)
    requires Inv(job, p) && w < |p.workers|
    ensures v != w ==> (Holds(Move(job, p, w, t), v, i) <==> Holds(p, v, i))
    ensures Holds(Move(job, p, w, t), w, i)
       <==> if p.workers[w].Ready? then i == p.next < |job.pop| else Holds(p, w, i) && !p.workers[w].Writing?
  {
    hide Sourced, Exclusive;
  }

  /** What a move does to the counters. */
  lemma MoveCounts<G>(job: Job<G>, p: Pool, w: nat, t: nat)
    requires Inv(job, p) && w < |p.workers|
    ensures var q, x := Move(job, p, w, t), p.workers[w];
      && q.next == (if x.Ready? && p.next < |job.pop| then p.next + 1 else p.next)
      && |q.writes| == |p.writes| == |job.pop| && p.next <= |job.pop|
      && (x.Writing? ==> Holds(p, w, x.idx) && q.writes == p.writes[x.idx := p.writes[x.idx] + 1])
      && (!x.Writing? ==> q.writes == p.writes)
  {
    MoveShape(job, p, w, t);
    hide Exclusive, Sourced, Drained;
  }

  lemma HeldIsTaken<G>(job: Job<G>, p: Pool, v: int, i: int)
    requires Shape(job, p)
    ensures Holds(p, v, i) ==> i < p.next
  {}

  lemma MoveHeldOnce<G>(job: Job<G>, p: Pool, w: nat, t: nat)
    requires Inv(job, p) && w < |p.workers|
    ensures HeldOnce(Move(job, p, w, t))
  {
    MoveCounts(job, p, w, t);
    var q := Move(job, p, w, t);
    forall v, i
      ensures Holds(q, v, i) ==>
                || (Holds(p, v, i) && !(v == w && p.workers[w].Writing?))
                || (v == w && i == p.next < |job.pop| && p.workers[w].Ready?)
    {
      MoveHolds(job, p, w, t, v, i);
    }
    forall v, i ensures Holds(p, v, i) ==> i < p.next {
      HeldIsTaken(job, p, v, i);
    }
    hide Move, Sourced, Holds, Drained, Shape, IsHeld;
  }

  lemma MoveWrittenOnce<G>(job: Job<G>, p: Pool, w: nat, t: nat)
    requires Inv(job, p) && w < |p.workers|
    ensures WrittenOnce(Move(job, p, w, t))
  {
    MoveCounts(job, p, w, t);
    var q := Move(job, p, w, t);
    if p.workers[w].Writing? {
      HeldIsTaken(job, p, w, p.workers[w].idx);
    }
    forall i | 0 <= i < q.next && i < |q.writes| && q.writes[i] == 0
      ensures IsHeld(q, i)
    {
      if i == p.next {
        MoveHolds(job, p, w, t, w, i);
      } else {
        assert p.writes[i] == 0;
        var v :| Holds(p, v, i);
        MoveHolds(job, p, w, t, v, i);
        assert Holds(q, v, i);
      }
    }
    hide Move, Sourced, Holds, Drained, Shape, IsHeld;
  }

  lemma MoveExclusive<G>(job: Job<G>, p: Pool, w: nat, t: nat)
    requires Inv(job, p) && w < |p.workers|
    ensures Exclusive(Move(job, p, w, t))
  {
    MoveShape(job, p, w, t);
    MoveHeldOnce(job, p, w, t);
    MoveWrittenOnce(job, p, w, t);
    hide HeldOnce, WrittenOnce, Move, Inv;
  }

  lemma MoveSourced<G>(job: Job<G>, p: Pool, w: nat, t: nat)
    requires Inv(job, p) && w < |p.workers|
    ensures Shape(job, Move(job, p, w, t)) && Sourced(job, Move(job, p, w, t))
  {
    MoveShape(job, p, w, t);
    if p.workers[w].Evaluating? {
      var i := p.workers[w].idx;
      var s := job.evaluate(job.pop[i], t);
      assert Outcome(job, job.pop[i], s);
      assert Justified(job, Fp(job, i), s);
    }
    hide Exclusive, Justified, Fp;
  }

  /** Every atomic action of every worker keeps the invariant. */
  lemma MoveInv<G>(job: Job<G>, p: Pool, w: nat, t: nat)
    requires Inv(job, p) && w < |p.workers|
    ensures Inv(job, Move(job, p, w, t))
  {
    MoveShape(job, p, w, t);
    MoveExclusive(job, p, w, t);
    MoveSourced(job, p, w, t);
    hide Move, Exclusive, Sourced;
  }

  // ----- progress

  function Remaining(w: Worker): nat {
    match w
    case Exited => 0
    case Ready => 1
    case Writing(_, _) => 2
    case Storing(_, _) => 3
    case Evaluating(_) => 4
    case Holding(_) => 5
  }

  function TotalRemaining(ws: seq<Worker>): nat {
    if |ws| == 0 then 0 else TotalRemaining(ws[..|ws| - 1]) + Remaining(ws[|ws| - 1])
  }

  /** An upper bound on the actions left, whatever the schedule. */
  function ActionsLeft<G>(job: Job<G>, p: Pool): nat
    requires Shape(job, p)
  {
    5 * (|job.pop| - p.next) + TotalRemaining(p.workers)
  }

  lemma {:induction false} ReplaceRemaining(ws: seq<Worker>, w: nat, x: Worker)
    requires w < |ws|
    ensures TotalRemaining(ws[w := x]) == TotalRemaining(ws) - Remaining(ws[w]) + Remaining(x)
  {
    var n := |ws| - 1;
    if w == n {
      assert ws[w := x][..n] == ws[..n];
    } else {
      assert ws[w := x][..n] == ws[..n][w := x];
      ReplaceRemaining(ws[..n], w, x);
    }
  }

  /** Every action of a worker that has not finished uses up one of the actions left. */
  lemma MoveProgress<G>(job: Job<G>, p: Pool, w: nat, t: nat)
    requires Inv(job, p) && w < |p.workers| && p.workers[w] != Exited
    ensures Shape(job, Move(job, p, w, t))
    ensures ActionsLeft(job, Move(job, p, w, t)) < ActionsLeft(job, p)
  {
    MoveShape(job, p, w, t);
    ReplaceRemaining(p.workers, w, Move(job, p, w, t).workers[w]);
    hide TotalRemaining, Sourced, Exclusive;
  }

  // ----- whole runs

  /** The pool after a schedule: which worker acts at each moment. */
  function Run<G>(job: Job<G>, workers: nat, schedule: seq<nat>): (p: Pool)
    ensures Inv(job, p) && |p.workers| == workers
  {
    if |schedule| == 0 then
      StartInv(job, workers);
      Start(job, workers)
    else
      var t, w := |schedule| - 1, schedule[|schedule| - 1];
      var p := Run(job, workers, schedule[..t]);
      if w < workers then
        MoveInv(job, p, w, t);
        MoveShape(job, p, w, t);
        Move(job, p, w, t)
      else p
  }

  ghost predicate Finished(p: Pool) {
    forall w :: 0 <= w < |p.workers| ==> p.workers[w] == Exited
  }

  /** All workers have exited: every index has been written exactly once, with an evaluation
      result of some member of the population that has the same fingerprint. */
  lemma FinishedPool<G>(job: Job<G>, p: Pool)
    requires Inv(job, p) && Finished(p) && |p.workers| > 0
    ensures forall i :: 0 <= i < |job.pop| ==> p.writes[i] == 1 && Justified(job, Fp(job, i), p.scores[i])
  {
    assert p.workers[0] == Exited;
    forall i | 0 <= i < |job.pop|
      ensures p.writes[i] == 1 && Justified(job, Fp(job, i), p.scores[i])
    {
      assert forall w :: !Holds(p, w, i);
    }
  }

  /** For every interleaving. */
  lemma EveryInterleaving<G>(job: Job<G>, workers: nat, schedule: seq<nat>)
    requires workers > 0 && Finished(Run(job, workers, schedule))
    ensures var p := Run(job, workers, schedule);
      forall i :: 0 <= i < |job.pop| ==> p.writes[i] == 1 && Justified(job, Fp(job, i), p.scores[i])
  {
    hide Inv;
    FinishedPool(job, Run(job, workers, schedule));
  }

  /** Evaluation depends on the fingerprint only. */
  ghost predicate Deterministic<G(!new)>(job: Job<G>, fit: G -> real) {
    && (forall g, t: nat :: job.evaluate(g, t) == fit(g))
    && (forall a, b :: job.fingerprint(a) == job.fingerprint(b) ==> fit(a) == fit(b))
  }

  /** Then every interleaving computes the sequential map. */
  lemma SequentialResult<G(!new)>(job: Job<G>, p: Pool, fit: G -> real)
    requires Inv(job, p) && Finished(p) && |p.workers| > 0 && Deterministic(job, fit)
    ensures forall i :: 0 <= i < |job.pop| ==> p.scores[i] == fit(job.pop[i])
  {
    FinishedPool(job, p);
    forall i | 0 <= i < |job.pop|
      ensures p.scores[i] == fit(job.pop[i])
    {
      assert Justified(job, Fp(job, i), p.scores[i]);
      var j :| 0 <= j < |job.pop| && Fp(job, j) == Fp(job, i) && Outcome(job, job.pop[j], p.scores[i]);
      var t: nat :| job.evaluate(job.pop[j], t) == p.scores[i];
    }
  }

  /** The pool under an arbitrary scheduler: it always finishes.  As many workers start as
      there are processors, but never more than jobs. */
  method EvaluatePopulation<G>(job: Job<G>, numCpu: nat) returns (p: Pool)
    requires numCpu > 0
    ensures Inv(job, p) && Finished(p)
    ensures |job.pop| > 0 ==> |p.workers| > 0
    ensures |p.scores| == |job.pop|
  {
    var workers := numCpu;
    if workers > |job.pop| {
      workers := |job.pop|;
    }
    p := Start(job, workers);
    StartInv(job, workers);
    var t: nat := 0;
    while exists w :: 0 <= w < |p.workers| && p.workers[w] != Exited
      invariant Inv(job, p) && |p.workers| == workers
      decreases ActionsLeft(job, p)
    {
      var w :| 0 <= w < |p.workers| && p.workers[w] != Exited;
      MoveInv(job, p, w, t);
      MoveShape(job, p, w, t);
      MoveProgress(job, p, w, t);
      p := Move(job, p, w, t);
      t := t + 1;
    }
  }

  // ----- what the cache saves

  function EvaluationOf<G>(job: Job<G>, p: Pool, w: nat): seq<(nat, int)>
    requires Shape(job, p)
  {
    if w < |p.workers| && p.workers[w].Evaluating? then [(w, Fp(job, p.workers[w].idx))] else []
  }

  /** The evaluations of a schedule, in order: which worker evaluated which fingerprint. */
  function Evaluations<G>(job: Job<G>, workers: nat, schedule: seq<nat>): seq<(nat, int)> {
    if |schedule| == 0 then []
    else
      var t, w := |schedule| - 1, schedule[|schedule| - 1];
      var p := Run(job, workers, schedule[..t]);
      Evaluations(job, workers, schedule[..t]) + EvaluationOf(job, p, w)
  }

  ghost predicate Once(log: seq<(nat, int)>) {
    forall i, j :: 0 <= i < j < |log| ==> log[i] != log[j]
  }

  ghost predicate CachedBy<G>(job: Job<G>, p: Pool, w: nat, fp: int)
    requires Shape(job, p) && w < |p.workers|
  {
    fp in p.cache || (p.workers[w].Storing? && Fp(job, p.workers[w].idx) == fp)
  }

  /** What a worker has evaluated is in the cache, or about to be; what it is about to
      evaluate it has not evaluated before. */
  ghost predicate Cached<G>(job: Job<G>, p: Pool, log: seq<(nat, int)>)
    requires Shape(job, p)
  {
    && (forall e :: e in log ==> e.0 < |p.workers| && CachedBy(job, p, e.0, e.1))
    && (forall w :: 0 <= w < |p.workers| && p.workers[w].Evaluating? ==> (w, Fp(job, p.workers[w].idx)) !in log)
  }

  lemma MoveCached<G>(job: Job<G>, p: Pool, w: nat, t: nat, log: seq<(nat, int)>)
    requires Inv(job, p) && w < |p.workers| && Once(log) && Cached(job, p, log)
    ensures var q, log' := Move(job, p, w, t), log + EvaluationOf(job, p, w);
      Shape(job, q) && Once(log') && Cached(job, q, log')
  {
    MoveShape(job, p, w, t);
    var q, log' := Move(job, p, w, t), log + EvaluationOf(job, p, w);
    forall e | e in log'
      ensures e.0 < |q.workers| && CachedBy(job, q, e.0, e.1)
    {
      if e in log {
        assert CachedBy(job, p, e.0, e.1);
      }
    }
    if p.workers[w].Holding? {
      forall e | e in log && e.0 == w
        ensures e.1 in p.cache
      {
        assert CachedBy(job, p, e.0, e.1);
      }
    }
    hide Exclusive, Sourced, Drained;
  }

  lemma {:induction false} RunCached<G>(job: Job<G>, workers: nat, schedule: seq<nat>)
    ensures Once(Evaluations(job, workers, schedule))
    ensures Cached(job, Run(job, workers, schedule), Evaluations(job, workers, schedule))
  {
    if |schedule| == 0 {
    } else {
      var t, w := |schedule| - 1, schedule[|schedule| - 1];
      RunCached(job, workers, schedule[..t]);
      var p := Run(job, workers, schedule[..t]);
      if w < workers {
        MoveCached(job, p, w, t, Evaluations(job, workers, schedule[..t]));
      } else {
        assert EvaluationOf(job, p, w) == [];
        assert Evaluations(job, workers, schedule) == Evaluations(job, workers, schedule[..t]);
      }
      hide Inv, Cached, Once, Move, EvaluationOf;
    }
  }

  /** In every interleaving no worker evaluates a fingerprint twice; so one worker evaluates
      every fingerprint of the population at most once. */
  lemma EachWorkerEvaluatesOnce<G>(job: Job<G>, workers: nat, schedule: seq<nat>)
    ensures var log := Evaluations(job, workers, schedule);
      && (forall i, j :: 0 <= i < j < |log| ==> log[i] != log[j])
      && (workers == 1 ==> forall i, j :: 0 <= i < j < |log| ==> log[i].1 != log[j].1)
  {
    RunCached(job, workers, schedule);
    var log := Evaluations(job, workers, schedule);
    if workers == 1 {
      forall i | 0 <= i < |log|
        ensures log[i].0 == 0
      {
        assert log[i] in log;
      }
    }
    hide Evaluations, Run;
  }
}
