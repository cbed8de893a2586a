/** Evaluation of a runner: each constraint's budgets are compared with the
    harness's measurement of its operation, and every failed comparison is
    recorded, in registration order and then in a fixed budget order. */
module Evaluation {
  import opened Wrappers
  import opened Constraints
  import opened Runner

  /** What the benchmark harness reports for one run of an operation. The
      per-op figures are taken as reported; how the harness derives them
      is not part of this model. */
  datatype BenchmarkResult = BenchmarkResult(
    n: int64,                     // iterations run
    t: int64,                     // total elapsed time, in nanoseconds
    bytes: int64,                 // bytes processed by one iteration
    extra: map<string, real>,     // extra metrics reported by the benchmark
    allocsPerOp: int64,
    allocedBytesPerOp: int64,
    nsPerOp: int64)

  /** Key under which a benchmark may report its own throughput. */
  const MBPerSecKey: string := "MB/s"

  /** Throughput in megabytes (10^6 bytes) per second. A figure the benchmark
      reported itself takes priority; otherwise it is derived from bytes,
      iterations and time, and is zero unless all three are positive. */
  function MBPerSec(r: BenchmarkResult): (v: real)
    ensures MBPerSecKey in r.extra ==> v == r.extra[MBPerSecKey]
    ensures MBPerSecKey !in r.extra && (r.bytes <= 0 || r.t <= 0 || r.n <= 0) ==> v == 0.0
    ensures MBPerSecKey !in r.extra && r.bytes > 0 && r.t > 0 && r.n > 0 ==>
      v == DerivedMBPerSec(r.bytes, r.n, r.t)
  {
    if MBPerSecKey in r.extra then r.extra[MBPerSecKey]
    else if r.bytes <= 0 || r.t <= 0 || r.n <= 0 then 0.0
    else DerivedMBPerSec(r.bytes, r.n, r.t)
  }

  /** Megabytes per second for `n` iterations of `bytes` bytes each, run in
      `t` nanoseconds. */
  function DerivedMBPerSec(bytes: int, n: int, t: int): (v: real)
    requires bytes > 0 && n > 0 && t > 0
    ensures v > 0.0
  {
    var megabytes := bytes as real * n as real / 1_000_000.0;
    var seconds := t as real / 1_000_000_000.0;
    assert megabytes > 0.0 by {
      assert bytes as real * n as real > 0.0;
    }
    megabytes / seconds
  }

  /** The derived figure is the processed volume, in megabytes, over the
      elapsed time, in seconds: `v * t / 10^9 == bytes * n / 10^6`. */
  lemma DerivedMBPerSecScales(bytes: int, n: int, t: int)
    requires bytes > 0 && n > 0 && t > 0
    ensures DerivedMBPerSec(bytes, n, t) * (t as real) == (bytes as real) * (n as real) * 1000.0
  {
  }

  /** One failed comparison: which operation, which budget. */
  datatype Violation = Violation(name: string, budget: Budget)

  /** The comparison rule: budget `b` of `c` is violated by result `r`.
      An unset budget is never violated; maxima fail only when strictly
      exceeded, the minimum only when strictly undercut. */
  predicate Violated(c: Constraint, r: BenchmarkResult, b: Budget)
    ensures Violated(c, r, b) ==> c.Declares(b)
  {
    match b
    case MaxAllocsPerOp => c.maxAllocsPerOp.Some? && r.allocsPerOp > c.maxAllocsPerOp.value
    case MaxAllocatedBytesPerOp => c.maxAllocedBytesPerOp.Some? && r.allocedBytesPerOp > c.maxAllocedBytesPerOp.value
    case MaxNsPerOp => c.maxNsPerOp.Some? && r.nsPerOp > c.maxNsPerOp.value
    case MaxMBPerSec => c.maxMBPerSec.Some? && MBPerSec(r) > c.maxMBPerSec.value
    case MinMBPerSec => c.minMBPerSec.Some? && MBPerSec(r) < c.minMBPerSec.value
  }

  /** The violations of budget `b` alone: one when it is violated, else none. */
  function Report(c: Constraint, r: BenchmarkResult, b: Budget): (vs: seq<Violation>)
    ensures |vs| <= 1
    ensures forall v :: v in vs <==> v == Violation(c.benchfunc.name, b) && Violated(c, r, b)
  {
    if Violated(c, r, b) then [Violation(c.benchfunc.name, b)] else []
  }

  /** The violations one constraint contributes: exactly the violated
      budgets, each named after the constraint's operation. */
  function Check(c: Constraint, r: BenchmarkResult): (vs: seq<Violation>)
    ensures |vs| <= 5
    ensures forall v :: v in vs <==> v.name == c.benchfunc.name && Violated(c, r, v.budget)
  {
    Report(c, r, MaxAllocsPerOp)
    + Report(c, r, MaxAllocatedBytesPerOp)
    + Report(c, r, MaxNsPerOp)
    + Report(c, r, MaxMBPerSec)
    + Report(c, r, MinMBPerSec)
  }

  /** Violations listed in strictly increasing budget rank. */
  predicate InBudgetOrder(vs: seq<Violation>) {
    forall i, j :: 0 <= i < j < |vs| ==> vs[i].budget.Rank() < vs[j].budget.Rank()
  }

  /** Every violation in `vs` concerns a budget ranked below `k`. */
  predicate RankedBelow(vs: seq<Violation>, k: nat) {
    forall v :: v in vs ==> v.budget.Rank() < k
  }

  /** Appending at most one violation of rank `k` after violations ranked
      below `k` keeps the budget order. */
  lemma ExtendInBudgetOrder(vs: seq<Violation>, k: nat, b: Budget, ws: seq<Violation>)
    requires InBudgetOrder(vs) && RankedBelow(vs, k)
    requires b.Rank() == k && |ws| <= 1 && forall w :: w in ws ==> w.budget == b
    ensures InBudgetOrder(vs + ws) && RankedBelow(vs + ws, k + 1)
  {
  }

  /** A constraint's violations come in the fixed budget order: allocations,
      allocated bytes, ns, max MB/s, min MB/s; so no budget appears twice. */
  lemma CheckInBudgetOrder(c: Constraint, r: BenchmarkResult)
    ensures InBudgetOrder(Check(c, r))
  {
    var r1 := Report(c, r, MaxAllocsPerOp);
    var r2 := Report(c, r, MaxAllocatedBytesPerOp);
    var r3 := Report(c, r, MaxNsPerOp);
    var r4 := Report(c, r, MaxMBPerSec);
    var r5 := Report(c, r, MinMBPerSec);
    ExtendInBudgetOrder([], 0, MaxAllocsPerOp, r1);
    assert [] + r1 == r1;
    ExtendInBudgetOrder(r1, 1, MaxAllocatedBytesPerOp, r2);
    ExtendInBudgetOrder(r1 + r2, 2, MaxNsPerOp, r3);
    ExtendInBudgetOrder(r1 + r2 + r3, 3, MaxMBPerSec, r4);
    ExtendInBudgetOrder(r1 + r2 + r3 + r4, 4, MinMBPerSec, r5);
  }

  /** `Check` reads only the budgets, never the verbosity flag. */
  lemma CheckIgnoresVerbose(c: Constraint, r: BenchmarkResult, verbose: bool)
    ensures Check(c.(verbose := verbose), r) == Check(c, r)
  {
  }

  /** All violations of a run, constraint by constraint in registration
      order; `rs[i]` is the harness's result for `cs[i]`. */
  function Violations(cs: seq<Constraint>, rs: seq<BenchmarkResult>): (vs: seq<Violation>)
    requires |cs| == |rs|
    ensures |vs| <= 5 * |cs|
    decreases |cs|
  {
    if cs == [] then [] else Check(cs[0], rs[0]) + Violations(cs[1..], rs[1..])
  }

  /** Evaluate every constraint of `br` against its harness result, without
      stopping at the first failure. `ok` holds exactly when nothing was
      violated; `errs` lists every violation in discovery order. */
  method Run(br: BenchmarkRunner, results: seq<BenchmarkResult>) returns (ok: bool, errs: seq<Violation>)
    requires |results| == |br.constraints|
    ensures errs == Violations(br.constraints, results)
    ensures ok <==> errs == []
  {
    var cs := br.constraints;
    errs := [];
    for i := 0 to |cs|
      invariant errs == Violations(cs[..i], results[..i])
    {
      var found := CheckOne(cs[i], results[i]);
      ViolationsSnoc(cs, results, i);
      errs := errs + found;
    }
    assert cs[..|cs|] == cs && results[..|results|] == results;
    ok := errs == [];
  }

  /** The body of the evaluation loop for one constraint: each set budget is
      compared with the measured figure, in the fixed order, and every
      failed comparison appends one violation. */
  method CheckOne(c: Constraint, res: BenchmarkResult) returns (found: seq<Violation>)
    ensures found == Check(c, res)
  {
    var name := c.benchfunc.name;
    found := [];
    if c.maxAllocsPerOp.Some? && res.allocsPerOp > c.maxAllocsPerOp.value {
      found := found + [Violation(name, MaxAllocsPerOp)];
    }
    assert found == Report(c, res, MaxAllocsPerOp);
    ghost var f1 := found;
    if c.maxAllocedBytesPerOp.Some? && res.allocedBytesPerOp > c.maxAllocedBytesPerOp.value {
      found := found + [Violation(name, MaxAllocatedBytesPerOp)];
    }
    assert found == f1 + Report(c, res, MaxAllocatedBytesPerOp);
    ghost var f2 := found;
    if c.maxNsPerOp.Some? && res.nsPerOp > c.maxNsPerOp.value {
      found := found + [Violation(name, MaxNsPerOp)];
    }
    assert found == f2 + Report(c, res, MaxNsPerOp);
    ghost var f3 := found;
    if c.maxMBPerSec.Some? && MBPerSec(res) > c.maxMBPerSec.value {
      found := found + [Violation(name, MaxMBPerSec)];
    }
    assert found == f3 + Report(c, res, MaxMBPerSec);
    ghost var f4 := found;
    if c.minMBPerSec.Some? && MBPerSec(res) < c.minMBPerSec.value {
      found := found + [Violation(name, MinMBPerSec)];
    }
    assert found == f4 + Report(c, res, MinMBPerSec);
  }

  // ---------------------------------------------------------------------
  // Accumulation

  /** Violations of a concatenated runner are the concatenated violations. */
  lemma {:induction false} ViolationsAppend(cs1: seq<Constraint>, rs1: seq<BenchmarkResult>,
                                            cs2: seq<Constraint>, rs2: seq<BenchmarkResult>)
    requires |cs1| == |rs1| && |cs2| == |rs2|
    ensures Violations(cs1 + cs2, rs1 + rs2) == Violations(cs1, rs1) + Violations(cs2, rs2)
    decreases |cs1|
  {
    if cs1 == [] {
      assert cs1 + cs2 == cs2 && rs1 + rs2 == rs2;
    } else {
      assert (cs1 + cs2)[1..] == cs1[1..] + cs2;
      assert (rs1 + rs2)[1..] == rs1[1..] + rs2;
      ViolationsAppend(cs1[1..], rs1[1..], cs2, rs2);
    }
  }

  /** One more constraint contributes its own violations at the end. */
  lemma ViolationsSnoc(cs: seq<Constraint>, rs: seq<BenchmarkResult>, i: nat)
    requires |cs| == |rs| && i < |cs|
    ensures Violations(cs[..i + 1], rs[..i + 1]) == Violations(cs[..i], rs[..i]) + Check(cs[i], rs[i])
  {
    assert cs[..i + 1] == cs[..i] + [cs[i]];
    assert rs[..i + 1] == rs[..i] + [rs[i]];
    ViolationsAppend(cs[..i], rs[..i], [cs[i]], [rs[i]]);
    assert Violations([cs[i]], [rs[i]]) == Check(cs[i], rs[i]) + Violations([], []);
  }

  /** A violation is reported exactly when some registered constraint's
      check reports it: no constraint is skipped, none is invented. */
  lemma {:induction false} ViolationsCoverEveryConstraint(cs: seq<Constraint>, rs: seq<BenchmarkResult>, v: Violation)
    requires |cs| == |rs|
    ensures v in Violations(cs, rs) <==> exists i :: 0 <= i < |cs| && v in Check(cs[i], rs[i])
    decreases |cs|
  {
    if cs != [] {
      ViolationsCoverEveryConstraint(cs[1..], rs[1..], v);
      if exists i :: 0 <= i < |cs| && v in Check(cs[i], rs[i]) {
        var i :| 0 <= i < |cs| && v in Check(cs[i], rs[i]);
        if i > 0 {
          assert cs[1..][i - 1] == cs[i] && rs[1..][i - 1] == rs[i];
        }
      }
      if exists i :: 0 <= i < |cs[1..]| && v in Check(cs[1..][i], rs[1..][i]) {
        var i :| 0 <= i < |cs[1..]| && v in Check(cs[1..][i], rs[1..][i]);
        assert cs[1..][i] == cs[i + 1] && rs[1..][i] == rs[i + 1];
      }
    }
  }

  /** The verdict: a run has no violations exactly when every constraint
      passes its own check. */
  lemma {:induction false} PassIffEveryConstraintPasses(cs: seq<Constraint>, rs: seq<BenchmarkResult>)
    requires |cs| == |rs|
    ensures Violations(cs, rs) == [] <==> forall i :: 0 <= i < |cs| ==> Check(cs[i], rs[i]) == []
    decreases |cs|
  {
    if cs != [] {
      PassIffEveryConstraintPasses(cs[1..], rs[1..]);
      assert forall i :: 0 < i < |cs| ==> cs[1..][i - 1] == cs[i] && rs[1..][i - 1] == rs[i];
    }
  }

  /** Verbosity never affects the violations, hence never the verdict. */
  lemma {:induction false} VerbosityIsIrrelevant(cs: seq<Constraint>, cs': seq<Constraint>, rs: seq<BenchmarkResult>)
    requires |cs| == |cs'| == |rs|
    requires forall i :: 0 <= i < |cs| ==> cs'[i].(verbose := cs[i].verbose) == cs[i]
    ensures Violations(cs', rs) == Violations(cs, rs)
    decreases |cs|
  {
    if cs != [] {
      assert cs'[0].(verbose := cs[0].verbose) == cs[0];
      CheckIgnoresVerbose(cs'[0], rs[0], cs[0].verbose);
      forall i | 0 <= i < |cs[1..]| ensures cs'[1..][i].(verbose := cs[1..][i].verbose) == cs[1..][i] {
        assert cs'[1..][i] == cs'[i + 1] && cs[1..][i] == cs[i + 1];
      }
      VerbosityIsIrrelevant(cs[1..], cs'[1..], rs[1..]);
    }
  }

  /** Running a runner after one more registration reports the old
      violations followed by those of the new constraint. */
  lemma RunAfterAddConstraint(br: BenchmarkRunner, rs: seq<BenchmarkResult>, c: Constraint, r: BenchmarkResult)
    requires |rs| == |br.constraints|
    ensures Violations(br.AddConstraint(c).constraints, rs + [r]) == Violations(br.constraints, rs) + Check(c, r)
  {
    ViolationsAppend(br.constraints, rs, [c], [r]);
    assert Violations([c], [r]) == Check(c, r) + Violations([], []);
  }

  /** An empty runner always passes. */
  lemma EmptyRunnerPasses()
    ensures Violations(NewBR().constraints, []) == []
  {
  }

  // ---------------------------------------------------------------------
  // Budgets

  /** Absence means unchecked: a constraint without budgets reports nothing,
      whatever was measured. */
  lemma UnconstrainedNeverViolates(c: Constraint, r: BenchmarkResult)
    requires c.Unconstrained()
    ensures Check(c, r) == []
  {
    assert !c.Declares(MaxAllocsPerOp) && !c.Declares(MaxAllocatedBytesPerOp) && !c.Declares(MaxNsPerOp);
    assert !c.Declares(MaxMBPerSec) && !c.Declares(MinMBPerSec);
  }

  /** Only a declared budget can be violated. */
  lemma ViolationNeedsBudget(c: Constraint, r: BenchmarkResult, b: Budget)
    requires Violation(c.benchfunc.name, b) in Check(c, r)
    ensures c.Declares(b)
  {
  }

  /** Max-allocations boundary: at the budget passes, one over fails. */
  lemma MaxAllocsBoundary(c: Constraint, r: BenchmarkResult, budget: int64)
    requires c.maxAllocsPerOp == Some(budget)
    ensures r.allocsPerOp == budget ==> Violation(c.benchfunc.name, MaxAllocsPerOp) !in Check(c, r)
    ensures r.allocsPerOp == budget + 1 ==> Violation(c.benchfunc.name, MaxAllocsPerOp) in Check(c, r)
  {
  }

  /** Max-allocated-bytes boundary: at the budget passes, one over fails. */
  lemma MaxAllocatedBytesBoundary(c: Constraint, r: BenchmarkResult, budget: int64)
    requires c.maxAllocedBytesPerOp == Some(budget)
    ensures r.allocedBytesPerOp == budget ==> Violation(c.benchfunc.name, MaxAllocatedBytesPerOp) !in Check(c, r)
    ensures r.allocedBytesPerOp == budget + 1 ==> Violation(c.benchfunc.name, MaxAllocatedBytesPerOp) in Check(c, r)
  {
  }

  /** Max-ns boundary: at the budget passes, one over fails. */
  lemma MaxNsBoundary(c: Constraint, r: BenchmarkResult, budget: int64)
    requires c.maxNsPerOp == Some(budget)
    ensures r.nsPerOp == budget ==> Violation(c.benchfunc.name, MaxNsPerOp) !in Check(c, r)
    ensures r.nsPerOp == budget + 1 ==> Violation(c.benchfunc.name, MaxNsPerOp) in Check(c, r)
  {
  }

  /** Throughput boundaries: the maximum fails only strictly above, the
      minimum only strictly below. */
  lemma MBPerSecBoundaries(c: Constraint, r: BenchmarkResult)
    ensures c.maxMBPerSec.Some? ==>
      (Violation(c.benchfunc.name, MaxMBPerSec) in Check(c, r) <==> MBPerSec(r) > c.maxMBPerSec.value)
    ensures c.minMBPerSec.Some? ==>
      (Violation(c.benchfunc.name, MinMBPerSec) in Check(c, r) <==> MBPerSec(r) < c.minMBPerSec.value)
  {
  }

  /** Without a self-reported figure, throughput is never negative, so a
      non-positive minimum never fails. */
  lemma NonPositiveMinNeverFails(c: Constraint, r: BenchmarkResult)
    requires MBPerSecKey !in r.extra
    requires c.minMBPerSec.Some? && c.minMBPerSec.value <= 0.0
    ensures Violation(c.benchfunc.name, MinMBPerSec) !in Check(c, r)
  {
  }
}
