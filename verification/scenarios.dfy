/** The behaviours the library's tests and end-to-end use promise, stated for all
    measurements that fit each scenario rather than for one timing run. */
module Scenarios {
  import opened Wrappers
  import opened Constraints
  import opened Runner
  import opened Evaluation

  const Bench: Operation := Operation("benchfunc")

  /** Max allocations 0 fails as soon as the operation allocates at all,
      with one violation naming the operation and the allocation budget. */
  lemma MaxAllocsZeroFailsWhenAllocating(r: BenchmarkResult)
    requires r.allocsPerOp > 0
    ensures Violations(NewBR().Append(Bench, [WithMaxAllocs(0), WithVerbose]).constraints, [r])
      == [Violation(Bench.name, MaxAllocsPerOp)]
  {
  }

  /** When exactly one budget is violated, that is the whole report. */
  lemma CheckIsSingleton(c: Constraint, r: BenchmarkResult, b: Budget)
    requires Violated(c, r, b)
    requires forall b': Budget :: b' != b ==> !Violated(c, r, b')
    ensures Check(c, r) == [Violation(c.benchfunc.name, b)]
  {
  }

  /** Max allocations 5 passes whenever at most five allocations are made
      per operation, and the run reports nothing. */
  lemma MaxAllocsFivePassesWhenWithin(r: BenchmarkResult)
    requires r.allocsPerOp <= 5
    ensures Violations(NewBR().Append(Bench, [WithMaxAllocs(5), WithVerbose]).constraints, [r]) == []
  {
  }

  /** The same operation registered twice in one runner, first with a
      minimum throughput it does not reach and then with one it does:
      exactly one violation, from the first registration. (The library's
      test runs the two registrations in two separate runners.) */
  lemma MinThroughputTwiceReportsOnce(r1: BenchmarkResult, r2: BenchmarkResult)
    requires MBPerSec(r1) < 1_000_000.0
    requires MBPerSec(r2) >= 1.0
    ensures Violations(NewBR().Append(Bench, [WithMinMBPerSec(1_000_000.0)])
                              .Append(Bench, [WithMinMBPerSec(1.0)]).constraints, [r1, r2])
      == [Violation(Bench.name, MinMBPerSec)]
  {
  }

  /** No short-circuit: with three constraints of which the middle one
      passes, the report is the first one's violations followed by the
      third one's. */
  lemma MiddlePassDoesNotHideOthers(c1: Constraint, c2: Constraint, c3: Constraint,
                                    r1: BenchmarkResult, r2: BenchmarkResult, r3: BenchmarkResult)
    requires Check(c2, r2) == []
    ensures Violations([c1, c2, c3], [r1, r2, r3]) == Check(c1, r1) + Check(c3, r3)
  {
    assert [c1, c2, c3][1..] == [c2, c3] && [r1, r2, r3][1..] == [r2, r3];
    assert [c2, c3][1..] == [c3] && [r2, r3][1..] == [r3];
    assert Violations([c3], [r3]) == Check(c3, r3) + Violations([], []);
    assert Violations([c2, c3], [r2, r3]) == Check(c3, r3);
  }

  /** The derived throughput of 512 bytes per operation over 10^6
      operations in one second is 512 MB/s. */
  lemma DerivedThroughputExample()
    ensures MBPerSec(BenchmarkResult(1_000_000, 1_000_000_000, 512, map[], 0, 0, 0)) == 512.0
  {
  }

  /** A self-reported figure wins even when bytes, time and N are zero. */
  lemma ReportedThroughputWins(v: real)
    ensures MBPerSec(BenchmarkResult(0, 0, 0, map[MBPerSecKey := v], 0, 0, 0)) == v
  {
  }

  /** The fluent chain of the first test and its option-function form
      register the same constraint. */
  lemma FluentAndOptionsAgree(br: BenchmarkRunner, f: real)
    ensures br.AddConstraint(NewConstraint(Bench).WithMaxAllocs(0).WithVerbose(f))
         == br.Append(Bench, [WithMaxAllocs(0), WithVerbose])
  {
  }
}
