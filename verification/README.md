# Benchmark budget constraints, modelled in Dafny

This project models the budget-constraint engine of a small Go library that
turns micro-benchmarks into pass/fail checks. A *constraint* pairs a
benchmark function with up to five optional budgets: maximum allocations per
op, maximum allocated bytes per op, maximum ns per op, maximum MB/s and
minimum MB/s. It also has a verbosity flag. A constraint is configured in
one of two ways:

- through the fluent `With*` methods of the constraint;
- through option functions applied in order by the runner's `Append`.

A *benchmark runner* is an immutable sequence of constraints. `Run`
compares every set budget of every constraint with the benchmark harness's
result. It records one violation per failed comparison and never stops
early. The verdict is true exactly when nothing was recorded.

Files:

- `wrappers.dfy`: `Option`, where `None` stands for the source's nil pointer ("unchecked").
- `constraints.dfy` (module `Constraints`): the `Constraint` record and its
  builder methods, `NewConstraint`, the option functions (`OptionFunc`, one
  constructor per setter, with the source's names), `ApplyAll`/`Configure`,
  the fluent chain `Chain`, and the setter lemmas (frame, last write wins,
  equivalence of the two paths).
- `runner.dfy` (module `Runner`): `BenchmarkRunner`, `NewBR`, `AddConstraint`, `Append`.
- `evaluation.dfy` (module `Evaluation`): the harness result, `MBPerSec`,
  the comparison rule `Violated`, the reference functions `Check` (one
  constraint) and `Violations` (a whole run), the `Run` method, and the
  accumulation lemmas.
- `scenarios.dfy` (module `Scenarios`): the library tests' scenarios and a
  few end-to-end runs (no early stop, throughput priority, builder versus
  options), each stated for all results that fit it.

Modelling choices:

- Go's `int64` budgets are a subset type of `int`. They are only compared,
  so wrap-around never arises.
- `float64` budgets and throughput are `real`.
- The benchmark function is `Operation(name)`. The runner only uses its name, for diagnostics.
- The harness is not called. `Run` takes one `BenchmarkResult` per
  registered constraint, in registration order. The harness's per-op
  figures are fields of that result.
- `Run` returns `(ok, errs)`. `errs` is the sequence of `Violation(name, budget)` records that the source chains into one `error`. An empty sequence plays the part of `nil`.

`Bytes` is the number of bytes one operation processes, as the benchmark
sets it. The derived throughput is bytes × N / 10^6 megabytes over the
elapsed seconds.

## Model

| member | source | states |
|---|---|---|
| Constraints.NewConstraint | constraints.go:28-30 | a fresh constraint keeps the given operation, has verbosity off and declares no budget |
| Constraints.Constraint.WithMaxAllocs | constraints.go:38-41 | sets the max-allocations budget to the argument; the operation and every other field are unchanged |
| Constraints.Constraint.WithMaxAllocatedBytes | constraints.go:43-46 | sets the max-allocated-bytes budget; the operation and every other field are unchanged |
| Constraints.Constraint.WithMaxNsPerOp | constraints.go:48-51 | sets the max-ns budget; the operation and every other field are unchanged |
| Constraints.Constraint.WithMaxMBPerSec | constraints.go:53-56 | sets the max-MB/s budget; the operation and every other field are unchanged |
| Constraints.Constraint.WithMinMBPerSec | constraints.go:58-61 | sets the min-MB/s budget; the operation and every other field are unchanged |
| Constraints.Constraint.WithVerbose | constraints.go:63-66 | turns verbosity on and changes no budget and not the operation |
| Constraints.OptionFunc.Apply | constraints.go:68-104 | each option function writes its own value into its own target field and leaves the operation and all other fields unchanged |
| Constraints.ApplyAll | constraints.go:109-111 | applying options never changes the measured operation |
| Constraints.Configure | constraints.go:106-111 | the constraint built by `Append` keeps the given operation, and with no options it is exactly `NewConstraint` of it |
| Constraints.WithVerboseIgnoresArgument | constraints.go:63-66 | the builder's verbosity method gives the same result whatever number it is passed, and the same as the verbosity option function |
| Constraints.StepIsApply | constraints.go:38-104 | each fluent method and the option function of the same name produce the same constraint |
| Constraints.ApplyOverwrites | constraints.go:70-104 | the value an option writes into its field does not depend on the previous value |
| Constraints.ApplyCommutesOrOverrides | constraints.go:70-104 | options on different fields commute, a later option on the same field overrides an earlier one, and repeating an option is idempotent |
| Constraints.ApplyAllSnoc | constraints.go:109-111 | applying a list extended by one option equals applying that option after the list |
| Constraints.UntargetedFieldKept | constraints.go:107-111 | a field no option targets keeps its initial value (nil budget, verbosity off) |
| Constraints.LastWriteWins | constraints.go:109-111 | a field holds the value written by the last option that targets it, whatever earlier options wrote |
| Constraints.Chain | constraints.go:38-66 | a chain of fluent builder calls, one per listed setter, never changes the measured operation |
| Constraints.ChainIsApplyAll | constraints.go:38-111 | a fluent chain of builder methods and the same options applied by `Append`'s loop give the same constraint |
| Constraints.AgreeEverywhereIsEqual | constraints.go:10-18 | two constraints equal in the operation and in all six configurable fields are the same record |
| Runner.NewBR | constraints.go:24-26 | a new runner holds no constraints |
| Runner.BenchmarkRunner.AddConstraint | constraints.go:32-36 | the new runner is one longer, keeps every earlier constraint in order, and ends with the added one |
| Runner.BenchmarkRunner.Append | constraints.go:106-116 | the new runner is one longer, keeps the earlier constraints, and ends with a constraint for the given operation; with no options that constraint is a fresh one |
| Runner.AppendIsAddConstraint | constraints.go:32-36 | `Append(f, opts)` equals `AddConstraint` of the fluent chain of the same options on `NewConstraint(f)` |
| Runner.AppendLastWriteWins | constraints.go:106-111 | in the appended constraint, each field holds its last writer's value, or the fresh default when no option writes it |
| Runner.ForkIsIndependent | constraints.go:32-36 | two additions to the same runner share its prefix and neither sees the other's constraint |
| Evaluation.MBPerSec | constraints.go:159-168 | a self-reported MB/s figure takes priority; otherwise the result is zero unless bytes, time and N are all positive, and then it is the derived figure |
| Evaluation.DerivedMBPerSec | constraints.go:167 | the derived throughput of positive bytes, N and time is positive |
| Evaluation.DerivedMBPerSecScales | constraints.go:167 | the derived figure times the elapsed seconds equals bytes × N / 10^6 megabytes |
| Evaluation.Violated | constraints.go:130-147 | the comparison rule per budget: strict `>` for the three integer maxima and max MB/s, strict `<` for min MB/s, and only a declared budget can be violated |
| Evaluation.Report | constraints.go:130-147 | a single budget contributes one violation, named after the operation, exactly when it is violated, and none otherwise |
| Evaluation.Check | constraints.go:130-148 | one constraint contributes at most five violations: exactly the violated budgets, each named after its operation |
| Evaluation.CheckInBudgetOrder | constraints.go:130-148 | a constraint's violations appear in the fixed order allocations, allocated bytes, ns, max MB/s, min MB/s, so none repeats |
| Evaluation.ExtendInBudgetOrder | constraints.go:130-148 | appending at most one violation of a higher-ranked budget keeps the fixed budget order |
| Evaluation.CheckIgnoresVerbose | constraints.go:122-128 | the verbosity flag does not change a constraint's violations |
| Evaluation.CheckOne | constraints.go:130-148 | the source's chain of five guarded comparisons appends exactly the violations `Check` specifies |
| Evaluation.Violations | constraints.go:120-149 | a run records at most five violations per registered constraint |
| Evaluation.Run | constraints.go:118-156 | the loop visits every constraint, accumulates exactly the specified violations in registration order, and returns true iff none was recorded |
| Evaluation.ViolationsAppend | constraints.go:120-149 | the violations of a concatenated constraint list are the two lists' violations concatenated, so registration order is discovery order |
| Evaluation.ViolationsSnoc | constraints.go:120-149 | one more constraint adds its own violations at the end |
| Evaluation.ViolationsCoverEveryConstraint | constraints.go:120-149 | a violation is reported iff some registered constraint's check reports it; none is skipped after an earlier failure |
| Evaluation.PassIffEveryConstraintPasses | constraints.go:151-155 | the run has no violations iff every constraint passes its own check |
| Evaluation.VerbosityIsIrrelevant | constraints.go:122-128 | constraints that differ only in verbosity give the same violations, hence the same verdict |
| Evaluation.RunAfterAddConstraint | constraints.go:32-36 | after `AddConstraint`, a run reports the old violations followed by the new constraint's |
| Evaluation.EmptyRunnerPasses | constraints.go:24-26 | a runner from `NewBR` reports no violation |
| Evaluation.UnconstrainedNeverViolates | constraints.go:130-148 | a constraint with no budget set reports nothing, whatever was measured |
| Evaluation.ViolationNeedsBudget | constraints.go:130-148 | only a budget that is set can produce a violation |
| Evaluation.MaxAllocsBoundary | constraints.go:130-132 | allocations equal to the budget pass; one more fails |
| Evaluation.MaxAllocatedBytesBoundary | constraints.go:134-136 | allocated bytes equal to the budget pass; one more fails |
| Evaluation.MaxNsBoundary | constraints.go:138-140 | ns per op equal to the budget pass; one more fails |
| Evaluation.MBPerSecBoundaries | constraints.go:142-148 | max MB/s fails iff throughput is strictly above it; min MB/s fails iff strictly below |
| Evaluation.NonPositiveMinNeverFails | constraints.go:146-148 | without a self-reported figure, a minimum of zero or less never fails, since derived throughput is never negative |
| Scenarios.MaxAllocsZeroFailsWhenAllocating | constraints_test.go:15-19 | a max-allocations budget of 0 with an allocating operation yields exactly one violation, naming the operation and that budget |
| Scenarios.MaxAllocsFivePassesWhenWithin | constraints_test.go:21-25 | a max-allocations budget of 5 passes whenever at most five allocations are made per op |
| Scenarios.CheckIsSingleton | constraints.go:130-148 | when exactly one budget is violated, the constraint's report is that one violation |
| Scenarios.MinThroughputTwiceReportsOnce | constraints_test.go:69-79 | the two minimum-throughput cases of the test, combined in one runner: a minimum the first result does not reach and one the second does give exactly one violation, from the first registration |
| Scenarios.MiddlePassDoesNotHideOthers | constraints.go:120-149 | with three constraints of which the middle passes, the report is the first's violations followed by the third's |
| Scenarios.DerivedThroughputExample | constraints.go:163-167 | 512 bytes per op over 10^6 ops in one second derive to 512 MB/s |
| Scenarios.ReportedThroughputWins | constraints.go:160-162 | a self-reported MB/s figure is used even when bytes, time and N are zero |
| Scenarios.FluentAndOptionsAgree | constraints_test.go:15 | the first test's option list and the equivalent fluent chain register the same constraint, whatever number the verbosity method gets |

## Left out

- The harness call `testing.Benchmark` (constraints.go:125) is foreign code with nondeterministic timing. Its results are an input to `Run`, one per constraint.
- How `AllocsPerOp`, `AllocedBytesPerOp` and `NsPerOp` are computed inside Go's `testing` package is foreign code. They are fields of `BenchmarkResult`.
- Resolving the function's name by reflection (constraints.go:121) is not portable. `Operation.name` replaces it.
- The `fmt.Printf` progress lines for verbose constraints (constraints.go:122-128) are output only. `VerbosityIsIrrelevant` shows the flag has no other effect.
- The exact error text built by the chained `fmt.Errorf` calls (constraints.go:131-147) is not modelled. This includes the `%!w(<nil>)` prefix that the first wrap of a nil error produces. Violations are `(name, budget)` records in the same order.
- Evaluation.MBPerSec: computed over `real`, so `float64` rounding in the division and in `Duration.Seconds` is not modelled. Neither are NaN and ±Inf: `real` has neither. In Go, a NaN budget or a NaN reported `Extra["MB/s"]` makes both comparisons at constraints.go:142 and 146 false, so that budget never fails.
- Constraints.Constraint.WithMaxMBPerSec: takes a `real`, so a NaN or infinite budget cannot be expressed; see the line above for what Go does with one.
- Runner.ForkIsIndependent: states the value-semantics append contract, which Go does not keep. `AddConstraint` and `Append` call `append` on the parent's slice (constraints.go:33-34, 113-114). Once the parent slice has spare capacity, two forks write the same element of a shared backing array. For example, after three appends the capacity is 4, and two forks from that runner both write element 3, so the first fork then holds the second fork's constraint. The model appends to value sequences and does not reproduce this aliasing.
- Passing a nil `*constraint` to `AddConstraint` panics in Go. This is not modelled, because Dafny values cannot be nil.
- Passing a nil option to `Append`, as in `Append(f, nil)`, panics at constraints.go:110 when it is called. `OptionFunc` has no nil case, so this is not modelled.
- Constraints.Constraint.With*: Go's builder methods change the `*constraint` they are called on and return that same pointer (constraints.go:39, 44, 49, 54, 59, 64). Every reference to that builder therefore sees the change, so `c.WithMaxAllocs(1)` alone updates `c`. The model's methods return a new value and leave their receiver unchanged, so a caller must use the result, for example `c := c.WithMaxAllocs(1)`. Chained calls and the value registered by `AddConstraint` are the same in both.
- The end-to-end tests (constraints_test.go) depend on measured timings. They are modelled only as the scenarios above, stated for every result that fits them.
