/** A constraint pairs a measured operation with up to five optional budgets
    and a verbosity flag. It can be configured in two ways that must agree:
    the fluent `With*` members of `Constraint`, and the option functions
    (`OptionFunc`) applied in order to a fresh constraint. */
module Constraints {
  import opened Wrappers

  const MinInt64: int := -0x8000_0000_0000_0000
  const MaxInt64: int := 0x7FFF_FFFF_FFFF_FFFF

  /** Go's `int64`: budgets and integer metrics are only compared, never
      computed with, so no wrap-around arises. */
  type int64 = x: int | MinInt64 <= x <= MaxInt64

  /** The benchmark function under measurement. It is opaque; the only thing
      the runner reads from it is a name for its diagnostics. */
  datatype Operation = Operation(name: string)

  /** The five kinds of budget, declared in the order the runner checks them. */
  datatype Budget =
    | MaxAllocsPerOp
    | MaxAllocatedBytesPerOp
    | MaxNsPerOp
    | MaxMBPerSec
    | MinMBPerSec
  {
    /** Position of the budget in the runner's fixed checking order. */
    function Rank(): (k: nat)
      ensures k < 5
    {
      match this
      case MaxAllocsPerOp => 0
      case MaxAllocatedBytesPerOp => 1
      case MaxNsPerOp => 2
      case MaxMBPerSec => 3
      case MinMBPerSec => 4
    }
  }

  /** A configurable field of a constraint: one of the budgets, or the
      verbosity flag. The measured operation is fixed at construction. */
  datatype Field = BudgetField(budget: Budget) | VerboseField

  datatype Constraint = Constraint(
    benchfunc: Operation,
    verbose: bool,
    maxAllocedBytesPerOp: Option<int64>,
    maxAllocsPerOp: Option<int64>,
    maxNsPerOp: Option<int64>,
    maxMBPerSec: Option<real>,
    minMBPerSec: Option<real>)
  {
    /** `this` and `other` hold the same value in field `f`. */
    predicate Agrees(other: Constraint, f: Field) {
      match f
      case VerboseField => verbose == other.verbose
      case BudgetField(MaxAllocsPerOp) => maxAllocsPerOp == other.maxAllocsPerOp
      case BudgetField(MaxAllocatedBytesPerOp) => maxAllocedBytesPerOp == other.maxAllocedBytesPerOp
      case BudgetField(MaxNsPerOp) => maxNsPerOp == other.maxNsPerOp
      case BudgetField(MaxMBPerSec) => maxMBPerSec == other.maxMBPerSec
      case BudgetField(MinMBPerSec) => minMBPerSec == other.minMBPerSec
    }

    /** True when budget `b` is set (non-nil), i.e. will be checked. */
    predicate Declares(b: Budget) {
      match b
      case MaxAllocsPerOp => maxAllocsPerOp.Some?
      case MaxAllocatedBytesPerOp => maxAllocedBytesPerOp.Some?
      case MaxNsPerOp => maxNsPerOp.Some?
      case MaxMBPerSec => maxMBPerSec.Some?
      case MinMBPerSec => minMBPerSec.Some?
    }

    /** No budget is set: the constraint checks nothing. */
    predicate Unconstrained() {
      forall b: Budget :: !Declares(b)
    }

    // The fluent builder. In the source each method stores its argument
    // through the receiver pointer and returns the receiver; over values
    // that is "the same constraint with one field replaced".

    function WithMaxAllocs(i: int64): (r: Constraint)
      ensures r.maxAllocsPerOp == Some(i)
      ensures r.benchfunc == benchfunc
      ensures forall g: Field :: g != BudgetField(MaxAllocsPerOp) ==> r.Agrees(this, g)
    {
      this.(maxAllocsPerOp := Some(i))
    }

    function WithMaxAllocatedBytes(i: int64): (r: Constraint)
      ensures r.maxAllocedBytesPerOp == Some(i)
      ensures r.benchfunc == benchfunc
      ensures forall g: Field :: g != BudgetField(MaxAllocatedBytesPerOp) ==> r.Agrees(this, g)
    {
      this.(maxAllocedBytesPerOp := Some(i))
    }

    function WithMaxNsPerOp(i: int64): (r: Constraint)
      ensures r.maxNsPerOp == Some(i)
      ensures r.benchfunc == benchfunc
      ensures forall g: Field :: g != BudgetField(MaxNsPerOp) ==> r.Agrees(this, g)
    {
      this.(maxNsPerOp := Some(i))
    }

    function WithMaxMBPerSec(f: real): (r: Constraint)
      ensures r.maxMBPerSec == Some(f)
      ensures r.benchfunc == benchfunc
      ensures forall g: Field :: g != BudgetField(MaxMBPerSec) ==> r.Agrees(this, g)
    {
      this.(maxMBPerSec := Some(f))
    }

    function WithMinMBPerSec(f: real): (r: Constraint)
      ensures r.minMBPerSec == Some(f)
      ensures r.benchfunc == benchfunc
      ensures forall g: Field :: g != BudgetField(MinMBPerSec) ==> r.Agrees(this, g)
    {
      this.(minMBPerSec := Some(f))
    }

    /** The builder's verbosity switch takes a number and ignores it. */
    function WithVerbose(f: real): (r: Constraint)
      ensures r.verbose
      ensures r.benchfunc == benchfunc
      ensures forall g: Field :: g != VerboseField ==> r.Agrees(this, g)
    {
      this.(verbose := true)
    }
  }

  /** A fresh constraint: only the operation is set, every budget is nil and
      verbosity is off. */
  function NewConstraint(bf: Operation): (c: Constraint)
    ensures c.benchfunc == bf
    ensures !c.verbose
    ensures c.Unconstrained()
  {
    Constraint(bf, false, None, None, None, None, None)
  }

  /** The option functions, one per setter, named as in the source. Each value
      stands for the closure the source returns; `Apply` runs it. */
  datatype OptionFunc =
    | WithMaxAllocs(allocs: int64)
    | WithMaxAllocatedBytes(allocatedBytes: int64)
    | WithMaxNsPerOp(ns: int64)
    | WithMaxMBPerSec(maxMB: real)
    | WithMinMBPerSec(minMB: real)
    | WithVerbose
  {
    /** The one field this option writes. */
    function Target(): Field {
      match this
      case WithMaxAllocs(_) => BudgetField(MaxAllocsPerOp)
      case WithMaxAllocatedBytes(_) => BudgetField(MaxAllocatedBytesPerOp)
      case WithMaxNsPerOp(_) => BudgetField(MaxNsPerOp)
      case WithMaxMBPerSec(_) => BudgetField(MaxMBPerSec)
      case WithMinMBPerSec(_) => BudgetField(MinMBPerSec)
      case WithVerbose => VerboseField
    }

    /** `c` carries this option's value in the option's target field. */
    predicate HoldsIn(c: Constraint) {
      match this
      case WithMaxAllocs(i) => c.maxAllocsPerOp == Some(i)
      case WithMaxAllocatedBytes(i) => c.maxAllocedBytesPerOp == Some(i)
      case WithMaxNsPerOp(i) => c.maxNsPerOp == Some(i)
      case WithMaxMBPerSec(f) => c.maxMBPerSec == Some(f)
      case WithMinMBPerSec(f) => c.minMBPerSec == Some(f)
      case WithVerbose => c.verbose
    }

    /** Run the option on `c`: it writes its own field and nothing else. */
    function Apply(c: Constraint): (r: Constraint)
      ensures HoldsIn(r)
      ensures r.benchfunc == c.benchfunc
      ensures forall g: Field :: g != Target() ==> r.Agrees(c, g)
    {
      match this
      case WithMaxAllocs(i) => c.(maxAllocsPerOp := Some(i))
      case WithMaxAllocatedBytes(i) => c.(maxAllocedBytesPerOp := Some(i))
      case WithMaxNsPerOp(i) => c.(maxNsPerOp := Some(i))
      case WithMaxMBPerSec(f) => c.(maxMBPerSec := Some(f))
      case WithMinMBPerSec(f) => c.(minMBPerSec := Some(f))
      case WithVerbose => c.(verbose := true)
    }
  }

  /** Apply the options left to right, as the loop in `Append` does. */
  function ApplyAll(c: Constraint, opts: seq<OptionFunc>): (r: Constraint)
    ensures r.benchfunc == c.benchfunc
    decreases |opts|
  {
    if opts == [] then c else ApplyAll(opts[0].Apply(c), opts[1..])
  }

  /** The constraint `Append` builds from an operation and its options. */
  function Configure(bf: Operation, opts: seq<OptionFunc>): (c: Constraint)
    ensures c.benchfunc == bf
    ensures opts == [] ==> c == NewConstraint(bf)
  {
    ApplyAll(NewConstraint(bf), opts)
  }

  /** The fluent method corresponding to option `o`. The verbosity method's
      numeric argument is arbitrary (see `WithVerboseIgnoresArgument`). */
  function Step(c: Constraint, o: OptionFunc): Constraint {
    match o
    case WithMaxAllocs(i) => c.WithMaxAllocs(i)
    case WithMaxAllocatedBytes(i) => c.WithMaxAllocatedBytes(i)
    case WithMaxNsPerOp(i) => c.WithMaxNsPerOp(i)
    case WithMaxMBPerSec(f) => c.WithMaxMBPerSec(f)
    case WithMinMBPerSec(f) => c.WithMinMBPerSec(f)
    case WithVerbose => c.WithVerbose(0.0)
  }

  /** A fluent chain `c.With…(…).With…(…)…`, one method per element of `opts`. */
  function Chain(c: Constraint, opts: seq<OptionFunc>): (r: Constraint)
    ensures r.benchfunc == c.benchfunc
    decreases |opts|
  {
    if opts == [] then c else Chain(Step(c, opts[0]), opts[1..])
  }

  // ---------------------------------------------------------------------
  // Properties of the setters

  /** Two constraints that agree on the operation and on every field are equal. */
  lemma AgreeEverywhereIsEqual(a: Constraint, b: Constraint)
    requires a.benchfunc == b.benchfunc
    requires forall g: Field :: a.Agrees(b, g)
    ensures a == b
  {
    assert a.Agrees(b, VerboseField);
    assert a.Agrees(b, BudgetField(MaxAllocsPerOp));
    assert a.Agrees(b, BudgetField(MaxAllocatedBytesPerOp));
    assert a.Agrees(b, BudgetField(MaxNsPerOp));
    assert a.Agrees(b, BudgetField(MaxMBPerSec));
    assert a.Agrees(b, BudgetField(MinMBPerSec));
  }

  /** The builder's verbosity switch ignores its argument. */
  lemma WithVerboseIgnoresArgument(c: Constraint, f1: real, f2: real)
    ensures c.WithVerbose(f1) == c.WithVerbose(f2)
    ensures c.WithVerbose(f1) == WithVerbose.Apply(c)
  {
  }

  /** Each fluent method and its option function produce the same constraint. */
  lemma StepIsApply(c: Constraint, o: OptionFunc)
    ensures Step(c, o) == o.Apply(c)
  {
  }

  /** The value an option writes does not depend on what was there before. */
  lemma ApplyOverwrites(o: OptionFunc, a: Constraint, b: Constraint)
    ensures o.Apply(a).Agrees(o.Apply(b), o.Target())
  {
  }

  /** Options for different fields commute; for the same field the later one
      wins; applying an option twice is the same as applying it once. */
  lemma ApplyCommutesOrOverrides(o1: OptionFunc, o2: OptionFunc, c: Constraint)
    ensures o1.Target() != o2.Target() ==> o2.Apply(o1.Apply(c)) == o1.Apply(o2.Apply(c))
    ensures o1.Target() == o2.Target() ==> o2.Apply(o1.Apply(c)) == o2.Apply(c)
    ensures o1.Apply(o1.Apply(c)) == o1.Apply(c)
  {
  }

  /** Applying a longer option list is applying the last option afterwards. */
  lemma {:induction false} ApplyAllSnoc(c: Constraint, opts: seq<OptionFunc>, o: OptionFunc)
    ensures ApplyAll(c, opts + [o]) == o.Apply(ApplyAll(c, opts))
    decreases |opts|
  {
    if opts == [] {
      assert [o][1..] == [];
    } else {
      assert (opts + [o])[1..] == opts[1..] + [o];
      ApplyAllSnoc(opts[0].Apply(c), opts[1..], o);
    }
  }

  /** A field that no option targets keeps its value from `c`. */
  lemma {:induction false} UntargetedFieldKept(c: Constraint, opts: seq<OptionFunc>, g: Field)
    requires forall k :: 0 <= k < |opts| ==> opts[k].Target() != g
    ensures ApplyAll(c, opts).Agrees(c, g)
    decreases |opts|
  {
    if opts != [] {
      forall j | 0 <= j < |opts[1..]| ensures opts[1..][j].Target() != g {
        assert opts[1..][j] == opts[j + 1];
      }
      UntargetedFieldKept(opts[0].Apply(c), opts[1..], g);
    }
  }

  /** Last write wins: a field whose last writer is `opts[k]` holds what
      `opts[k]` writes, whatever earlier options wrote there. */
  lemma {:induction false} LastWriteWins(c: Constraint, opts: seq<OptionFunc>, g: Field, k: nat)
    requires k < |opts| && opts[k].Target() == g
    requires forall j :: k < j < |opts| ==> opts[j].Target() != g
    ensures ApplyAll(c, opts).Agrees(opts[k].Apply(c), g)
    decreases |opts|
  {
    var c' := opts[0].Apply(c);
    if k == 0 {
      forall j | 0 <= j < |opts[1..]| ensures opts[1..][j].Target() != g {
        assert opts[1..][j] == opts[j + 1];
      }
      UntargetedFieldKept(c', opts[1..], g);
    } else {
      forall j | k - 1 < j < |opts[1..]| ensures opts[1..][j].Target() != g {
        assert opts[1..][j] == opts[j + 1];
      }
      LastWriteWins(c', opts[1..], g, k - 1);
      ApplyOverwrites(opts[k], c', c);
    }
  }

  /** A fluent chain and the same options applied by `ApplyAll` agree. */
  lemma {:induction false} ChainIsApplyAll(c: Constraint, opts: seq<OptionFunc>)
    ensures Chain(c, opts) == ApplyAll(c, opts)
    decreases |opts|
  {
    if opts != [] {
      StepIsApply(c, opts[0]);
      ChainIsApplyAll(Step(c, opts[0]), opts[1..]);
    }
  }
}
