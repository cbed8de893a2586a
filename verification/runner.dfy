/** The benchmark runner: an ordered sequence of constraints. Adding a
    constraint yields a new runner; the old one is left as it was. */
module Runner {
  import opened Constraints

  datatype BenchmarkRunner = BenchmarkRunner(constraints: seq<Constraint>) {

    /** Register an already built constraint after all earlier ones. */
    function AddConstraint(c: Constraint): (r: BenchmarkRunner)
      ensures |r.constraints| == |constraints| + 1
      ensures r.constraints[..|constraints|] == constraints
      ensures r.constraints[|constraints|] == c
    {
      BenchmarkRunner(constraints + [c])
    }

    /** Build a constraint for `bf` from the options, applied left to right,
        and register it. */
    function Append(bf: Operation, opts: seq<OptionFunc>): (r: BenchmarkRunner)
      ensures |r.constraints| == |constraints| + 1
      ensures r.constraints[..|constraints|] == constraints
      ensures r.constraints[|constraints|].benchfunc == bf
      ensures opts == [] ==> r.constraints[|constraints|] == NewConstraint(bf)
    {
      AddConstraint(Configure(bf, opts))
    }
  }

  /** A runner with no constraints. */
  function NewBR(): (r: BenchmarkRunner)
    ensures |r.constraints| == 0
  {
    BenchmarkRunner([])
  }

  /** `Append` is `AddConstraint` of the constraint its options describe,
      and a fluent chain over the same options registers the same value. */
  lemma AppendIsAddConstraint(br: BenchmarkRunner, bf: Operation, opts: seq<OptionFunc>)
    ensures br.Append(bf, opts) == br.AddConstraint(Chain(NewConstraint(bf), opts))
  {
    ChainIsApplyAll(NewConstraint(bf), opts);
  }

  /** In the constraint `Append` registers, each field holds the value of
      the last option that targets it, or its fresh default when none does. */
  lemma AppendLastWriteWins(br: BenchmarkRunner, bf: Operation, opts: seq<OptionFunc>, g: Field)
    ensures var c := br.Append(bf, opts).constraints[|br.constraints|];
      && ((forall k :: 0 <= k < |opts| ==> opts[k].Target() != g) ==> c.Agrees(NewConstraint(bf), g))
      && (forall k :: 0 <= k < |opts| && opts[k].Target() == g
            && (forall j :: k < j < |opts| ==> opts[j].Target() != g)
            ==> c.Agrees(opts[k].Apply(NewConstraint(bf)), g))
  {
    if forall k :: 0 <= k < |opts| ==> opts[k].Target() != g {
      UntargetedFieldKept(NewConstraint(bf), opts, g);
    }
    forall k | 0 <= k < |opts| && opts[k].Target() == g && (forall j :: k < j < |opts| ==> opts[j].Target() != g)
      ensures Configure(bf, opts).Agrees(opts[k].Apply(NewConstraint(bf)), g)
    {
      LastWriteWins(NewConstraint(bf), opts, g, k);
    }
  }

  /** Adding twice to the same runner forks it: both results keep the common
      prefix, and neither sees the other's constraint. */
  lemma ForkIsIndependent(br: BenchmarkRunner, c1: Constraint, c2: Constraint)
    ensures br.AddConstraint(c1).constraints[..|br.constraints|] == br.AddConstraint(c2).constraints[..|br.constraints|]
    ensures br.AddConstraint(c1).constraints[|br.constraints|] == c1
    ensures br.AddConstraint(c1).AddConstraint(c2).constraints == br.constraints + [c1, c2]
  {
  }
}
