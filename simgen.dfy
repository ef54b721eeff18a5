/** The Monte Carlo part of the risk engine: a normal generator that keeps
    its parameters, and a naive simulation that turns sequences of draws into
    cumulative paths and summarises them step by step. The draws themselves,
    which the source takes from numpy's random generator, are an argument. */
module SimGen {
  import opened Wrappers
  import opened Numeric

  /** The exceptions a simulation run can raise. */
  datatype SimulationError = IndexError | AttributeError

  /** The parameter dictionary of a normal generator. */
  function NormalArgs(location: real, scale: real): (args: map<string, real>)
    ensures args.Keys == {"location", "scale"}
    ensures args["location"] == location && args["scale"] == scale
  {
    map["location" := location, "scale" := scale]
  }

  /** `NormalDistribution(location, scale)`. Drawing from it is left to the
      caller of `NaiveMonteCarlo.Simulate`. */
  class NormalDistribution {
    const args: map<string, real>

    constructor (location: real, scale: real)
      ensures args == NormalArgs(location, scale)
    {
      args := NormalArgs(location, scale);
    }
  }

  // ---------------------------------------------------------------------
  // Paths and their summaries

  /** numpy's `cumsum`, seeded with a running total `start`: each entry adds
      one draw to the total so far. */
  function CumSumFrom(start: real, d: seq<real>): (c: seq<real>)
    ensures |c| == |d|
    ensures forall j :: 0 <= j < |d| ==> c[j] == start + Sum(d[..j + 1])
    decreases |d|
  {
    if |d| == 0 then []
    else
      var rest := CumSumFrom(start + d[0], d[1..]);
      forall j | 0 <= j < |d| ensures Sum(d[..j + 1]) == d[0] + Sum(d[1..][..j]) {
        SumFirst(d[..j + 1]);
        assert d[..j + 1][1..] == d[1..][..j];
      }
      [start + d[0]] + rest
  }

  /** The running sum of a sequence of draws: entry `j` is the total of the
      draws `0 .. j`. */
  function CumSum(d: seq<real>): (c: seq<real>)
    ensures |c| == |d|
    ensures forall j :: 0 <= j < |d| ==> c[j] == Sum(d[..j + 1])
  {
    CumSumFrom(0.0, d)
  }

  /** One path per draw sequence. */
  function Paths(draws: seq<seq<real>>): (paths: seq<seq<real>>)
    ensures |paths| == |draws|
    ensures forall i :: 0 <= i < |draws| ==> paths[i] == CumSum(draws[i])
  {
    seq(|draws|, i requires 0 <= i < |draws| => CumSum(draws[i]))
  }

  /** `mean(axis=0)`: the average of each column. */
  function ColumnMeans(m: seq<seq<real>>, width: nat): (r: seq<real>)
    requires |m| > 0 && Rectangular(m, width)
    ensures |r| == width
  {
    seq(width, j requires 0 <= j < width => Mean(Column(m, width, j)))
  }

  /** `var(axis=0)`: the population variance of each column. */
  function ColumnVariances(m: seq<seq<real>>, width: nat): (r: seq<real>)
    requires |m| > 0 && Rectangular(m, width)
    ensures |r| == width
  {
    seq(width, j requires 0 <= j < width => PopVariance(Column(m, width, j)))
  }

  /** `std(axis=0)`: the population standard deviation of each column. */
  function ColumnStds(sqrt: real -> real, m: seq<seq<real>>, width: nat): (r: seq<real>)
    requires |m| > 0 && Rectangular(m, width)
    ensures |r| == width
  {
    seq(width, j requires 0 <= j < width => sqrt(ColumnVariances(m, width)[j]))
  }

  /** `[:, -1]`: the last entry of each row. */
  function Terminal(m: seq<seq<real>>, width: nat): (r: seq<real>)
    requires width > 0 && Rectangular(m, width)
    ensures |r| == |m|
  {
    seq(|m|, i requires 0 <= i < |m| => m[i][width - 1])
  }

  /** The paths form an `n x periods` matrix whose row `i` is the running sum
      of draw sequence `i`. */
  lemma PathsShape(draws: seq<seq<real>>, periods: nat)
    requires Rectangular(draws, periods)
    ensures Rectangular(Paths(draws), periods)
    ensures forall i, j :: 0 <= i < |draws| && 0 <= j < periods ==>
              Paths(draws)[i][j] == Sum(draws[i][..j + 1])
  {
  }

  /** The simulated terminal distribution holds the total of each draw
      sequence. */
  lemma TerminalIsTotal(draws: seq<seq<real>>, periods: nat)
    requires periods > 0 && Rectangular(draws, periods)
    ensures Rectangular(Paths(draws), periods)
    ensures forall i :: 0 <= i < |draws| ==> Terminal(Paths(draws), periods)[i] == Sum(draws[i])
  {
    forall i | 0 <= i < |draws| ensures Terminal(Paths(draws), periods)[i] == Sum(draws[i]) {
      assert draws[i][..periods] == draws[i];
    }
  }

  /** The first `width` draws of every sequence. */
  function Heads(draws: seq<seq<real>>, periods: nat, width: nat): (heads: seq<seq<real>>)
    requires Rectangular(draws, periods) && width <= periods
    ensures Rectangular(heads, width)
  {
    seq(|draws|, i requires 0 <= i < |draws| => draws[i][..width])
  }

  /** Summing the paths at step `j` adds up the heads row by row; summing
      the per-step totals adds them up column by column. */
  lemma PathColumnTotal(draws: seq<seq<real>>, periods: nat, j: nat)
    requires Rectangular(draws, periods) && j < periods
    ensures Rectangular(Paths(draws), periods)
    ensures Sum(Column(Paths(draws), periods, j))
         == Sum(ColumnSums(Heads(draws, periods, j + 1), j + 1))
  {
    var heads := Heads(draws, periods, j + 1);
    assert Column(Paths(draws), periods, j) == RowSums(heads);
    SumInterchange(heads, j + 1);
  }

  /** The column totals of the heads are the per-step totals of the draws. */
  lemma HeadsColumnSums(draws: seq<seq<real>>, periods: nat, width: nat)
    requires Rectangular(draws, periods) && width <= periods
    ensures ColumnSums(Heads(draws, periods, width), width) == ColumnSums(draws, periods)[..width]
  {
    var heads := Heads(draws, periods, width);
    forall k | 0 <= k < width
      ensures Column(heads, width, k) == Column(draws, periods, k)
    {
    }
  }

  /** Each per-step total is `n` times the per-step mean. */
  lemma TotalsAreScaledMeans(draws: seq<seq<real>>, periods: nat)
    requires |draws| > 0 && Rectangular(draws, periods)
    ensures ColumnSums(draws, periods) == Scale(|draws| as real, ColumnMeans(draws, periods))
  {
    var n := |draws| as real;
    var means := ColumnMeans(draws, periods);
    forall k | 0 <= k < periods
      ensures ColumnSums(draws, periods)[k] == Scale(n, means)[k]
    {
      var total := Sum(Column(draws, periods, k));
      calc {
        n * ColumnMeans(draws, periods)[k];
        == n * (total / n);
        == total;
      }
    }
  }

  /** The mean of the paths at step `j` is the total of the step averages up
      to `j`. */
  lemma MeanPathStep(draws: seq<seq<real>>, periods: nat, j: nat)
    requires |draws| > 0 && Rectangular(draws, periods) && j < periods
    ensures Rectangular(Paths(draws), periods)
    ensures Mean(Column(Paths(draws), periods, j)) == Sum(ColumnMeans(draws, periods)[..j + 1])
  {
    hide Paths, Heads, ColumnSums, ColumnMeans, Scale, Mean;
    var n := |draws| as real;
    var allMeans := ColumnMeans(draws, periods);
    var means := allMeans[..j + 1];
    PathColumnTotal(draws, periods, j);
    HeadsColumnSums(draws, periods, j + 1);
    TotalsAreScaledMeans(draws, periods);
    ScalePrefix(n, allMeans, j + 1);
    SumScale(n, means);
    var column := Column(Paths(draws), periods, j);
    MeanFromTotal(column, Sum(means));
  }

  /** The mean path is the running sum of the mean draw at each step: the
      average of the totals up to step `j` equals the total of the step
      averages up to `j`. */
  lemma MeanPathIsCumSumOfMeanDraws(draws: seq<seq<real>>, periods: nat)
    requires |draws| > 0 && Rectangular(draws, periods)
    ensures Rectangular(Paths(draws), periods)
    ensures ColumnMeans(Paths(draws), periods) == CumSum(ColumnMeans(draws, periods))
  {
    forall j | 0 <= j < periods
      ensures ColumnMeans(Paths(draws), periods)[j] == CumSum(ColumnMeans(draws, periods))[j]
    {
      MeanPathStep(draws, periods, j);
    }
  }

  /** With a single simulation the mean path is that simulation's running
      sum, every step has variance 0 and the terminal distribution is the one
      total. */
  lemma SingleSimulation(draws: seq<seq<real>>, periods: nat)
    requires |draws| == 1 && periods > 0 && Rectangular(draws, periods)
    ensures Rectangular(Paths(draws), periods)
    ensures ColumnMeans(Paths(draws), periods) == CumSum(draws[0])
    ensures forall j :: 0 <= j < periods ==> ColumnVariances(Paths(draws), periods)[j] == 0.0
    ensures Terminal(Paths(draws), periods) == [Sum(draws[0])]
  {
    var paths := Paths(draws);
    forall j | 0 <= j < periods
      ensures ColumnMeans(paths, periods)[j] == CumSum(draws[0])[j]
      ensures ColumnVariances(paths, periods)[j] == 0.0
    {
      var column := Column(paths, periods, j);
      MeanOfConstant(column, column[0]);
      PopVarianceZeroIffConstant(column);
    }
    TerminalIsTotal(draws, periods);
  }

  /** Each step's standard deviation is non-negative, and it is zero exactly
      when all paths agree at that step. */
  lemma StdZeroIffPathsAgree(sqrt: real -> real, draws: seq<seq<real>>, periods: nat, j: nat)
    requires IsSqrt(sqrt)
    requires |draws| > 0 && Rectangular(draws, periods) && j < periods
    ensures Rectangular(Paths(draws), periods)
    ensures ColumnStds(sqrt, Paths(draws), periods)[j] >= 0.0
    ensures ColumnStds(sqrt, Paths(draws), periods)[j] == 0.0 <==>
              forall i :: 0 <= i < |draws| ==> Paths(draws)[i][j] == Paths(draws)[0][j]
  {
    var column := Column(Paths(draws), periods, j);
    PopVarianceZeroIffConstant(column);
    SqrtZeroIff(sqrt, PopVariance(column));
    assert ColumnVariances(Paths(draws), periods)[j] == PopVariance(column);
    assert ColumnStds(sqrt, Paths(draws), periods)[j] == sqrt(PopVariance(column));
    assert forall i :: 0 <= i < |draws| ==> column[i] == Paths(draws)[i][j];
    if forall i :: 0 <= i < |draws| ==> Paths(draws)[i][j] == Paths(draws)[0][j] {
      assert Constant(column);
    }
  }

  // ---------------------------------------------------------------------
  // The simulation object

  /** `NaiveMonteCarlo(Generator, **kwargs)`: a generator, the keyword
      arguments and the summaries of the last run. `sqrt` stands for numpy's
      square root. */
  class NaiveMonteCarlo {
    const generator: NormalDistribution
    const args: map<string, real>
    const sqrt: real -> real
    var simulationMean: Option<seq<real>>
    var simulationStd: Option<seq<real>>
    var simulatedDistribution: Option<seq<real>>

    constructor (generator: NormalDistribution, args: map<string, real>, sqrt: real -> real)
      ensures this.generator == generator && this.args == args && this.sqrt == sqrt
      ensures simulationMean == None && simulationStd == None && simulatedDistribution == None
    {
      this.generator := generator;
      this.args := args;
      this.sqrt := sqrt;
      simulationMean := None;
      simulationStd := None;
      simulatedDistribution := None;
    }

    /** Attribute lookup on the object: only `Generator` names the
        generator. */
    function Attribute(name: string): (g: Option<NormalDistribution>)
      ensures g.Some? <==> name == "Generator"
      ensures g.Some? ==> g.value == generator
    {
      if name == "Generator" then Some(generator) else None
    }

    /** `simulate(periods_forward, number_of_simulations)` as intended: the
        generator's draws (here `draws`, one sequence of `periodsForward`
        values per simulation) become cumulative paths; the per-step mean
        and standard deviation and the terminal values are stored. numpy
        raises an IndexError on `[:, -1]` when there are no simulations or
        no periods. */
    method Simulate(periodsForward: nat, numberOfSimulations: nat, draws: seq<seq<real>>)
      returns (r: Result<seq<seq<real>>, SimulationError>)
      requires |draws| == numberOfSimulations && Rectangular(draws, periodsForward)
      modifies this`simulationMean, this`simulationStd, this`simulatedDistribution
      ensures numberOfSimulations == 0 || periodsForward == 0 ==>
                r == Failure(IndexError) && unchanged(this)
      ensures numberOfSimulations > 0 && periodsForward > 0 ==>
                && r == Success(Paths(draws))
                && Rectangular(Paths(draws), periodsForward)
                && simulationMean == Some(ColumnMeans(Paths(draws), periodsForward))
                && simulationStd == Some(ColumnStds(sqrt, Paths(draws), periodsForward))
                && simulatedDistribution == Some(Terminal(Paths(draws), periodsForward))
    {
      if numberOfSimulations == 0 || periodsForward == 0 {
        return Failure(IndexError);
      }
      var simulations := Paths(draws);
      PathsShape(draws, periodsForward);
      simulationMean := Some(ColumnMeans(simulations, periodsForward));
      simulationStd := Some(ColumnStds(sqrt, simulations, periodsForward));
      simulatedDistribution := Some(Terminal(simulations, periodsForward));
      r := Success(simulations);
    }

    /** `simulate` as written: the comprehension looks up the misspelled
        attribute `Geneprator` once per simulation, so any run with at least
        one simulation raises AttributeError before storing anything, and a
        run with none reaches the IndexError of `[:, -1]`. */
    method SimulateAsWritten(periodsForward: nat, numberOfSimulations: nat, draws: seq<seq<real>>)
      returns (r: Result<seq<seq<real>>, SimulationError>)
      requires |draws| == numberOfSimulations && Rectangular(draws, periodsForward)
      ensures r.Failure?
      ensures numberOfSimulations > 0 ==> r == Failure(AttributeError)
      ensures numberOfSimulations == 0 ==> r == Failure(IndexError)
    {
      if numberOfSimulations == 0 {
        return Failure(IndexError);
      }
      var g := Attribute("Geneprator");
      if g.None? {
        return Failure(AttributeError);
      }
      r := Success(Paths(draws));
    }
  }
}
