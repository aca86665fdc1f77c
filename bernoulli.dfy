/** The Bernoulli distribution: a binomial distribution with a single trial.
    Its probability mass function gives p for a success (k = 1), q = 1 - p for
    a failure (k = 0), and rejects every other outcome. The operations the
    binomial base offers but a single trial does not support are explicit
    "unsupported" outcomes. */
module Bernoulli {
  import opened Wrappers

  /** The parameters a binomial distribution keeps: the number of trials and
      the success probability. Only what a Bernoulli relies on is modelled:
      `p`, and the failure probability `q`, which is 1 - p. */
  datatype Binomial = Binomial(n: nat, p: real) {
    function q(): real {
      1.0 - p
    }
  }

  /** A Bernoulli distribution is a binomial distribution with one trial. */
  type BernoulliTrial = b: Binomial | b.n == 1 witness Binomial(1, 0.0)

  /** The constructor: one trial with success probability `prob`. */
  function NewBernoulli(prob: real): (r: BernoulliTrial)
    ensures r.n == 1 && r.p == prob
    ensures r.p + r.q() == 1.0
  {
    Binomial(1, prob)
  }

  /** What the mass function can raise. */
  datatype PmfError = InvalidOutcome   // an outcome other than 0 (failure) or 1 (success)

  /** The probability mass function of one trial. */
  function Pdf(b: BernoulliTrial, k: int): (r: Result<real, PmfError>)
    ensures r.Ok? <==> k == 0 || k == 1
    ensures k == 1 ==> r == Ok(b.p)
    ensures k == 0 ==> r == Ok(1.0 - b.p)
    ensures r.Err? ==> r.error == InvalidOutcome
  {
    if k == 1 then Ok(b.p)
    else if k == 0 then Ok(b.q())
    else Err(InvalidOutcome)
  }

  /** The two outcomes carry the whole probability. */
  lemma PdfSumsToOne(b: BernoulliTrial)
    ensures Pdf(b, 1).Ok? && Pdf(b, 0).Ok?
    ensures Pdf(b, 1).value + Pdf(b, 0).value == 1.0
  {
  }

  /** For a success probability in [0, 1], every mass lies in [0, 1]. */
  lemma PdfInUnitInterval(b: BernoulliTrial, k: int)
    requires 0.0 <= b.p <= 1.0
    ensures Pdf(b, k).Ok? ==> 0.0 <= Pdf(b, k).value <= 1.0
  {
  }

  /** Python's int(bool): 1 for true, 0 for false. */
  function IntOf(x: bool): (r: int)
    ensures r == 0 || r == 1
    ensures x <==> r == 1
  {
    if x then 1 else 0
  }

  /** The probability of a success (the default) or a failure: the mass
      function at int(isSuccess), which never reaches its error branch. */
  function Probability(b: BernoulliTrial, isSuccess: bool := true): (r: Result<real, PmfError>)
    ensures r.Ok?
    ensures r == Ok(if isSuccess then b.p else b.q())
  {
    Pdf(b, IntOf(isSuccess))
  }

  /** The probabilities of success and of failure are complementary. */
  lemma ProbabilitiesComplement(b: BernoulliTrial)
    ensures Probability(b, true).value + Probability(b, false).value == 1.0
    ensures Probability(b, true) == Pdf(b, 1) && Probability(b, false) == Pdf(b, 0)
  {
  }

  /** The outcome of an operation a Bernoulli inherits but does not provide. */
  datatype Support<+T> = Supported(value: T) | Unsupported

  /** Fitting a Bernoulli to binary data is not available. */
  function FromBinaryData(dataset: seq<int>): (r: Support<BernoulliTrial>)
    ensures r.Unsupported?
  {
    Unsupported
  }

  /** Reading a Bernoulli from a file is not available. */
  function FromFile(filename: string): (r: Support<BernoulliTrial>)
    ensures r.Unsupported?
  {
    Unsupported
  }

  /** Plotting a histogram is not available. */
  function PlotHistogram(b: BernoulliTrial): (r: Support<()>)
    ensures r.Unsupported?
  {
    Unsupported
  }

  /** Adding two Bernoulli distributions is not implemented. */
  function Add(a: BernoulliTrial, b: BernoulliTrial): (r: Support<Binomial>)
    ensures r.Unsupported?
  {
    Unsupported
  }

  /** A Bernoulli with p = 0.3: success 0.3, failure 0.7, outcome 2 rejected. */
  lemma ConcreteBernoulli()
    ensures Pdf(NewBernoulli(0.3), 1) == Ok(0.3)
    ensures Pdf(NewBernoulli(0.3), 0) == Ok(0.7)
    ensures Pdf(NewBernoulli(0.3), 2) == Err(InvalidOutcome)
    ensures Probability(NewBernoulli(0.3), false) == Ok(0.7)
    ensures Probability(NewBernoulli(0.3)) == Ok(0.3)
  {
  }
}
