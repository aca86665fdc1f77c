# Data-Distribution-Classes in Dafny

This project models the two parametric distributions of the
`distributions` package and proves properties of them.

- **Gaussian** (`gaussian.dfy`, module `Gaussian`).
  - `mean_of`, `standard_deviation_of` (modelled as a variance plus a square root) and the constructor, which caches the mean and the standard deviation once.
  - `z_score`.
  - `__add__`, the closed-form sum of two independent normals.
- **Bernoulli** (`bernoulli.dfy`, module `Bernoulli`).
  - A binomial distribution with one trial.
  - Its mass function `pdf` and the wrapper `probability`.
  - The four inherited operations it leaves unsupported.
- `wrappers.dfy` holds the `Option` and `Result` types. `arith.dfy` (module `RealArith`) holds the facts about real multiplication the proofs use.

Arithmetic is over Dafny's mathematical `real`, so nothing is rounded. Python
raises an exception where a divisor is zero; the model returns
`Err(ZeroDivision)` there. `pdf` raises `ValueError` for an outcome other than
0 or 1; the model returns `Err(InvalidOutcome)`.

`math.sqrt` and `** 0.5` have no Dafny counterpart. Every member that needs a
square root takes it as a parameter `root: real -> real`. What is proved about
the standard deviation is proved under `IsSquareRoot(root)`: for every
`v >= 0`, `root(v) >= 0` and `root(v)^2 == v`. The model assumes nothing else
about `root`.

Behaviour of the code that is easy to misread, and that the model keeps:

- **Empty sample with a supplied mean.** The code divides by `len - 1 = -1` and gets variance 0, so no error is raised.
- **Adding two normals.** The code does not build a parametric normal: its last line fails. See Findings below.
- **Bernoulli's unsupported operations.** The three stubs return `None` without raising an error. `__add__` returns `NotImplemented`, so `a + b` on two Bernoullis raises `TypeError`: both operands have the same type, so no reflected addition is tried. The model gives each an explicit `Unsupported` outcome.
- **The success probability `p`.** bernoulli.py does not check that `p` lies in [0, 1], and `Binomial`'s constructor, which receives it, is not modelled. The model takes any real `p`.

## Model

| member | source | states |
|---|---|---|
| Gaussian.MeanOf | distributions/gaussian.py:26 | the mean exists exactly for a non-empty dataset and then times the length gives the sum; an empty dataset is a division by zero |
| Gaussian.MeanBalancesDeviations | distributions/gaussian.py:26 | for a non-empty dataset, `m` is the mean if and only if the deviations from `m` sum to zero |
| Gaussian.ResolveMean | distributions/gaussian.py:39-40 | the mean used is the supplied one when given, otherwise mean_of of the data (failing only when that fails) |
| Gaussian.VarianceOf | distributions/gaussian.py:38-42 | `mean_value` defaults to None; the helper `Divisor` gives line 38's n; the variance is defined exactly when the divisor (len - 1 for a sample, len for a population) is non-zero and a mean is available; otherwise division by zero; when defined, variance times divisor equals the sum of squared deviations from the mean used |
| Gaussian.SumSquaredDeviationsNonNegative | distributions/gaussian.py:42 | the numerator of the variance is never negative |
| Gaussian.ZeroSpreadIffConstant | distributions/gaussian.py:42 | the squared deviations from `m` sum to zero if and only if every datum equals `m` |
| Gaussian.VarianceNonNegative | distributions/gaussian.py:42 | every defined variance is at least 0, including the empty sample whose divisor is -1 |
| Gaussian.StandardDeviationOf | distributions/gaussian.py:28-43 | `mean_value` defaults to None; defined exactly when the variance is, fails with division by zero otherwise, and with a true square root is a non-negative value whose square is the variance |
| Gaussian.StandardDeviationWellDefined | distributions/gaussian.py:43 | any two true square roots give the same standard deviation |
| Gaussian.SuppliedMeanChangesNothing | distributions/gaussian.py:39-40 | passing mean_of(D) as mean_value gives the same variance and standard deviation as omitting it |
| Gaussian.BalancePointMinimises | distributions/gaussian.py:42 | squared deviations from any `c` equal those from a balance point `m` plus len·(m - c)^2 |
| Gaussian.MeanMinimisesSquaredDeviations | distributions/gaussian.py:40-42 | squared deviations from any `c` equal those from the mean plus len·(mean - c)^2 |
| Gaussian.MeanUniquelyMinimises | distributions/gaussian.py:40-42 | squared deviations are least when measured from the mean, and equal to that least value only at the mean |
| Gaussian.OtherMeanIncreasesVariance | distributions/gaussian.py:39-42 | supplying any mean_value `c` is defined whenever the default is, never gives a smaller variance, and gives the same variance exactly when `c` is the mean |
| Gaussian.SampleAtLeastPopulation | distributions/gaussian.py:38-42 | for more than one datum both variances exist, the sample variance is at least the population variance, and they are equal exactly when every datum equals the mean used |
| Gaussian.ConcreteDataset | distributions/gaussian.py:26-42 | for [2,4,4,4,5,5,7,9]: mean 5, squared deviations 32, sample variance 32/7, population variance 4 |
| Gaussian.ConcreteStandardDeviation | distributions/gaussian.py:38-43 | the sample standard deviation of [2,4,4,4,5,5,7,9] lies strictly between 2.138 and 2.139 |
| Gaussian.NewNormal | distributions/gaussian.py:7-16 | `is_sample` defaults to true; construction succeeds exactly for more than one datum (sample) or at least one (population); the cached mean times the length is the sum; the cached std is standard_deviation_of with that mean; with a true square root the std is non-negative and squares to the variance |
| Gaussian.ZScore | distributions/gaussian.py:45-46 | defined exactly when std is non-zero (division by zero otherwise), and then mean + z·std gives the point back |
| Gaussian.ZScoreOfMean | distributions/gaussian.py:46 | the mean has z-score 0 |
| Gaussian.ZScoreMonotone | distributions/gaussian.py:46 | with a positive std, a larger point has a larger z-score |
| Gaussian.Add | distributions/gaussian.py:60-62 | the means add and, with a true square root, the std is non-negative and the variances add |
| Gaussian.AddCommutative | distributions/gaussian.py:60-62 | combining a with b gives what combining b with a gives |
| Gaussian.AddAssociative | distributions/gaussian.py:60-62 | with a true square root, (a + b) + c equals a + (b + c) |
| Gaussian.AddStandardNormals | distributions/gaussian.py:60-62 | two standard normals combine to mean 0 and variance 2 |
| Gaussian.NewNormalFrom | distributions/gaussian.py:14-16 | a bare number passed as the dataset cannot be summed, so construction fails; a dataset constructs as usual |
| Gaussian.AddAsWritten | distributions/gaussian.py:60-64 | the addition as written never yields a distribution: it always fails because a bare number is not iterable |
| Gaussian.AddAsWrittenFails | distributions/gaussian.py:64 | on two standard normals the written addition fails, while the closed form has variance 2 |
| Bernoulli.NewBernoulli | distributions/bernoulli.py:6-14 | a Bernoulli of probability `prob` is a binomial with n = 1 and p = prob, and p + q = 1 |
| Bernoulli.Pdf | distributions/bernoulli.py:26-38 | the mass is defined exactly for k = 0 or k = 1; it is p at 1 and 1 - p at 0; any other k is an invalid outcome |
| Bernoulli.PdfSumsToOne | distributions/bernoulli.py:33-36 | pdf(1) + pdf(0) = 1 |
| Bernoulli.PdfInUnitInterval | distributions/bernoulli.py:33-36 | when 0 <= p <= 1, every defined mass lies in [0, 1] |
| Bernoulli.IntOf | distributions/bernoulli.py:47 | int(bool) is 1 exactly for true and 0 otherwise |
| Bernoulli.Probability | distributions/bernoulli.py:40-47 | `is_success` defaults to true; for a bool argument it never fails, and gives p for a success and q for a failure |
| Bernoulli.ProbabilitiesComplement | distributions/bernoulli.py:47 | probability(true) = pdf(1), probability(false) = pdf(0), and the two add to 1 |
| Bernoulli.FromBinaryData | distributions/bernoulli.py:16-19 | building a Bernoulli from binary data is unsupported |
| Bernoulli.FromFile | distributions/bernoulli.py:21-24 | reading a Bernoulli from a file is unsupported |
| Bernoulli.PlotHistogram | distributions/bernoulli.py:49-51 | plotting a histogram is unsupported |
| Bernoulli.Add | distributions/bernoulli.py:53-54 | adding two Bernoulli distributions is unsupported |
| Bernoulli.ConcreteBernoulli | distributions/bernoulli.py:33-47 | for p = 0.3: pdf(1) = 0.3, pdf(0) = 0.7, pdf(2) is an invalid outcome, probability(false) = 0.7, probability() = 0.3 |

## Left out

- `NormalDistribution.pdf` (distributions/gaussian.py:48-58): it needs `exp` and π, which have no exact real counterpart.
- The square root: `math.sqrt` and `** 0.5` are a parameter `root`, not a definition. No axiom about it is assumed. Facts that need it hold under `IsSquareRoot(root)`.
- Floating point: all arithmetic is exact. For example, the empty sample with a supplied mean gives variance 0 where Python gives -0.0.
- The `__main__` block (distributions/gaussian.py:67-70): it loads a file and plots.
- The `Distribution` base class: distributions/__distribution.py is not part of this model. `NormalDistribution.mean` and `.std` are taken to return the values the constructor caches. That is an assumption: gaussian.py:15 stores the mean in the name-mangled attribute `_NormalDistribution__mean`, and gaussian.py:16 reads it back through `self.mean`, a base-class accessor that is not part of this model.
- The `Binomial` base class: distributions/binomial.py is not part of this model. Only `n`, `p` and `q = 1 - p` are modelled, not its mass function or other methods.
- Gaussian.Add: the `other` operand is assumed to be a normal. A non-normal operand, such as a binomial distribution, is not modelled.
- Bernoulli.Probability: `is_success` is taken to be a bool. Python also accepts other values: `probability(2)` calls `pdf(2)`, which raises the `ValueError` of bernoulli.py:37-38. That input is not modelled.
- Bernoulli.Pdf: `k` is an integer. Python would also accept `True` or `1.0` as equal to 1; that is not modelled.
- Bernoulli.FromBinaryData, Bernoulli.FromFile, Bernoulli.PlotHistogram, Bernoulli.Add: the Python stubs return `None`, or `NotImplemented` for `__add__`. The model's `Unsupported` outcome stands for the `None` of the three stubs and for the `TypeError` that `+` raises on two Bernoullis. A right operand of another type, for which Python would try its `__radd__`, is not modelled.

## Findings

| source | as written | input that shows it | evidently intended | confidence | as-written member | corrected member |
|---|---|---|---|---|---|---|
| distributions/gaussian.py:64 | `NormalDistribution(mean, std)` passes the combined mean as the dataset and the combined std as `is_sample`; the constructor then treats a bare number as a dataset, and summing it fails | N(0, 1) + N(0, 1): the written addition fails instead of giving mean 0 and std √2 | a normal with mean `a.mean + b.mean` and std `sqrt(a.std² + b.std²)`, built from these parameters and not from a dataset | not executed | Gaussian.AddAsWritten | Gaussian.Add |
