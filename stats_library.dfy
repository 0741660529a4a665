/**
 * The part of the statistics library that the distribution table relies on, as
 * uninterpreted values: a namespace of distribution families, each of which can be
 * frozen with keyword or positional parameters and can re-fit itself to samples,
 * and frozen distributions that sample, evaluate attributes elementwise, report
 * moments and entropy. None of the numerics is modelled.
 */
module StatsLibrary {
  import opened Wrappers

  /**
   * `rvs(size=n, random_state=seed)`: the library returns exactly `n` variates.
   * With no seed the library's global generator is used; its state is folded into the function.
   */
  type Sampler = f: (nat, Option<int>) -> seq<real> | forall n: nat, seed: Option<int> :: |f(n, seed)| == n
    witness (n: nat, seed: Option<int>) => seq(n, _ => 0.0)

  /**
   * A frozen distribution. `attributes` holds the methods that map an array to an array
   * elementwise (`pdf`, `pmf`, `cdf`, `sf`, `isf`, `logpdf`, ...), keyed by attribute name;
   * a name outside it is an attribute the object does not have.
   */
  datatype Frozen = Frozen(
    rvs: Sampler,
    attributes: map<string, real -> real>,
    stats: string -> seq<real>,
    entropy: real)

  /**
   * A distribution family of the library namespace. Freezing validates the parameters and
   * may be refused (`None`); `fit` re-estimates the family's parameters from samples
   * (shape parameters first, then loc and scale).
   */
  datatype Family = Family(
    byKeyword: map<string, real> -> Option<Frozen>,
    byPosition: seq<real> -> Option<Frozen>,
    fit: seq<real> -> seq<real>)

  /** The library namespace: family name to family. */
  type Library = map<string, Family>

  /** Applying an attribute to an array, element by element. */
  function Elementwise(f: real -> real, xs: seq<real>): (ys: seq<real>)
    ensures |ys| == |xs|
    ensures forall i :: 0 <= i < |xs| ==> ys[i] == f(xs[i])
  {
    seq(|xs|, i requires 0 <= i < |xs| => f(xs[i]))
  }
}
