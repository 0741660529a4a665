/**
 * `create_distribution_df` (utils.py, lines 71-138): freeze a distribution family with
 * the user's parameters, draw variates, evaluate the density or mass, the cumulative
 * distribution and one or two user-chosen attributes, stack them into an array, label
 * its transpose as a table, and pair the moments, entropy and fitted parameters with
 * fixed statistic names.
 */
module DistributionTable {
  import opened Wrappers
  import opened StatsLibrary
  import MethodNames

  /** The exceptions the code can raise, one constructor per cause. */
  datatype Error =
    | UnknownDistribution(name: string)       // the namespace has no family of that name
    | InvalidParameters(name: string)         // the family refuses the parameters when frozen
    | NotBound                                // parameters neither a dict nor a list: `dist` stays None
    | NegativeSize(size: int)                 // `rvs` rejects a negative size
    | UnsupportedOperation(attribute: string) // the frozen distribution has no such attribute
    | MissingOption(index: nat)               // `user_options` has no entry at that index
    | ColumnLengthMismatch(expected: nat, given: nat) // labels and table columns differ in number

  /** `dist_params`: a dict binds by keyword, a list by position; any other value binds nothing. */
  datatype Params = Keyword(kwargs: map<string, real>) | Positional(args: seq<real>) | OtherShape

  /** The configured standard column labels of each kind of distribution. */
  datatype Config = Config(continuousStandard: seq<string>, discreteStandard: seq<string>)

  /**
   * One call: family name, kind, number of variates, the user's option labels (each reactive
   * read taken once), the `conditional()` flag, parameters, moment letters and seed.
   */
  datatype Request = Request(
    name: string,
    continuous: bool,
    size: int,
    options: seq<string>,
    conditional: bool,
    params: Params,
    moments: string,
    seed: Option<int>)

  /** A table: its column labels and its rows. */
  datatype Table = Table(columns: seq<string>, rows: seq<seq<real>>)

  /** The returned dictionary: array, table and the ordered statistics dictionary. */
  datatype DistData = DistData(distributionArray: seq<seq<real>>, table: Table, stats: seq<(string, real)>)

  const StatKeys: seq<string> := ["mean", "variance", "skewness", "kurtosis", "entropy", "loc", "scale"]

  function StandardColumns(config: Config, continuous: bool): seq<string> {
    if continuous then config.continuousStandard else config.discreteStandard
  }

  /** The attribute evaluated on the variates for the second row. */
  function DensityName(continuous: bool): string {
    if continuous then "pdf" else "pmf"
  }

  /** Freezing a known family with parameters of a bindable shape. */
  function Freeze(family: Family, params: Params): (r: Option<Frozen>)
    requires !params.OtherShape?
    ensures params.Keyword? ==> r == family.byKeyword(params.kwargs)
    ensures params.Positional? ==> r == family.byPosition(params.args)
  {
    match params
    case Keyword(kwargs) => family.byKeyword(kwargs)
    case Positional(args) => family.byPosition(args)
  }

  /**
   * Lines 93-99: a dict is bound by keyword, a list by position; any other shape leaves the
   * distribution unbound (so sampling fails) without looking the family up.
   */
  function Bind(lib: Library, name: string, params: Params): (r: Result<Frozen, Error>)
    ensures params.OtherShape? ==> r.Err? && r.error == NotBound
    ensures !params.OtherShape? && name !in lib ==> r.Err? && r.error == UnknownDistribution(name)
    ensures r.Ok? ==> name in lib && !params.OtherShape?
    ensures params.Keyword? && name in lib ==>
      if lib[name].byKeyword(params.kwargs).Some? then r == Ok(lib[name].byKeyword(params.kwargs).value)
      else r == Err(InvalidParameters(name))
    ensures params.Positional? && name in lib ==>
      if lib[name].byPosition(params.args).Some? then r == Ok(lib[name].byPosition(params.args).value)
      else r == Err(InvalidParameters(name))
  {
    match params
    case OtherShape => Err(NotBound)
    case _ =>
      if name !in lib then Err(UnknownDistribution(name))
      else
        match Freeze(lib[name], params)
        case None => Err(InvalidParameters(name))
        case Some(d) => Ok(d)
  }

  /** `getattr(dist, attribute)` for an elementwise attribute. */
  function Attribute(d: Frozen, attribute: string): (r: Result<real -> real, Error>)
    ensures r.Ok? <==> attribute in d.attributes
    ensures r.Ok? ==> r.value == d.attributes[attribute]
    ensures r.Err? ==> r.error == UnsupportedOperation(attribute)
  {
    if attribute in d.attributes then Ok(d.attributes[attribute]) else Err(UnsupportedOperation(attribute))
  }

  /** `user_options[index]`, which raises when the tuple is too short. */
  function OptionAt(options: seq<string>, index: nat): (r: Result<string, Error>)
    ensures r.Ok? <==> index < |options|
    ensures r.Ok? ==> r.value == options[index]
    ensures r.Err? ==> r.error == MissingOption(index)
  {
    if index < |options| then Ok(options[index]) else Err(MissingOption(index))
  }

  /** True when every row of `grid` has length `n`. */
  predicate Rectangular(grid: seq<seq<real>>, n: nat) {
    forall j :: 0 <= j < |grid| ==> |grid[j]| == n
  }

  /** `array.T` for `grid`, an array of `|grid|` rows of length `n`. */
  function Transpose(grid: seq<seq<real>>, n: nat): (t: seq<seq<real>>)
    requires Rectangular(grid, n)
    ensures |t| == n && Rectangular(t, |grid|)
    ensures forall i, j :: 0 <= i < n && 0 <= j < |grid| ==> t[i][j] == grid[j][i]
  {
    seq(n, i requires 0 <= i < n => seq(|grid|, j requires 0 <= j < |grid| => grid[j][i]))
  }

  /** Transposing twice gives the array back: the table holds exactly the array's values. */
  lemma TransposeInvolution(grid: seq<seq<real>>, n: nat)
    requires Rectangular(grid, n)
    ensures Transpose(Transpose(grid, n), |grid|) == grid
  {
    var t := Transpose(grid, n);
    var back := Transpose(t, |grid|);
    assert |back| == |grid|;
    forall j | 0 <= j < |grid|
      ensures back[j] == grid[j]
    {
      assert |back[j]| == n == |grid[j]|;
      forall i | 0 <= i < n
        ensures back[j][i] == grid[j][i]
      {
        assert back[j][i] == t[i][j];
      }
    }
  }

  function Min(a: int, b: int): int {
    if a <= b then a else b
  }

  /** `{k: round(v, 4) for k, v in zip(keys, values)}` as an ordered list of pairs. */
  function ZipRound(keys: seq<string>, values: seq<real>, round4: real -> real): (r: seq<(string, real)>)
    ensures |r| == Min(|keys|, |values|)
    ensures forall i :: 0 <= i < |r| ==> r[i] == (keys[i], round4(values[i]))
  {
    if keys == [] || values == [] then []
    else [(keys[0], round4(values[0]))] + ZipRound(keys[1..], values[1..], round4)
  }

  /** Lines 110-116: the requested moments, then the entropy, then (continuous only) the fitted parameters. */
  function StatValues(d: Frozen, family: Family, continuous: bool, variates: seq<real>, moments: string)
    : (r: seq<real>)
    ensures |r| == |d.stats(moments)| + 1 + (if continuous then |family.fit(variates)| else 0)
    ensures r[..|d.stats(moments)|] == d.stats(moments)
    ensures r[|d.stats(moments)|] == d.entropy
    ensures continuous ==> r[|d.stats(moments)| + 1..] == family.fit(variates)
  {
    d.stats(moments) + [d.entropy] + (if continuous then family.fit(variates) else [])
  }

  /** Lines 120-124: the secondary option, evaluated on the cumulative values, when enabled. */
  function Secondary(d: Frozen, options: seq<string>, conditional: bool, cdf: seq<real>)
    : (r: Result<(seq<string>, seq<seq<real>>), Error>)
    ensures !conditional ==> r == Ok(([], []))
    ensures conditional ==> (r.Ok? <==> |options| >= 2 && MethodNames.MethodName(options[1]) in d.attributes)
    ensures conditional && r.Ok? ==>
      |options| >= 2 && MethodNames.MethodName(options[1]) in d.attributes &&
      r.value == ([options[1]], [Elementwise(d.attributes[MethodNames.MethodName(options[1])], cdf)])
    ensures conditional && r.Err? ==>
      if |options| < 2 then r.error == MissingOption(1)
      else r.error == UnsupportedOperation(MethodNames.MethodName(options[1]))
  {
    if !conditional then Ok(([], []))
    else
      var second :- OptionAt(options, 1);
      var f :- Attribute(d, MethodNames.MethodName(second));
      Ok(([second], [Elementwise(f, cdf)]))
  }

  /** Everything the call needs in order to return instead of raising. */
  predicate Succeeds(lib: Library, config: Config, req: Request) {
    && !req.params.OtherShape?
    && req.name in lib
    && Freeze(lib[req.name], req.params).Some?
    && req.size >= 0
    && Evaluable(Freeze(lib[req.name], req.params).value, req)
    && |StandardColumns(config, req.continuous)| == 3
  }

  /** The frozen distribution has every attribute the request evaluates, and the options name them. */
  predicate Evaluable(d: Frozen, req: Request) {
    && DensityName(req.continuous) in d.attributes
    && "cdf" in d.attributes
    && |req.options| >= 1
    && MethodNames.MethodName(req.options[0]) in d.attributes
    && (req.conditional ==> |req.options| >= 2 && MethodNames.MethodName(req.options[1]) in d.attributes)
  }

  /** The column labels: the kind's standard labels, then the option label(s) as the user wrote them. */
  function Labels(config: Config, req: Request): (r: seq<string>)
    requires |req.options| >= (if req.conditional then 2 else 1)
    ensures var std := StandardColumns(config, req.continuous);
      && |r| == |std| + (if req.conditional then 2 else 1)
      && r[..|std|] == std
      && r[|std|] == req.options[0]
      && (req.conditional ==> r[|std| + 1] == req.options[1])
  {
    StandardColumns(config, req.continuous) + (if req.conditional then req.options[..2] else req.options[..1])
  }

  /**
   * Lines 100-124: the rows of the array, evaluated in the order the code evaluates them and failing at
   * the first attribute or option that is missing.
   */
  function Columns(d: Frozen, req: Request, n: nat): (r: Result<seq<seq<real>>, Error>)
    ensures r.Ok? <==> Evaluable(d, req)
    ensures r.Ok? ==>
      var a := r.value;
      && |a| == (if req.conditional then 5 else 4)
      && Rectangular(a, n)
      && a[0] == d.rvs(n, req.seed)
      && a[1] == Elementwise(d.attributes[DensityName(req.continuous)], a[0])
      && a[2] == Elementwise(d.attributes["cdf"], a[0])
      && a[3] == Elementwise(d.attributes[MethodNames.MethodName(req.options[0])], a[0])
      && (req.conditional ==> a[4] == Elementwise(d.attributes[MethodNames.MethodName(req.options[1])], a[2]))
  {
    var variates := d.rvs(n, req.seed);
    var density :- Attribute(d, DensityName(req.continuous));
    var cumulative :- Attribute(d, "cdf");
    var cdf := Elementwise(cumulative, variates);
    var first :- OptionAt(req.options, 0);
    var primaryFn :- Attribute(d, MethodNames.MethodName(first));
    var extra :- Secondary(d, req.options, req.conditional, cdf);
    var grid := [variates, Elementwise(density, variates), cdf, Elementwise(primaryFn, variates)] + extra.1;
    assert |extra.1| == (if req.conditional then 1 else 0);
    assert req.conditional ==> grid[4] == extra.1[0];
    assert Rectangular(grid, n);
    Ok(grid)
  }

  /**
   * The whole routine. On success the array's rows are, in order, the variates, the density
   * (continuous) or mass (discrete), the cumulative values, the primary option on the variates
   * and, when enabled, the secondary option on the cumulative values; the table is the array's
   * transpose labelled by `Labels`; the statistics pair `StatKeys` with the rounded values.
   */
  function CreateDistributionDf(lib: Library, config: Config, round4: real -> real, req: Request)
    : (r: Result<DistData, Error>)
    ensures r.Ok? <==> Succeeds(lib, config, req)
    ensures r.Ok? ==>
      var d := Freeze(lib[req.name], req.params).value;
      var n := req.size as nat;
      var a := r.value.distributionArray;
      && |a| == (if req.conditional then 5 else 4)
      && Rectangular(a, n)
      && a[0] == d.rvs(n, req.seed)
      && a[1] == Elementwise(d.attributes[DensityName(req.continuous)], a[0])
      && a[2] == Elementwise(d.attributes["cdf"], a[0])
      && a[3] == Elementwise(d.attributes[MethodNames.MethodName(req.options[0])], a[0])
      && (req.conditional ==> a[4] == Elementwise(d.attributes[MethodNames.MethodName(req.options[1])], a[2]))
      && r.value.table.columns == Labels(config, req)
      && |r.value.table.columns| == |a|
      && r.value.table.rows == Transpose(a, n)
      && r.value.stats == ZipRound(StatKeys, StatValues(d, lib[req.name], req.continuous, a[0], req.moments), round4)
  {
    var d :- Bind(lib, req.name, req.params);
    if req.size < 0 then Err(NegativeSize(req.size))
    else
      var n := req.size as nat;
      var grid :- Columns(d, req, n);
      var labels := Labels(config, req);
      var stats := StatValues(d, lib[req.name], req.continuous, grid[0], req.moments);
      if |labels| != |grid| then Err(ColumnLengthMismatch(|grid|, |labels|))
      else Ok(DistData(grid, Table(labels, Transpose(grid, n)), ZipRound(StatKeys, stats, round4)))
  }

  /** Parameters that are neither a dict nor a list never produce a table, whatever the family name. */
  lemma NotBoundFails(lib: Library, config: Config, round4: real -> real, req: Request)
    requires req.params.OtherShape?
    ensures CreateDistributionDf(lib, config, round4, req) == Err(NotBound)
  {
  }

  /** A bindable parameter set with a name outside the namespace fails as an unknown distribution. */
  lemma UnknownDistributionFails(lib: Library, config: Config, round4: real -> real, req: Request)
    requires !req.params.OtherShape? && req.name !in lib
    ensures CreateDistributionDf(lib, config, round4, req) == Err(UnknownDistribution(req.name))
  {
  }

  /** A negative number of variates fails once the distribution is bound, before anything is evaluated. */
  lemma NegativeSizeFails(lib: Library, config: Config, round4: real -> real, req: Request)
    requires !req.params.OtherShape? && req.name in lib && Freeze(lib[req.name], req.params).Some?
    requires req.size < 0
    ensures CreateDistributionDf(lib, config, round4, req) == Err(NegativeSize(req.size))
  {
  }

  /**
   * The density is chosen by the caller's flag, not by the family: a frozen distribution without
   * the attribute the flag selects (`pmf` of a continuous family, say) fails.
   */
  lemma WrongKindFails(lib: Library, config: Config, round4: real -> real, req: Request)
    requires !req.params.OtherShape? && req.name in lib && Freeze(lib[req.name], req.params).Some?
    requires req.size >= 0
    requires DensityName(req.continuous) !in Freeze(lib[req.name], req.params).value.attributes
    ensures CreateDistributionDf(lib, config, round4, req) == Err(UnsupportedOperation(DensityName(req.continuous)))
  {
  }

  /** Too few option labels: none at all, or only one while the secondary option is enabled. */
  lemma MissingOptionFails(lib: Library, config: Config, round4: real -> real, req: Request)
    requires !req.params.OtherShape? && req.name in lib && Freeze(lib[req.name], req.params).Some?
    requires req.size >= 0
    requires var d := Freeze(lib[req.name], req.params).value;
      DensityName(req.continuous) in d.attributes && "cdf" in d.attributes
    requires req.options == [] ||
      (|req.options| == 1 && req.conditional &&
       MethodNames.MethodName(req.options[0]) in Freeze(lib[req.name], req.params).value.attributes)
    ensures CreateDistributionDf(lib, config, round4, req) == Err(MissingOption(if req.options == [] then 0 else 1))
  {
  }

  /** A primary label that names no attribute fails with the normalised name, after the rest has been set up. */
  lemma UnsupportedPrimaryFails(lib: Library, config: Config, round4: real -> real, req: Request)
    requires !req.params.OtherShape? && req.name in lib && Freeze(lib[req.name], req.params).Some?
    requires req.size >= 0
    requires var d := Freeze(lib[req.name], req.params).value;
      DensityName(req.continuous) in d.attributes && "cdf" in d.attributes &&
      |req.options| >= 1 && MethodNames.MethodName(req.options[0]) !in d.attributes
    ensures CreateDistributionDf(lib, config, round4, req) == Err(UnsupportedOperation(MethodNames.MethodName(req.options[0])))
  {
  }

  /** A secondary label that names no attribute fails with the normalised name once the primary row exists. */
  lemma UnsupportedSecondaryFails(lib: Library, config: Config, round4: real -> real, req: Request)
    requires !req.params.OtherShape? && req.name in lib && Freeze(lib[req.name], req.params).Some?
    requires req.size >= 0
    requires var d := Freeze(lib[req.name], req.params).value;
      DensityName(req.continuous) in d.attributes && "cdf" in d.attributes &&
      |req.options| >= 2 && MethodNames.MethodName(req.options[0]) in d.attributes &&
      req.conditional && MethodNames.MethodName(req.options[1]) !in d.attributes
    ensures CreateDistributionDf(lib, config, round4, req) == Err(UnsupportedOperation(MethodNames.MethodName(req.options[1])))
  {
  }

  /** A known family that refuses the parameters fails before anything is sampled. */
  lemma InvalidParametersFails(lib: Library, config: Config, round4: real -> real, req: Request)
    requires !req.params.OtherShape? && req.name in lib && Freeze(lib[req.name], req.params).None?
    ensures CreateDistributionDf(lib, config, round4, req) == Err(InvalidParameters(req.name))
  {
  }

  /** Standard labels that are not exactly three make the column assignment fail, after every value is computed. */
  lemma ColumnMismatchFails(lib: Library, config: Config, round4: real -> real, req: Request)
    requires !req.params.OtherShape? && req.name in lib && Freeze(lib[req.name], req.params).Some?
    requires req.size >= 0
    requires var d := Freeze(lib[req.name], req.params).value;
      DensityName(req.continuous) in d.attributes && "cdf" in d.attributes &&
      |req.options| >= 1 && MethodNames.MethodName(req.options[0]) in d.attributes &&
      (req.conditional ==> |req.options| >= 2 && MethodNames.MethodName(req.options[1]) in d.attributes)
    requires |StandardColumns(config, req.continuous)| != 3
    ensures var k := if req.conditional then 2 else 1;
      CreateDistributionDf(lib, config, round4, req) ==
        Err(ColumnLengthMismatch(3 + k, |StandardColumns(config, req.continuous)| + k))
  {
  }

  /** The table determines the array: transposing its rows back gives the array. */
  lemma TableRecoversArray(lib: Library, config: Config, round4: real -> real, req: Request)
    requires CreateDistributionDf(lib, config, round4, req).Ok?
    ensures var out := CreateDistributionDf(lib, config, round4, req).value;
      |out.table.rows| == req.size &&
      Transpose(out.table.rows, |out.distributionArray|) == out.distributionArray
  {
    var out := CreateDistributionDf(lib, config, round4, req).value;
    TransposeInvolution(out.distributionArray, req.size as nat);
  }

  /**
   * With the four 'mvsk' moments, a discrete family yields the five keys mean..entropy; a continuous
   * family whose fit returns at least two values yields all seven, and 'loc' and 'scale' hold the first
   * two fitted values (for a family with shape parameters these are shapes, not loc and scale).
   */
  lemma StatsLayout(lib: Library, config: Config, round4: real -> real, req: Request)
    requires CreateDistributionDf(lib, config, round4, req).Ok?
    requires |Freeze(lib[req.name], req.params).value.stats(req.moments)| == 4
    ensures var out := CreateDistributionDf(lib, config, round4, req).value;
      var d := Freeze(lib[req.name], req.params).value;
      var fit := lib[req.name].fit(out.distributionArray[0]);
      && (!req.continuous ==> |out.stats| == 5)
      && (req.continuous && |fit| >= 2 ==>
            |out.stats| == 7 && out.stats[5] == ("loc", round4(fit[0])) && out.stats[6] == ("scale", round4(fit[1])))
      && (forall i :: 0 <= i < |out.stats| ==> out.stats[i].0 == StatKeys[i])
      && (forall i :: 0 <= i < |out.stats| && i < 4 ==> out.stats[i].1 == round4(d.stats(req.moments)[i]))
      && out.stats[4] == ("entropy", round4(d.entropy))
  {
  }
}
