/** Weighted-index aggregation (`calculateWeightedIndex`): the renormalised
    weighted mean of current/baseline ratios over the usable indices. */
module WeightedIndex {
  import opened Wrappers
  import opened Trace

  /** One index of the configuration; `None` stands for a field that is
      absent or does not parse as a number. */
  datatype IndexEntry = IndexEntry(currentValue: Option<real>, baselineValue: Option<real>,
                                   weightPercentage: Option<real>)

  /** `indexConfig` in the order `for…in` visits it; an entry that is null
      or undefined is `None`. */
  type IndexConfig = seq<(string, Option<IndexEntry>)>

  /** An index takes part iff it is present, its weight is positive, and both
      values are present with a positive baseline. */
  predicate Usable(entry: Option<IndexEntry>)
  {
    && entry.Some?
    && entry.value.weightPercentage.Some? && entry.value.weightPercentage.value > 0.0
    && entry.value.currentValue.Some?
    && entry.value.baselineValue.Some? && entry.value.baselineValue.value > 0.0
  }

  /** current / baseline of a usable index. */
  function Ratio(entry: Option<IndexEntry>): real
    requires Usable(entry)
  {
    entry.value.currentValue.value / entry.value.baselineValue.value
  }

  /** The weight of a usable index as a fraction (percentage / 100). */
  function Fraction(entry: Option<IndexEntry>): (f: real)
    requires Usable(entry)
    ensures f > 0.0
  {
    entry.value.weightPercentage.value / 100.0
  }

  /** What one entry adds to the weighted sum. */
  function Contribution(entry: Option<IndexEntry>): real
  {
    if Usable(entry) then Fraction(entry) * Ratio(entry) else 0.0
  }

  /** What one entry adds to the total weight. */
  function WeightOf(entry: Option<IndexEntry>): real
  {
    if Usable(entry) then Fraction(entry) else 0.0
  }

  /** Σ fraction · ratio over the usable entries. */
  function WeightedSum(config: IndexConfig): real
  {
    if config == [] then 0.0
    else
      WeightedSum(config[..|config| - 1]) + Contribution(config[|config| - 1].1)
  }

  /** Σ fraction over the usable entries. */
  function TotalWeight(config: IndexConfig): (t: real)
    ensures t >= 0.0
  {
    if config == [] then 0.0
    else
      TotalWeight(config[..|config| - 1]) + WeightOf(config[|config| - 1].1)
  }

  /** The names of the usable entries, in iteration order. */
  function Sources(config: IndexConfig): seq<string>
  {
    if config == [] then []
    else
      var (name, last) := config[|config| - 1];
      Sources(config[..|config| - 1]) + (if Usable(last) then [name] else [])
  }

  /** What the step records for each entry, in iteration order. */
  function Outcomes(config: IndexConfig): (outcomes: seq<(string, IndexOutcome)>)
    ensures |outcomes| == |config|
    ensures forall i :: 0 <= i < |config| ==> outcomes[i].0 == config[i].0
    ensures forall i :: 0 <= i < |config| ==> (outcomes[i].1.Used? <==> Usable(config[i].1))
  {
    if config == [] then []
    else
      var (name, last) := config[|config| - 1];
      Outcomes(config[..|config| - 1]) + [(name, if Usable(last) then Used(Ratio(last)) else Skipped)]
  }

  /** The weighted index of a non-empty configuration: the renormalised
      weighted sum, or the neutral 1.0 when no weight was used. */
  function IndexValue(config: IndexConfig): real
  {
    if TotalWeight(config) > 0.0 then WeightedSum(config) / TotalWeight(config) else 1.0
  }

  datatype WeightedIndexResult = WeightedIndexResult(value: real, sources: seq<string>)

  /** The result of `calculateWeightedIndex` for a possibly missing
      configuration. */
  function RequestedIndex(indexConfig: Option<IndexConfig>): (r: WeightedIndexResult)
    ensures indexConfig.None? || Sources(indexConfig.value) == [] ==> r == WeightedIndexResult(1.0, [])
    ensures indexConfig.Some? ==> r.sources == Sources(indexConfig.value)
  {
    match indexConfig
    case None => WeightedIndexResult(1.0, [])
    case Some(config) =>
      WeightedIndexPositiveIffSources(config);
      WeightedIndexResult(IndexValue(config), Sources(config))
  }

  /** The record `calculateWeightedIndex` appends: `Warning` for a missing or
      empty configuration or when every entry was skipped. */
  function IndexRecord(indexConfig: Option<IndexConfig>): (step: Step)
    ensures step.WeightedIndexStep?
    ensures step.indexValue == RequestedIndex(indexConfig).value
    ensures step.status == Success <==> RequestedIndex(indexConfig).sources != []
    ensures step.status == Success || step.status == Warning
  {
    if indexConfig.None? || indexConfig.value == [] then
      WeightedIndexStep([], 0.0, 0.0, 1.0, Warning)
    else
      var config := indexConfig.value;
      WeightedIndexPositiveIffSources(config);
      WeightedIndexStep(Outcomes(config), WeightedSum(config), TotalWeight(config), IndexValue(config),
                        if TotalWeight(config) > 0.0 then Success else Warning)
  }

  // Facts about real arithmetic the proofs below use.

  lemma DivCancel(s: real, t: real, k: real)
    requires t != 0.0 && k != 0.0
    ensures (k * s) / (k * t) == s / t
  {
    var q := s / t;
    assert s == q * t;
    assert k * s == q * (k * t);
  }
  /** `s` lies between `lo · t` and `hi · t`. */
  ghost predicate ScaledBetween(lo: real, hi: real, t: real, s: real)
  {
    lo * t <= s <= hi * t
  }

  lemma DivBetween(s: real, t: real, lo: real, hi: real)
    requires t > 0.0 && ScaledBetween(lo, hi, t, s)
    ensures lo <= s / t <= hi
  {
    var q := s / t;
    assert s == q * t;
  }
  lemma AddBetween(lo: real, hi: real, t: real, s: real, f: real, r: real)
    requires ScaledBetween(lo, hi, t, s) && f > 0.0 && lo <= r <= hi
    ensures ScaledBetween(lo, hi, t + f, s + f * r)
  {
    assert f * lo <= f * r <= f * hi;
  }

  /** Some weight was used exactly when some index was usable. */
  lemma {:induction false} WeightedIndexPositiveIffSources(config: IndexConfig)
    ensures TotalWeight(config) > 0.0 <==> Sources(config) != []
    decreases |config|
  {
    if config != [] {
      WeightedIndexPositiveIffSources(config[..|config| - 1]);
    }
  }

  /** The sources are exactly the names of the usable entries. */
  lemma {:induction false} SourcesAreUsableNames(config: IndexConfig, name: string)
    ensures name in Sources(config) <==> exists i :: 0 <= i < |config| && config[i].0 == name && Usable(config[i].1)
    decreases |config|
  {
    if config != [] {
      var front := config[..|config| - 1];
      SourcesAreUsableNames(front, name);
      if exists i :: 0 <= i < |config| && config[i].0 == name && Usable(config[i].1) {
        var i :| 0 <= i < |config| && config[i].0 == name && Usable(config[i].1);
        if i < |front| {
          assert front[i] == config[i];
        }
      }
      if exists i :: 0 <= i < |front| && front[i].0 == name && Usable(front[i].1) {
        var i :| 0 <= i < |front| && front[i].0 == name && Usable(front[i].1);
        assert config[i] == front[i];
      }
    }
  }

  /** The aggregation is a fold in iteration order: a configuration split in
      two sums (and lists its sources) part by part. */
  lemma {:induction false} AggregationSplits(front: IndexConfig, back: IndexConfig)
    ensures WeightedSum(front + back) == WeightedSum(front) + WeightedSum(back)
    ensures TotalWeight(front + back) == TotalWeight(front) + TotalWeight(back)
    ensures Sources(front + back) == Sources(front) + Sources(back)
    decreases |back|
  {
    if back == [] {
      assert front + back == front;
    } else {
      var all := front + back;
      var shorter := back[..|back| - 1];
      assert all[..|all| - 1] == front + shorter;
      assert all[|all| - 1] == back[|back| - 1];
      AggregationSplits(front, shorter);
    }
  }

  /** lo · total ≤ sum ≤ hi · total when every usable ratio is in [lo, hi]. */
  lemma {:induction false} WeightedSumBetween(config: IndexConfig, lo: real, hi: real)
    requires forall i :: 0 <= i < |config| && Usable(config[i].1) ==> lo <= Ratio(config[i].1) <= hi
    ensures ScaledBetween(lo, hi, TotalWeight(config), WeightedSum(config))
    decreases |config|
  {
    if config != [] {
      var front := config[..|config| - 1];
      var last := config[|config| - 1].1;
      forall i | 0 <= i < |front| && Usable(front[i].1) ensures lo <= Ratio(front[i].1) <= hi {
        assert front[i] == config[i];
      }
      WeightedSumBetween(front, lo, hi);
      var t, s := TotalWeight(front), WeightedSum(front);
      if Usable(last) {
        var f, r := Fraction(last), Ratio(last);
        assert lo <= r <= hi;
        AddBetween(lo, hi, t, s, f, r);
        assert Contribution(last) == f * r;
        assert WeightedSum(config) == s + f * r;
        assert TotalWeight(config) == t + f;
      } else {
        assert WeightedSum(config) == s;
        assert TotalWeight(config) == t;
      }
    }
  }

  /** The weighted index is a weighted mean: it lies between the smallest
      and the largest ratio of the indices it used. */
  lemma IndexValueBetween(config: IndexConfig, lo: real, hi: real)
    requires Sources(config) != []
    requires forall i :: 0 <= i < |config| && Usable(config[i].1) ==> lo <= Ratio(config[i].1) <= hi
    ensures lo <= IndexValue(config) <= hi
  {
    WeightedIndexPositiveIffSources(config);
    WeightedSumBetween(config, lo, hi);
    DivBetween(WeightedSum(config), TotalWeight(config), lo, hi);
  }

  /** Indices that all stand at their baseline give the neutral 1.0. */
  lemma IndicesAtBaselineAreNeutral(config: IndexConfig)
    requires forall i :: 0 <= i < |config| && Usable(config[i].1) ==>
               config[i].1.value.currentValue == config[i].1.value.baselineValue
    ensures IndexValue(config) == 1.0
  {
    if Sources(config) != [] {
      IndexValueBetween(config, 1.0, 1.0);
    } else {
      WeightedIndexPositiveIffSources(config);
    }
  }

  /** One entry with its weight, if present, multiplied by `k`. */
  function ScaleEntry(item: (string, Option<IndexEntry>), k: real): (string, Option<IndexEntry>)
  {
    (item.0,
     match item.1
     case None => None
     case Some(e) =>
       Some(IndexEntry(e.currentValue, e.baselineValue,
                       match e.weightPercentage
                       case None => None
                       case Some(w) => Some(k * w))))
  }

  /** Every present weight multiplied by `k`. */
  function ScaleWeights(config: IndexConfig, k: real): (scaled: IndexConfig)
    ensures |scaled| == |config|
  {
    if config == [] then []
    else ScaleWeights(config[..|config| - 1], k) + [ScaleEntry(config[|config| - 1], k)]
  }

  /** `y` is `k · x`. */
  ghost predicate ScaledBy(k: real, x: real, y: real)
  {
    y == k * x
  }

  lemma AddScaled(k: real, a: real, b: real, sa: real, sb: real)
    requires ScaledBy(k, a, sa) && ScaledBy(k, b, sb)
    ensures ScaledBy(k, a + b, sa + sb)
  {
  }

  /** Scaling a quotient's both sides by `k` keeps it and the sign of its divisor. */
  lemma ScaledQuotient(k: real, s: real, t: real, ks: real, kt: real)
    requires k > 0.0 && ScaledBy(k, s, ks) && ScaledBy(k, t, kt)
    ensures kt > 0.0 <==> t > 0.0
    ensures t != 0.0 ==> ks / kt == s / t
  {
    if t != 0.0 {
      DivCancel(s, t, k);
    }
  }

  /** Scaling one entry's weight keeps its usability and its ratio and
      scales what it adds to both sums. */
  lemma ScaledEntry(item: (string, Option<IndexEntry>), k: real)
    requires k > 0.0
    ensures var scaled := ScaleEntry(item, k).1;
      && (Usable(scaled) <==> Usable(item.1))
      && ScaledBy(k, WeightOf(item.1), WeightOf(scaled))
      && ScaledBy(k, Contribution(item.1), Contribution(scaled))
  {
    var entry, scaled := item.1, ScaleEntry(item, k).1;
    if entry.Some? && entry.value.weightPercentage.Some? {
      var w := entry.value.weightPercentage.value;
      assert w > 0.0 <==> k * w > 0.0;
    }
    if Usable(entry) {
      var f, r := Fraction(entry), Ratio(entry);
      assert Ratio(scaled) == r;
      assert Fraction(scaled) == k * f;
      assert (k * f) * r == k * (f * r);
    }
  }

  /** Scaling all weights by the same positive factor scales both sums by
      that factor and keeps the sources. */
  lemma {:induction false} ScaledSums(config: IndexConfig, k: real)
    requires k > 0.0
    ensures ScaledBy(k, WeightedSum(config), WeightedSum(ScaleWeights(config, k)))
    ensures ScaledBy(k, TotalWeight(config), TotalWeight(ScaleWeights(config, k)))
    ensures Sources(ScaleWeights(config, k)) == Sources(config)
    decreases |config|
  {
    if config != [] {
      var n := |config|;
      var front, scaled := config[..n - 1], ScaleWeights(config, k);
      assert scaled[..n - 1] == ScaleWeights(front, k);
      assert scaled[n - 1] == ScaleEntry(config[n - 1], k);
      ScaledSums(front, k);
      ScaledEntry(config[n - 1], k);
      AddScaled(k, WeightedSum(front), Contribution(config[n - 1].1),
                WeightedSum(scaled[..n - 1]), Contribution(scaled[n - 1].1));
      AddScaled(k, TotalWeight(front), WeightOf(config[n - 1].1),
                TotalWeight(scaled[..n - 1]), WeightOf(scaled[n - 1].1));
    }
  }

  /** Renormalisation: the weights need not sum to 100 %; only their
      proportions matter. */
  lemma WeightsNeedNotSumToHundred(config: IndexConfig, k: real)
    requires k > 0.0
    ensures IndexValue(ScaleWeights(config, k)) == IndexValue(config)
    ensures Sources(ScaleWeights(config, k)) == Sources(config)
  {
    var scaled := ScaleWeights(config, k);
    ScaledSums(config, k);
    ScaledQuotient(k, WeightedSum(config), TotalWeight(config), WeightedSum(scaled), TotalWeight(scaled));
  }

  /** The commented example: SCFI 1100/1000 and FBX 1300/1200 at 50 % each. */
  const ExampleConfig: IndexConfig :=
    [("SCFI", Some(IndexEntry(Some(1100.0), Some(1000.0), Some(50.0)))),
     ("FBX", Some(IndexEntry(Some(1300.0), Some(1200.0), Some(50.0))))]

  /** It gives 0.5 · 1100/1000 + 0.5 · 1300/1200 = 131/120, from both indices. */
  lemma ExampleIndex()
    ensures IndexValue(ExampleConfig) == 0.5 * (1100.0 / 1000.0) + 0.5 * (1300.0 / 1200.0)
    ensures IndexValue(ExampleConfig) == 131.0 / 120.0
    ensures Sources(ExampleConfig) == ["SCFI", "FBX"]
  {
    var c := ExampleConfig;
    var first := c[..1];
    assert first[..0] == [];
    assert c[..|c| - 1] == first;
    assert Usable(c[0].1) && Usable(c[1].1);
    assert Ratio(c[0].1) == 1100.0 / 1000.0 && Fraction(c[0].1) == 0.5;
    assert Ratio(c[1].1) == 1300.0 / 1200.0 && Fraction(c[1].1) == 0.5;
    assert WeightedSum(first) == 0.5 * (1100.0 / 1000.0);
    assert TotalWeight(first) == 0.5;
    assert Sources(first) == ["SCFI"];
    assert TotalWeight(c) == 1.0;
  }

  /** Extending a prefix by one entry adds that entry's share to each
      aggregate. */
  lemma PrefixStep(config: IndexConfig, i: nat)
    requires i < |config|
    ensures WeightedSum(config[..i + 1]) == WeightedSum(config[..i]) + Contribution(config[i].1)
    ensures TotalWeight(config[..i + 1]) == TotalWeight(config[..i]) + WeightOf(config[i].1)
    ensures Sources(config[..i + 1]) == Sources(config[..i]) + (if Usable(config[i].1) then [config[i].0] else [])
    ensures Outcomes(config[..i + 1]) ==
            Outcomes(config[..i]) + [(config[i].0, if Usable(config[i].1) then Used(Ratio(config[i].1)) else Skipped)]
  {
    assert config[..i + 1][..i] == config[..i];
  }

  /** The loop of `calculateWeightedIndex`: visit the entries in order,
      skip the unusable ones, and accumulate the weighted sum, the weight used,
      the sources and what is recorded per entry. */
  method AggregateIndices(config: IndexConfig)
    returns (weightedSum: real, totalWeightUsed: real, sourcesUsed: seq<string>,
             inputs: seq<(string, IndexOutcome)>)
    ensures weightedSum == WeightedSum(config) && totalWeightUsed == TotalWeight(config)
    ensures sourcesUsed == Sources(config) && inputs == Outcomes(config)
  {
    weightedSum, totalWeightUsed := 0.0, 0.0;
    sourcesUsed, inputs := [], [];
    for i := 0 to |config|
      invariant weightedSum == WeightedSum(config[..i])
      invariant totalWeightUsed == TotalWeight(config[..i])
      invariant sourcesUsed == Sources(config[..i])
      invariant inputs == Outcomes(config[..i])
    {
      var (name, entry) := config[i];
      PrefixStep(config, i);
      if entry.None? || (entry.value.weightPercentage.Some? && entry.value.weightPercentage.value <= 0.0)
         || entry.value.baselineValue.None? || entry.value.currentValue.None? {
        inputs := inputs + [(name, Skipped)];
        continue;
      }
      var current, baseline := entry.value.currentValue.value, entry.value.baselineValue.value;
      if baseline > 0.0 && entry.value.weightPercentage.Some? {
        var weight := entry.value.weightPercentage.value / 100.0;
        var ratio := current / baseline;
        weightedSum := weightedSum + weight * ratio;
        totalWeightUsed := totalWeightUsed + weight;
        inputs := inputs + [(name, Used(ratio))];
        sourcesUsed := sourcesUsed + [name];
      } else {
        inputs := inputs + [(name, Skipped)];
      }
    }
    assert config[..|config|] == config;
  }

  /** `calculateWeightedIndex`: a missing or empty configuration gives the
      neutral 1.0; otherwise aggregate, renormalise, and append one record. */
  method CalculateWeightedIndex(indexConfig: Option<IndexConfig>, log: DebugLog)
    returns (result: WeightedIndexResult)
    modifies log
    ensures result == RequestedIndex(indexConfig)
    ensures log.steps == old(log.steps) + [IndexRecord(indexConfig)]
  {
    if indexConfig.None? || |indexConfig.value| == 0 {
      log.Push(WeightedIndexStep([], 0.0, 0.0, 1.0, Warning));
      return WeightedIndexResult(1.0, []);
    }
    var config := indexConfig.value;
    var weightedSum, totalWeightUsed, sourcesUsed, inputs := AggregateIndices(config);
    var value := 1.0;
    var status := Warning;
    if totalWeightUsed > 0.0 {
      value := weightedSum / totalWeightUsed;
      status := Success;
    }
    log.Push(WeightedIndexStep(inputs, weightedSum, totalWeightUsed, value, status));
    WeightedIndexPositiveIffSources(config);
    result := WeightedIndexResult(value, sourcesUsed);
  }
}
