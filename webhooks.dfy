/** The client's side of the diagnosis: its own Data Quality Score over the
    raw form record, the configuration that score is weighed by, and the gate
    that picks the language model a diagnosis is processed with. */
module Webhooks {
  import opened Wrappers
  import opened Js
  import opened Plans

  /** The weight of each dimension of the score, as fractions of 1. */
  datatype DqsWeights = DqsWeights(
    accuracy: real,
    completeness: real,
    consistency: real,
    timeliness: real,
    validity: real)

  /** `DQS_CONFIG`: the least score processed, and the weights. */
  datatype DqsConfig = DqsConfig(threshold: int, weights: DqsWeights)

  const DqsSettings: DqsConfig := DqsConfig(70, DqsWeights(0.30, 0.25, 0.20, 0.15, 0.10))

  /** The weights split the whole score: they are positive and add up to 1. */
  lemma WeightsSumToOne()
    ensures var w := DqsSettings.weights;
      && w.accuracy > 0.0 && w.completeness > 0.0 && w.consistency > 0.0
      && w.timeliness > 0.0 && w.validity > 0.0
      && w.accuracy + w.completeness + w.consistency + w.timeliness + w.validity == 1.0
  {
  }

  /** An entry of `AI_MODELS`. */
  datatype AiModel = AiModel(provider: string, model: string, maxTokens: nat)

  const FreeModel: AiModel := AiModel("perplexity", "pplx-7b-online", 1000)
  const ProModel: AiModel := AiModel("openai", "gpt-4-turbo", 2000)

  /** A `Record<string, any>`: the form's own keys and their values. */
  type Record = map<string, JsValue>

  /** `data.key`: the value, or `undefined` for a key the record lacks. */
  function Get(data: Record, key: string): JsValue {
    if key in data then data[key] else Undefined
  }

  /** The keys whose value is truthy: what `Object.values(data).filter((v) => v)` keeps. */
  function TruthyKeys(data: Record): (keys: set<string>)
    ensures keys <= data.Keys
    ensures |keys| <= |data|
    ensures forall k :: k in keys <==> k in data && Truthy(data[k])
  {
    var keys := set k | k in data && Truthy(data[k]);
    SubsetSize(keys, data.Keys);
    keys
  }

  /** What `calculateDQS` returns: a whole number, or NaN for a record with
      no keys (the completeness ratio is then 0 / 0). */
  datatype Score = NotANumber | Points(points: int)

  /** `data.empresa && data.rol`, as the accuracy check reads it. */
  predicate AccuracyHolds(data: Record) {
    Truthy(Get(data, "empresa")) && Truthy(Get(data, "rol"))
  }

  /** `data.horas >= 1 && data.horas <= 40`, with JavaScript's conversion of
      `horas` to a number; NaN fails both comparisons. */
  predicate ValidityHolds(data: Record) {
    var horas := ToNumber(Get(data, "horas"));
    horas.Some? && 1.0 <= horas.value && horas.value <= 40.0
  }

  /** The unrounded score of a non-empty record, out of 100. */
  function Unrounded(accuracy: bool, validity: bool, truthy: nat, keys: nat): (x: real)
    requires 0 < keys
  {
    var w := DqsSettings.weights;
    var dqs :=
      (if accuracy then 1.0 else 0.0) * w.accuracy
      + (truthy as real / keys as real) * w.completeness
      + 1.0 * w.consistency
      + 1.0 * w.timeliness
      + (if validity then 1.0 else 0.0) * w.validity;
    dqs * 100.0
  }

  /** `calculateDQS(data)`: accuracy is 1 when `empresa` and `rol` are
      truthy, completeness the share of truthy values, consistency and
      timeliness fixed at 1, validity 1 when `horas` lies in [1, 40]; the
      weighted sum is rounded to a whole number out of 100. */
  function CalculateDqs(data: Record): (score: Score)
    ensures score.NotANumber? <==> |data| == 0
    ensures score.Points? ==> 35 <= score.points <= 100
  {
    if |data| == 0 then NotANumber
    else
      var x := Unrounded(AccuracyHolds(data), ValidityHolds(data), |TruthyKeys(data)|, |data|);
      UnroundedBounds(AccuracyHolds(data), ValidityHolds(data), |TruthyKeys(data)|, |data|);
      Points(Round(x))
  }

  /** Over a record whose share of truthy values is at most 1, the unrounded
      score lies in [35, 100]. */
  lemma UnroundedBounds(accuracy: bool, validity: bool, truthy: nat, keys: nat)
    requires 0 < keys
    requires truthy <= keys
    ensures 35.0 <= Unrounded(accuracy, validity, truthy, keys) <= 100.0
    ensures 35 <= Round(Unrounded(accuracy, validity, truthy, keys)) <= 100
  {
    RatioAtMostOne(truthy, keys);
  }

  /** A subset is no larger than its superset. */
  lemma SubsetSize<T>(a: set<T>, b: set<T>)
    requires a <= b
    ensures |a| <= |b|
  {
    assert b == a + (b - a);
  }

  lemma RatioAtMostOne(truthy: nat, keys: nat)
    requires 0 < keys && truthy <= keys
    ensures 0.0 <= truthy as real / keys as real <= 1.0
  {
    assert truthy as real / keys as real * keys as real == truthy as real;
  }

  /** The score in whole points, computed with integers only: 35 points for
      consistency and timeliness, 30 for accuracy, 10 for validity, and 25
      times the share of truthy values rounded half up. */
  function ClosedForm(accuracy: bool, validity: bool, truthy: nat, keys: nat): int
    requires 0 < keys
  {
    35 + (if accuracy then 30 else 0) + (if validity then 10 else 0) + (50 * truthy + keys) / (2 * keys)
  }

  /** `a / b` on reals, rounded down, is the integer quotient. */
  lemma FloorOfQuotient(a: nat, b: nat)
    requires 0 < b
    ensures (a as real / b as real).Floor == a / b
  {
    var q, r := a / b, a % b;
    assert a == q * b + r;
    assert a as real / b as real == q as real + r as real / b as real;
    assert 0.0 <= r as real / b as real < 1.0 by {
      assert r as real / b as real * b as real == r as real;
    }
  }

  /** Dividing out a positive factor. */
  lemma CancelPositive(x: real, y: real, c: real)
    requires c > 0.0 && x * c == y * c
    ensures x == y
  {
    assert (x - y) * c == 0.0;
  }

  /** The share `truthy / keys` compared with a constant `c`, without division. */
  lemma RatioCompare(truthy: nat, keys: nat, c: real)
    requires 0 < keys
    ensures truthy as real / keys as real >= c <==> truthy as real >= c * keys as real
  {
    var r := truthy as real / keys as real;
    assert r * keys as real == truthy as real;
    if r >= c {
      assert (r - c) * keys as real >= 0.0;
    } else {
      assert (c - r) * keys as real > 0.0;
    }
  }

  /** Rounding the share half up, with integers. */
  lemma HalfShare(truthy: nat, keys: nat)
    requires 0 < keys
    ensures (50 * truthy + keys) as real / (2 * keys) as real == 25.0 * (truthy as real / keys as real) + 0.5
  {
    var r := truthy as real / keys as real;
    var h := (50 * truthy + keys) as real / (2 * keys) as real;
    assert r * keys as real == truthy as real;
    assert h * (2 * keys) as real == (50 * truthy + keys) as real;
    assert (25.0 * r + 0.5) * (2 * keys) as real == (50 * truthy + keys) as real;
    CancelPositive(h, 25.0 * r + 0.5, (2 * keys) as real);
  }

  /** The unrounded score, term by term. */
  lemma UnroundedTerms(accuracy: bool, validity: bool, truthy: nat, keys: nat)
    requires 0 < keys
    ensures Unrounded(accuracy, validity, truthy, keys)
         == (35 + (if accuracy then 30 else 0) + (if validity then 10 else 0)) as real
            + 25.0 * (truthy as real / keys as real)
  {
  }

  /** The floating-point rubric and the integer one agree on every record
      that has a key. */
  lemma UnroundedMatchesClosedForm(accuracy: bool, validity: bool, truthy: nat, keys: nat)
    requires 0 < keys
    ensures Round(Unrounded(accuracy, validity, truthy, keys)) == ClosedForm(accuracy, validity, truthy, keys)
  {
    var base := 35 + (if accuracy then 30 else 0) + (if validity then 10 else 0);
    var half := (50 * truthy + keys) as real / (2 * keys) as real;
    UnroundedTerms(accuracy, validity, truthy, keys);
    HalfShare(truthy, keys);
    FloorOfQuotient(50 * truthy + keys, 2 * keys);
    assert (base as real + half).Floor == base + half.Floor;
  }

  /** `calculateDQS` equals the integer rubric on every non-empty record. */
  lemma CalculateDqsClosedForm(data: Record)
    requires |data| > 0
    ensures CalculateDqs(data)
         == Points(ClosedForm(AccuracyHolds(data), ValidityHolds(data), |TruthyKeys(data)|, |data|))
  {
    UnroundedMatchesClosedForm(AccuracyHolds(data), ValidityHolds(data), |TruthyKeys(data)|, |data|);
  }

  lemma NonPositiveFactor(x: real, c: real)
    requires c > 0.0 && x * c <= 0.0
    ensures x <= 0.0
  {
  }

  /** Comparing two quotients by cross-multiplying. */
  lemma RatioLe(p: real, q: real, p': real, q': real)
    requires q > 0.0 && q' > 0.0 && p * q' <= p' * q
    ensures p / q <= p' / q'
  {
    var a, b := p / q, p' / q';
    assert a * q == p;
    assert b * q' == p';
    assert (a - b) * (q * q') == (a * q) * q' - (b * q') * q;
    NonPositiveFactor(a - b, q * q');
  }

  /** One more truthy value, over the same or one more key, raises the share. */
  lemma ShareGrows(t: nat, k: nat, k': nat)
    requires 0 < k && t <= k
    requires k' == k || k' == k + 1
    ensures t as real / k as real <= (t + 1) as real / k' as real
  {
    assert t as real * k' as real <= (t + 1) as real * k as real;
    RatioLe(t as real, k as real, (t + 1) as real, k' as real);
  }

  /** Setting `key` to a truthy value keeps `empresa && rol` if it held. */
  lemma AccuracyKept(data: Record, key: string, v: JsValue)
    requires Truthy(v)
    ensures AccuracyHolds(data) ==> AccuracyHolds(data[key := v])
  {
  }

  /** Setting a falsy or missing `key` to a truthy value keeps `horas` valid
      if it was: a falsy `horas` converts to 0 or NaN, which is never valid. */
  lemma ValidityKept(data: Record, key: string, v: JsValue)
    requires key !in data || !Truthy(data[key])
    ensures ValidityHolds(data) ==> ValidityHolds(data[key := v])
  {
    if key == "horas" {
      FalsyIsZeroOrNaN(Get(data, "horas"));
    } else {
      assert Get(data[key := v], "horas") == Get(data, "horas");
    }
  }

  /** Setting a falsy or missing `key` to a truthy value adds `key` to the
      truthy keys, and adds it to the keys when it was missing. */
  lemma TruthyKeysGrow(data: Record, key: string, v: JsValue)
    requires key !in data || !Truthy(data[key])
    requires Truthy(v)
    ensures |TruthyKeys(data[key := v])| == |TruthyKeys(data)| + 1
    ensures |data[key := v]| == if key in data then |data| else |data| + 1
  {
    assert TruthyKeys(data[key := v]) == TruthyKeys(data) + {key};
    assert key !in TruthyKeys(data);
    assert data[key := v].Keys == data.Keys + {key};
  }

  /** Turning a falsy value truthy, or adding a key with a truthy value,
      never lowers the score: accuracy cannot fall, validity cannot fall,
      and the truthy share cannot fall. */
  lemma MoreTruthyNeverLowers(data: Record, key: string, v: JsValue)
    requires key !in data || !Truthy(data[key])
    requires Truthy(v)
    ensures CalculateDqs(data[key := v]).Points?
    ensures CalculateDqs(data).Points? ==> CalculateDqs(data).points <= CalculateDqs(data[key := v]).points
  {
    var data' := data[key := v];
    assert key in data';
    if |data| > 0 {
      var a, a' := AccuracyHolds(data), AccuracyHolds(data');
      var h, h' := ValidityHolds(data), ValidityHolds(data');
      var t, k := |TruthyKeys(data)|, |data|;
      var t', k' := |TruthyKeys(data')|, |data'|;
      AccuracyKept(data, key, v);
      ValidityKept(data, key, v);
      TruthyKeysGrow(data, key, v);
      ShareGrows(t, k, k');
      UnroundedTerms(a, h, t, k);
      UnroundedTerms(a', h', t', k');
      RoundMonotone(Unrounded(a, h, t, k), Unrounded(a', h', t', k'));
    }
  }

  /** A record whose every value is truthy, with `empresa` and `rol` among its
      keys and `horas` in [1, 40], scores 100. */
  lemma AllTruthyScoresFull(data: Record)
    requires forall k :: k in data ==> Truthy(data[k])
    requires "empresa" in data && "rol" in data
    requires ValidityHolds(data)
    ensures CalculateDqs(data) == Points(100)
  {
    assert TruthyKeys(data) == data.Keys;
    var k := |data|;
    assert k as real / k as real == 1.0;
    UnroundedTerms(true, true, k, k);
  }

  /** `selectAIModel(plan, dqsScore)`: nothing (processing is blocked) for a
      score below the threshold, otherwise the pro plan's model or the free
      one. NaN is not below anything, so it is not blocked. */
  function SelectAiModel(plan: Plan, dqsScore: Score): (model: Option<AiModel>)
    ensures model.None? <==> dqsScore.Points? && dqsScore.points < DqsSettings.threshold
    ensures model.Some? ==> model.value == if plan == Pro then ProModel else FreeModel
    ensures model.Some? ==> (model.value.provider == "openai" <==> plan == Pro)
    ensures model.Some? ==> model.value.maxTokens == if plan == Pro then 2000 else 1000
  {
    if dqsScore.Points? && dqsScore.points < DqsSettings.threshold then None
    else if plan == Pro then Some(ProModel)
    else Some(FreeModel)
  }

  /** Without `empresa` and `rol` a record scores at most 70, and with them
      at least 65; without them the gate opens exactly when `horas` is valid
      and at least 98% of the values are truthy. */
  lemma AccuracyAndTheGate(data: Record, plan: Plan)
    requires |data| > 0
    ensures !AccuracyHolds(data) ==> CalculateDqs(data).points <= 70
    ensures AccuracyHolds(data) ==> CalculateDqs(data).points >= 65
    ensures !AccuracyHolds(data) ==>
      (SelectAiModel(plan, CalculateDqs(data)).Some? <==> ValidityHolds(data) && 50 * |TruthyKeys(data)| >= 49 * |data|)
  {
    var a, h, t, k := AccuracyHolds(data), ValidityHolds(data), |TruthyKeys(data)|, |data|;
    RatioAtMostOne(t, k);
    UnroundedTerms(a, h, t, k);
    RatioCompare(t, k, 0.98);
  }

  /** An empty record scores NaN, and NaN passes the gate: the model is
      selected for a record that carries no data at all. */
  lemma EmptyRecordPassesGate(plan: Plan)
    ensures CalculateDqs(map[]) == NotANumber
    ensures SelectAiModel(plan, CalculateDqs(map[])).Some?
  {
  }

  /** The gate as its comment intends it: processing is allowed only for a
      score that is a number at or above the threshold. */
  function SelectAiModelChecked(plan: Plan, dqsScore: Score): (model: Option<AiModel>)
    ensures model.Some? <==> dqsScore.Points? && dqsScore.points >= DqsSettings.threshold
    ensures model.Some? ==> model.value == if plan == Pro then ProModel else FreeModel
  {
    if dqsScore.NotANumber? then None else SelectAiModel(plan, dqsScore)
  }

  /** With the checked gate an empty record is blocked, and on every record
      that scores a number both gates agree. */
  lemma CheckedGateBlocksEmptyRecord(plan: Plan, data: Record)
    ensures SelectAiModelChecked(plan, CalculateDqs(map[])).None?
    ensures |data| > 0 ==> SelectAiModelChecked(plan, CalculateDqs(data)) == SelectAiModel(plan, CalculateDqs(data))
  {
  }
}
