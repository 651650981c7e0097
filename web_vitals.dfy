/** The web-vitals monitoring service: rating a measurement against its thresholds, the
    rounded average score over the recorded metrics, and the shared registry of metrics and
    listeners. Measurements are reals; a listener is identified by a number, standing for the
    callback's identity. */
module WebVitals {
  import opened Common

  datatype Vital = CLS | FID | FCP | LCP | TTFB

  /** The keys of the metrics record: the five vitals and three descriptive fields. */
  datatype MetricKey = Metric(vital: Vital) | Timestamp | Url | UserAgent

  datatype Thresholds = Thresholds(good: real, needsImprovement: real)

  datatype Rating = Good | NeedsImprovement | Poor

  /** The recommended thresholds per vital; every pair is positive and strictly ordered. */
  function ThresholdsOf(v: Vital): (t: Thresholds)
    ensures 0.0 < t.good < t.needsImprovement
  {
    match v
    case CLS => Thresholds(0.1, 0.25)
    case FID => Thresholds(100.0, 300.0)
    case FCP => Thresholds(1800.0, 3000.0)
    case LCP => Thresholds(2500.0, 4000.0)
    case TTFB => Thresholds(800.0, 1800.0)
  }

  /** `getPerformanceScore`: good up to the first threshold inclusive, needs improvement up
      to the second inclusive, poor above. */
  function Rate(v: Vital, value: real): (r: Rating)
    ensures r == Good <==> value <= ThresholdsOf(v).good
    ensures r == NeedsImprovement <==> ThresholdsOf(v).good < value <= ThresholdsOf(v).needsImprovement
    ensures r == Poor <==> ThresholdsOf(v).needsImprovement < value
  {
    var t := ThresholdsOf(v);
    if value <= t.good then Good
    else if value <= t.needsImprovement then NeedsImprovement
    else Poor
  }

  /** The points a rating contributes to the overall score. */
  function Points(r: Rating): (p: int)
    ensures p in {0, 50, 100}
  {
    match r
    case Good => 100
    case NeedsImprovement => 50
    case Poor => 0
  }

  /** A larger measurement never rates better: the rating is monotone in the value. */
  lemma RatingMonotone(v: Vital, lower: real, higher: real)
    requires lower <= higher
    ensures Points(Rate(v, higher)) <= Points(Rate(v, lower))
  {
  }

  /** Running totals of the score loop. */
  datatype Tally = Tally(total: int, count: nat)

  /** What one entry of the metrics record adds: a vital with a non-null value counts; the
      descriptive fields and null values are skipped. */
  function Contribution(metrics: map<MetricKey, Option<real>>, k: MetricKey): (t: Tally)
    ensures t.count <= 1 && 0 <= t.total <= 100 * t.count
    ensures t.count == 1 <==> k.Metric? && k in metrics && metrics[k].Some?
  {
    if k.Metric? && k in metrics && metrics[k].Some? then Tally(Points(Rate(k.vital, metrics[k].value)), 1)
    else Tally(0, 0)
  }

  /** The totals over the entries `keys`, in order. */
  function TallyOf(metrics: map<MetricKey, Option<real>>, keys: seq<MetricKey>): (t: Tally)
    ensures t.count <= |keys|
    ensures 0 <= t.total <= 100 * t.count
  {
    if keys == [] then Tally(0, 0)
    else
      var before := TallyOf(metrics, keys[..|keys| - 1]);
      var last := Contribution(metrics, keys[|keys| - 1]);
      Tally(before.total + last.total, before.count + last.count)
  }

  /** `Math.round(total / count)`, or 0 when nothing was counted; rounding is half up. */
  function Score(t: Tally): (s: int)
    ensures t.count == 0 ==> s == 0
    ensures t.count > 0 ==> 2 * t.count * s <= 2 * t.total + t.count < 2 * t.count * (s + 1)
  {
    if t.count > 0 then (2 * t.total + t.count) / (2 * t.count) else 0
  }

  /** Multiplying by a non-negative factor keeps order. */
  lemma MulMonotone(a: nat, x: int, y: int)
    requires x <= y
    ensures a * x <= a * y
  {
  }

  /** The overall score is a percentage. */
  lemma ScoreIsPercentage(metrics: map<MetricKey, Option<real>>, keys: seq<MetricKey>)
    ensures 0 <= Score(TallyOf(metrics, keys)) <= 100
  {
    var t := TallyOf(metrics, keys);
    if t.count > 0 {
      var s := Score(t);
      var c := 2 * t.count;
      if s > 100 {
        MulMonotone(c, 101, s);
        assert false;
      }
      if s < 0 {
        MulMonotone(c, s + 1, 0);
        assert false;
      }
    }
  }

  /** When every counted metric rates good the score is 100, and when every one rates poor
      it is 0. */
  lemma UniformScores(t: Tally)
    requires t.count > 0
    ensures t.total == 100 * t.count ==> Score(t) == 100
    ensures t.total == 0 ==> Score(t) == 0
  {
    var s := Score(t);
    var c := 2 * t.count;
    if t.total == 100 * t.count {
      if s > 100 {
        MulMonotone(c, 101, s);
        assert false;
      }
      if s < 100 {
        MulMonotone(c, s + 1, 100);
        assert false;
      }
    }
    if t.total == 0 {
      if s > 0 {
        MulMonotone(c, 1, s);
        assert false;
      }
      if s < 0 {
        MulMonotone(c, s + 1, 0);
        assert false;
      }
    }
  }

  /** The entry `k` is a vital with a recorded, non-null value: it takes part in the score. */
  predicate Counted(metrics: map<MetricKey, Option<real>>, k: MetricKey)
  {
    k.Metric? && k in metrics && metrics[k].Some?
  }

  /** When every counted vital among `keys` rates good, the total is 100 per counted entry. */
  lemma {:induction false} AllGoodTally(metrics: map<MetricKey, Option<real>>, keys: seq<MetricKey>)
    requires forall i :: 0 <= i < |keys| && Counted(metrics, keys[i]) ==>
               Rate(keys[i].vital, metrics[keys[i]].value) == Good
    ensures TallyOf(metrics, keys).total == 100 * TallyOf(metrics, keys).count
  {
    if keys != [] {
      AllGoodTally(metrics, keys[..|keys| - 1]);
    }
  }

  /** When every counted vital among `keys` rates poor, the total is 0. */
  lemma {:induction false} AllPoorTally(metrics: map<MetricKey, Option<real>>, keys: seq<MetricKey>)
    requires forall i :: 0 <= i < |keys| && Counted(metrics, keys[i]) ==>
               Rate(keys[i].vital, metrics[keys[i]].value) == Poor
    ensures TallyOf(metrics, keys).total == 0
  {
    if keys != [] {
      AllPoorTally(metrics, keys[..|keys| - 1]);
    }
  }

  /** The overall score over a metrics record: 100 when every recorded vital rates good (and
      at least one is recorded), 0 when every recorded vital rates poor. */
  lemma UniformMetricScores(metrics: map<MetricKey, Option<real>>, keys: seq<MetricKey>)
    ensures ((forall i :: 0 <= i < |keys| && Counted(metrics, keys[i]) ==>
                Rate(keys[i].vital, metrics[keys[i]].value) == Good) &&
             TallyOf(metrics, keys).count > 0) ==> Score(TallyOf(metrics, keys)) == 100
    ensures (forall i :: 0 <= i < |keys| && Counted(metrics, keys[i]) ==>
               Rate(keys[i].vital, metrics[keys[i]].value) == Poor) ==> Score(TallyOf(metrics, keys)) == 0
  {
    var t := TallyOf(metrics, keys);
    if forall i :: 0 <= i < |keys| && Counted(metrics, keys[i]) ==> Rate(keys[i].vital, metrics[keys[i]].value) == Good {
      AllGoodTally(metrics, keys);
      if t.count > 0 {
        UniformScores(t);
      }
    }
    if forall i :: 0 <= i < |keys| && Counted(metrics, keys[i]) ==> Rate(keys[i].vital, metrics[keys[i]].value) == Poor {
      AllPoorTally(metrics, keys);
      if t.count > 0 {
        UniformScores(t);
      }
    }
  }

  /** Entries that are not vitals add nothing to the totals, whatever their value. */
  lemma {:induction false} DescriptiveFieldsIgnored(metrics: map<MetricKey, Option<real>>, keys: seq<MetricKey>,
                                                    k: MetricKey, value: Option<real>)
    requires !k.Metric?
    ensures TallyOf(metrics[k := value], keys) == TallyOf(metrics, keys)
    ensures TallyOf(metrics, keys + [k]) == TallyOf(metrics, keys)
  {
    if keys != [] {
      DescriptiveFieldsIgnored(metrics, keys[..|keys| - 1], k, value);
      var last := keys[|keys| - 1];
      assert Contribution(metrics[k := value], last) == Contribution(metrics, last);
    }
    assert (keys + [k])[..|keys + [k]| - 1] == keys;
  }

  /** `s` with every occurrence of `x` removed, order kept (the `filter` of unsubscribe). */
  function Without(s: seq<nat>, x: nat): (r: seq<nat>)
    ensures x !in r
    ensures forall y :: y in r <==> y in s && y != x
    ensures |r| <= |s|
  {
    if s == [] then []
    else if s[0] == x then Without(s[1..], x)
    else [s[0]] + Without(s[1..], x)
  }

  /** Filtering out a listener that is not registered changes nothing. */
  lemma {:induction false} WithoutAbsent(s: seq<nat>, x: nat)
    requires x !in s
    ensures Without(s, x) == s
  {
    if s != [] {
      WithoutAbsent(s[1..], x);
    }
  }

  /** Filtering distributes over concatenation, so the other listeners keep their order. */
  lemma {:induction false} WithoutAppend(s: seq<nat>, t: seq<nat>, x: nat)
    ensures Without(s + t, x) == Without(s, x) + Without(t, x)
  {
    if s == [] {
      assert s + t == t;
    } else {
      assert (s + t)[0] == s[0];
      assert (s + t)[1..] == s[1..] + t;
      WithoutAppend(s[1..], t, x);
      if s[0] != x {
        assert [s[0]] + (Without(s[1..], x) + Without(t, x)) == ([s[0]] + Without(s[1..], x)) + Without(t, x);
      }
    }
  }

  /** Subscribing a new callback and then calling its unsubscribe function restores the
      listener list exactly. */
  lemma SubscribeThenUnsubscribe(s: seq<nat>, x: nat)
    requires x !in s
    ensures Without(s + [x], x) == s
  {
    WithoutAppend(s, [x], x);
    WithoutAbsent(s, x);
    assert [x][1..] == [];
  }

  /** One call of a listener with the metrics record it received. */
  datatype Delivery = Delivery(listener: nat, metrics: map<MetricKey, Option<real>>)

  /** The calls `forEach` makes: each listener in order, each with the same record. */
  function Broadcast(listeners: seq<nat>, metrics: map<MetricKey, Option<real>>): (d: seq<Delivery>)
    ensures |d| == |listeners|
    ensures forall i :: 0 <= i < |d| ==> d[i] == Delivery(listeners[i], metrics)
  {
    if listeners == [] then []
    else Broadcast(listeners[..|listeners| - 1], metrics) + [Delivery(listeners[|listeners| - 1], metrics)]
  }

  /** The static state of the service: the metrics record, its keys in insertion order (the
      order `Object.entries` visits them), the listeners, and the calls made to them. */
  class PerformanceMonitor {
    var metrics: map<MetricKey, Option<real>>
    var order: seq<MetricKey>
    var listeners: seq<nat>
    var deliveries: seq<Delivery>

    /** The insertion order lists each key of the record exactly once. */
    ghost predicate Valid()
      reads this
    {
      && (forall i, j :: 0 <= i < j < |order| ==> order[i] != order[j])
      && (forall k :: k in metrics <==> k in order)
    }

    constructor ()
      ensures Valid()
      ensures metrics == map[] && order == [] && listeners == [] && deliveries == []
    {
      metrics := map[];
      order := [];
      listeners := [];
      deliveries := [];
    }

    /** `addListener`: the callback goes to the end of the list. */
    method AddListener(callback: nat)
      modifies this
      ensures listeners == old(listeners) + [callback]
      ensures metrics == old(metrics) && order == old(order) && deliveries == old(deliveries)
    {
      listeners := listeners + [callback];
    }

    /** The unsubscribe function `addListener` returns: every registration of that callback
        goes, the others stay in order. */
    method RemoveListener(callback: nat)
      modifies this
      ensures listeners == Without(old(listeners), callback)
      ensures metrics == old(metrics) && order == old(order) && deliveries == old(deliveries)
    {
      listeners := Without(listeners, callback);
    }

    /** `notifyListeners`: each listener is called once, in order, with the current record. */
    method NotifyListeners()
      modifies this
      ensures deliveries == old(deliveries) + Broadcast(listeners, metrics)
      ensures metrics == old(metrics) && order == old(order) && listeners == old(listeners)
    {
      var i := 0;
      while i < |listeners|
        invariant 0 <= i <= |listeners|
        invariant metrics == old(metrics) && order == old(order) && listeners == old(listeners)
        invariant deliveries == old(deliveries) + Broadcast(listeners[..i], metrics)
      {
        assert listeners[..i + 1][..i] == listeners[..i];
        deliveries := deliveries + [Delivery(listeners[i], metrics)];
        i := i + 1;
      }
      assert listeners[..i] == listeners;
    }

    /** `updateMetric`: only the named key is overwritten, then every listener hears of it. */
    method UpdateMetric(name: MetricKey, value: real)
      requires Valid()
      modifies this
      ensures Valid()
      ensures metrics == old(metrics)[name := Some(value)]
      ensures order == (if name in old(metrics) then old(order) else old(order) + [name])
      ensures listeners == old(listeners)
      ensures deliveries == old(deliveries) + Broadcast(listeners, metrics)
    {
      if name !in metrics {
        order := order + [name];
      }
      metrics := metrics[name := Some(value)];
      NotifyListeners();
    }

    /** `getOverallScore`: the accumulator loop over the entries of the record. */
    method OverallScore() returns (score: int)
      requires Valid()
      ensures score == Score(TallyOf(metrics, order))
      ensures 0 <= score <= 100
    {
      var totalScore := 0;
      var metricCount := 0;
      var i := 0;
      while i < |order|
        invariant 0 <= i <= |order|
        invariant Tally(totalScore, metricCount) == TallyOf(metrics, order[..i])
      {
        assert order[..i + 1][..i] == order[..i];
        var key := order[i];
        var value := if key in metrics then metrics[key] else None;
        if key.Metric? && value.Some? {
          totalScore := totalScore + Points(Rate(key.vital, value.value));
          metricCount := metricCount + 1;
        }
        i := i + 1;
      }
      assert order[..i] == order;
      score := if metricCount > 0 then (2 * totalScore + metricCount) / (2 * metricCount) else 0;
      ScoreIsPercentage(metrics, order);
    }
  }
}
