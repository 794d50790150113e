/** The decision logic of `ThreatDetector` in `utils/threat_detector.py`: the loaded
    state, the per-row features fed to the models, the fusion of the classifier and
    anomaly-detector labels into threat details, the threat-type cascade, the batch
    risk score and the model statistics.

    The trained models (scaler, random forest, isolation forest) are not modelled: they
    are functions of the feature matrix, given with the outcome of loading them, of which
    the model knows only the label ranges and that they answer one label per row. */
module Detector {
  import opened Text
  import opened Scan
  import opened LogParser
  import opened Features

  // ================================================================ the models

  /** A feature matrix: one vector per log line. */
  type Rows = seq<seq<real>>

  /** A random-forest label. */
  type ClassLabel = x: int | 0 <= x <= 1

  /** An isolation-forest label: -1 for an anomaly, 1 otherwise. */
  type AnomalyLabel = x: int | x == 1 || x == -1 witness 1

  /** A class probability. */
  type Probability = x: real | 0.0 <= x <= 1.0

  /** The three trained models as functions of the matrix: `scaler.transform` (or the
      message of the error it raises), `rf_model.predict`, the positive-class column of
      `rf_model.predict_proba` and `isolation_forest.predict`, plus the forest size. */
  datatype ModelFns = ModelFns(
    transform: Rows -> Result<Rows, string>,
    predict: Rows -> seq<ClassLabel>,
    positive: Rows -> seq<Probability>,
    anomaly: Rows -> seq<AnomalyLabel>,
    estimators: nat)

  /** The models answer one row per input row. */
  ghost predicate Coherent(m: ModelFns) {
    (forall x: Rows :: m.transform(x).Ok? ==> |m.transform(x).value| == |x|)
    && (forall x: Rows :: |m.predict(x)| == |x|)
    && (forall x: Rows :: |m.positive(x)| == |x|)
    && (forall x: Rows :: |m.anomaly(x)| == |x|)
  }

  function NoLabels(x: Rows): seq<ClassLabel> { seq(|x|, i => 0) }

  function NoProbabilities(x: Rows): seq<Probability> { seq(|x|, i => 0.0) }

  function NoAnomalies(x: Rows): seq<AnomalyLabel> { seq(|x|, i => 1) }

  function Unscaled(x: Rows): Result<Rows, string> { Ok(x) }

  type Models = m: ModelFns | Coherent(m) witness ModelFns(Unscaled, NoLabels, NoProbabilities, NoAnomalies, 0)

  /** What the models said about one row. */
  datatype Verdict = Verdict(predicted: ClassLabel, probability: Probability, anomaly: AnomalyLabel)

  /** The labels of the scaled matrix `x`, zipped row by row. */
  function Verdicts(m: Models, x: Rows): (vs: seq<Verdict>)
    ensures |vs| == |x|
    ensures forall i :: 0 <= i < |x| ==> vs[i] == Verdict(m.predict(x)[i], m.positive(x)[i], m.anomaly(x)[i])
  {
    var p := m.predict(x);
    var q := m.positive(x);
    var a := m.anomaly(x);
    seq(|x|, i requires 0 <= i < |x| => Verdict(p[i], q[i], a[i]))
  }

  // ================================================================ the feature matrix

  /** Each of `xs` through `f`, in order, or the error of the first that fails. */
  function Collect<T, R, E>(xs: seq<T>, f: T -> Result<R, E>): (r: Result<seq<R>, E>)
    ensures r.Ok? ==> |r.value| == |xs|
  {
    if xs == [] then Ok([]) else Append(Collect(xs[..|xs| - 1], f), f(xs[|xs| - 1]))
  }

  /** The results so far extended by one more: the earlier error, the new one, or one more value. */
  function Append<R, E>(acc: Result<seq<R>, E>, next: Result<R, E>): (r: Result<seq<R>, E>)
    ensures acc.Err? ==> r == acc
    ensures acc.Ok? && next.Err? ==> r == Err(next.error)
    ensures acc.Ok? && next.Ok? ==> r == Ok(acc.value + [next.value])
  {
    match acc
    case Err(e) => Err(e)
    case Ok(ys) =>
      match next
      case Err(e) => Err(e)
      case Ok(y) => Ok(ys + [y])
  }

  /** The collection succeeds exactly when every element does, and then holds their values in order. */
  lemma {:induction false} CollectOk<T, R, E>(xs: seq<T>, f: T -> Result<R, E>)
    ensures Collect(xs, f).Ok? <==> forall i :: 0 <= i < |xs| ==> f(xs[i]).Ok?
    ensures Collect(xs, f).Ok? ==> forall i :: 0 <= i < |xs| ==> Collect(xs, f).value[i] == f(xs[i]).value
  {
    if xs != [] {
      var n := |xs| - 1;
      CollectOk(xs[..n], f);
      assert forall i :: 0 <= i < n ==> xs[..n][i] == xs[i];
    }
  }

  /** A failed collection fails with the error of the first failing element. */
  lemma {:induction false} CollectErr<T, R, E>(xs: seq<T>, f: T -> Result<R, E>)
    ensures Collect(xs, f).Err? ==>
      exists i :: 0 <= i < |xs| && f(xs[i]) == Err(Collect(xs, f).error) && forall j :: 0 <= j < i ==> f(xs[j]).Ok?
  {
    if xs != [] {
      var n := |xs| - 1;
      CollectErr(xs[..n], f);
      CollectOk(xs[..n], f);
      assert forall i :: 0 <= i < n ==> xs[..n][i] == xs[i];
    }
  }

  lemma CollectStep<T, R, E>(xs: seq<T>, f: T -> Result<R, E>, i: nat)
    requires i < |xs|
    ensures Collect(xs[..i + 1], f) == Append(Collect(xs[..i], f), f(xs[i]))
  {
    assert xs[..i + 1][..i] == xs[..i];
  }

  /** Once a prefix fails, the whole collection fails with the same error. */
  lemma {:induction false} CollectErrorPersists<T, R, E>(xs: seq<T>, f: T -> Result<R, E>, i: nat)
    requires i <= |xs| && Collect(xs[..i], f).Err?
    ensures Collect(xs, f) == Collect(xs[..i], f)
    decreases |xs| - i
  {
    if i == |xs| {
      assert xs[..i] == xs;
    } else {
      CollectStep(xs, f, i);
      CollectErrorPersists(xs, f, i + 1);
    }
  }

  /** The loop that computes `Collect`: `f` on each element in turn, returning at the
      first error. */
  method CollectEach<T, R, E>(xs: seq<T>, f: T -> Result<R, E>) returns (r: Result<seq<R>, E>)
    ensures r == Collect(xs, f)
  {
    var ys: seq<R> := [];
    for i := 0 to |xs|
      invariant Collect(xs[..i], f) == Ok(ys)
    {
      CollectStep(xs, f, i);
      var y := f(xs[i]);
      if y.Err? {
        CollectErrorPersists(xs, f, i + 1);
        return Err(y.error);
      }
      ys := ys + [y.value];
    }
    assert xs[..|xs|] == xs;
    r := Ok(ys);
  }

  /** The feature vector of one record under the schema `names`, or the error its
      features raise. */
  function RowVector(log: LogRecord, names: seq<string>): (r: Result<seq<real>, FeatureError>)
    ensures r.Err? <==> FeaturesOf(log.rawLog).Err?
    ensures r.Err? ==> r.error == FeaturesOf(log.rawLog).error
    ensures r.Ok? ==> r.value == FeatureVector(FeaturesOf(log.rawLog).value, names)
    ensures r.Ok? ==> |r.value| == if names == [] then 22 else |names|
  {
    match FeaturesOf(log.rawLog)
    case Err(e) => Err(e)
    case Ok(f) => Ok(FeatureVector(f, names))
  }

  function RowOf(names: seq<string>): LogRecord -> Result<seq<real>, FeatureError> {
    (log: LogRecord) => RowVector(log, names)
  }

  /** The feature matrix of `_extract_features_from_parsed_logs`: one vector per record,
      or the error of the first record whose features cannot be extracted. */
  function FeatureRows(logs: seq<LogRecord>, names: seq<string>): (r: Result<Rows, FeatureError>)
    ensures r.Ok? ==> |r.value| == |logs|
  {
    Collect(logs, RowOf(names))
  }

  /** The matrix exists exactly when every record's features do; row `i` is then the
      vector of record `i`, as wide as the schema (22 without one); otherwise the error
      is that of the first failing record. */
  lemma FeatureRowsExact(logs: seq<LogRecord>, names: seq<string>)
    ensures FeatureRows(logs, names).Ok? <==> forall i :: 0 <= i < |logs| ==> FeaturesOf(logs[i].rawLog).Ok?
    ensures FeatureRows(logs, names).Ok? ==> forall i :: 0 <= i < |logs| ==>
      FeatureRows(logs, names).value[i] == FeatureVector(FeaturesOf(logs[i].rawLog).value, names)
      && |FeatureRows(logs, names).value[i]| == (if names == [] then 22 else |names|)
    ensures FeatureRows(logs, names).Err? ==>
      exists i :: 0 <= i < |logs| && FeaturesOf(logs[i].rawLog) == Err(FeatureRows(logs, names).error)
        && forall j :: 0 <= j < i ==> FeaturesOf(logs[j].rawLog).Ok?
  {
    var f := RowOf(names);
    CollectOk(logs, f);
    CollectErr(logs, f);
    assert forall i :: 0 <= i < |logs| ==> f(logs[i]) == RowVector(logs[i], names);
  }

  // ================================================================ threat types

  /** The six labels of `_classify_threat_type`. */
  datatype ThreatType = BruteForce | PrivilegeEscalation | NetworkScan | DosAttack | UnauthorizedAccess | SuspiciousActivity
  {
    function Name(): string {
      match this
      case BruteForce => "brute_force"
      case PrivilegeEscalation => "privilege_escalation"
      case NetworkScan => "network_scan"
      case DosAttack => "dos_attack"
      case UnauthorizedAccess => "unauthorized_access"
      case SuspiciousActivity => "suspicious_activity"
    }
  }

  /** The keyword groups, tried in this order on the lower-cased line. */
  const ThreatKeywords: seq<(ThreatType, seq<string>)> := [
    (BruteForce, ["failed password", "authentication failure", "invalid user"]),
    (PrivilegeEscalation, ["sudo", "su:", "privilege"]),
    (NetworkScan, ["scan", "probe", "nmap"]),
    (DosAttack, ["dos", "flood", "too many"]),
    (UnauthorizedAccess, ["denied", "unauthorized", "forbidden"])]

  /** `any(word in text for word in words)`. */
  predicate Mentions(text: string, words: seq<string>) {
    exists k :: 0 <= k < |words| && Contains(text, words[k])
  }

  /** The label of the first group that `text` mentions, else suspicious activity. */
  function FirstGroup(text: string, groups: seq<(ThreatType, seq<string>)>): (t: ThreatType)
    ensures (forall k :: 0 <= k < |groups| ==> !Mentions(text, groups[k].1)) ==> t == SuspiciousActivity
    ensures (exists k :: 0 <= k < |groups| && Mentions(text, groups[k].1)) ==>
      exists k :: 0 <= k < |groups| && t == groups[k].0 && Mentions(text, groups[k].1)
        && forall j :: 0 <= j < k ==> !Mentions(text, groups[j].1)
  {
    if groups == [] then SuspiciousActivity
    else if Mentions(text, groups[0].1) then groups[0].0
    else
      var t := FirstGroup(text, groups[1..]);
      assert forall k :: 1 <= k < |groups| ==> groups[k] == groups[1..][k - 1];
      t
  }

  /** `_classify_threat_type(log)`: the label of the first keyword group the lower-cased
      line mentions; suspicious activity exactly when it mentions none. */
  function ClassifyThreatType(log: string): (t: ThreatType)
    ensures t == SuspiciousActivity <==> forall k :: 0 <= k < |ThreatKeywords| ==> !Mentions(LowerStr(log), ThreatKeywords[k].1)
    ensures t != SuspiciousActivity ==>
      exists k :: 0 <= k < |ThreatKeywords| && t == ThreatKeywords[k].0 && Mentions(LowerStr(log), ThreatKeywords[k].1)
        && forall j :: 0 <= j < k ==> !Mentions(LowerStr(log), ThreatKeywords[j].1)
  {
    FirstGroup(LowerStr(log), ThreatKeywords)
  }

  /** The first group mentioned decides, whatever later groups the line also mentions. */
  lemma FirstMentionedGroupWins(log: string, k: nat)
    requires k < |ThreatKeywords| && Mentions(LowerStr(log), ThreatKeywords[k].1)
    requires forall j :: 0 <= j < k ==> !Mentions(LowerStr(log), ThreatKeywords[j].1)
    ensures ClassifyThreatType(log) == ThreatKeywords[k].0
  {
    var t := ClassifyThreatType(log);
    var k' :| 0 <= k' < |ThreatKeywords| && t == ThreatKeywords[k'].0 && Mentions(LowerStr(log), ThreatKeywords[k'].1)
      && forall j :: 0 <= j < k' ==> !Mentions(LowerStr(log), ThreatKeywords[j].1);
    assert k' == k;
  }

  /** So a failed-password line is brute force even when it also says `sudo`. */
  lemma FailedPasswordIsBruteForce(log: string)
    requires Contains(LowerStr(log), "failed password")
    ensures ClassifyThreatType(log) == BruteForce
  {
    assert Mentions(LowerStr(log), ThreatKeywords[0].1) by {
      assert ThreatKeywords[0].1[0] == "failed password";
    }
    FirstMentionedGroupWins(log, 0);
  }

  /** The line "Failed password for root from 10.0.0.1" is brute force. */
  lemma FailedPasswordExample()
    ensures ClassifyThreatType("Failed password for root from 10.0.0.1") == BruteForce
  {
    var low := LowerStr("Failed password for root from 10.0.0.1");
    assert Lower('F') == 'f';
    assert forall i :: 0 <= i < 15 ==> low[i] == "failed password"[i];
    assert low[..15] == "failed password";
    assert LitAt(low, 0, "failed password");
    FailedPasswordIsBruteForce("Failed password for root from 10.0.0.1");
  }

  // ================================================================ fusion

  /** A row is a threat when the forest labels it 1 or the isolation forest labels it -1. */
  predicate IsThreat(v: Verdict) { v.predicted == 1 || v.anomaly == -1 }

  /** One entry of `details`. */
  datatype Detail = Detail(
    log: string,
    threatType: ThreatType,
    confidence: real,
    timestamp: string,
    sourceIp: string,
    isAnomaly: bool)

  /** The detail of a flagged row; the confidence is the positive-class probability when
      the forest says 1, and 0 for a row only the isolation forest flagged. */
  function DetailOf(log: LogRecord, v: Verdict): (d: Detail)
    ensures 0.0 <= d.confidence <= 1.0
  {
    Detail(log.rawLog, ClassifyThreatType(log.rawLog), if v.predicted == 1 then v.probability else 0.0,
      log.timestamp, log.sourceIp, v.anomaly == -1)
  }

  /** The details of the flagged rows, in row order. */
  function Fused(logs: seq<LogRecord>, vs: seq<Verdict>): (ds: seq<Detail>)
    requires |logs| == |vs|
    ensures |ds| == |FlaggedRows(vs)| <= |logs|
  {
    if logs == [] then []
    else
      var n := |logs| - 1;
      Fused(logs[..n], vs[..n]) + (if IsThreat(vs[n]) then [DetailOf(logs[n], vs[n])] else [])
  }

  /** The indices of the flagged rows, in increasing order. */
  function FlaggedRows(vs: seq<Verdict>): (idx: seq<nat>)
    ensures |idx| <= |vs|
    ensures forall k :: 0 <= k < |idx| ==> idx[k] < |vs|
  {
    if vs == [] then []
    else
      var n := |vs| - 1;
      FlaggedRows(vs[..n]) + (if IsThreat(vs[n]) then [n] else [])
  }

  /** `FlaggedRows` lists every flagged row and no other, each once, in increasing order. */
  lemma {:induction false} FlaggedRowsExact(vs: seq<Verdict>)
    ensures forall i: nat :: i in FlaggedRows(vs) <==> i < |vs| && IsThreat(vs[i])
    ensures forall a, b :: 0 <= a < b < |FlaggedRows(vs)| ==> FlaggedRows(vs)[a] < FlaggedRows(vs)[b]
  {
    if vs != [] {
      var n := |vs| - 1;
      FlaggedRowsExact(vs[..n]);
      assert forall i :: 0 <= i < n ==> vs[..n][i] == vs[i];
    }
  }

  /** Detail `k` is that of the `k`-th flagged row. */
  lemma {:induction false} FusedIndexed(logs: seq<LogRecord>, vs: seq<Verdict>)
    requires |logs| == |vs|
    ensures forall k :: 0 <= k < |FlaggedRows(vs)| ==>
      Fused(logs, vs)[k] == DetailOf(logs[FlaggedRows(vs)[k]], vs[FlaggedRows(vs)[k]])
  {
    if logs != [] {
      var n := |logs| - 1;
      FusedIndexed(logs[..n], vs[..n]);
      var idx, all := FlaggedRows(vs[..n]), FlaggedRows(vs);
      var prev, ds := Fused(logs[..n], vs[..n]), Fused(logs, vs);
      forall k | 0 <= k < |all| ensures ds[k] == DetailOf(logs[all[k]], vs[all[k]]) {
        if k < |idx| {
          assert all[k] == idx[k] && ds[k] == prev[k];
          assert logs[..n][idx[k]] == logs[idx[k]] && vs[..n][idx[k]] == vs[idx[k]];
        } else {
          assert all[k] == n;
        }
      }
    }
  }

  /** One more row adds its detail when it is flagged, and nothing otherwise. */
  lemma FusedStep(logs: seq<LogRecord>, vs: seq<Verdict>, i: nat)
    requires |logs| == |vs| && i < |logs|
    ensures IsThreat(vs[i]) ==> Fused(logs[..i + 1], vs[..i + 1]) == Fused(logs[..i], vs[..i]) + [DetailOf(logs[i], vs[i])]
    ensures !IsThreat(vs[i]) ==> Fused(logs[..i + 1], vs[..i + 1]) == Fused(logs[..i], vs[..i])
  {
    assert logs[..i + 1][..i] == logs[..i];
    assert vs[..i + 1][..i] == vs[..i];
    assert Fused(logs[..i], vs[..i]) + [] == Fused(logs[..i], vs[..i]);
  }

  /** The set of threat types of `ds`. */
  function TypesOf(ds: seq<Detail>): set<ThreatType> {
    set d | d in ds :: d.threatType
  }

  lemma TypesSnoc(ds: seq<Detail>, d: Detail)
    ensures TypesOf(ds + [d]) == TypesOf(ds) + {d.threatType}
  {
    assert forall e :: e in ds + [d] <==> e in ds || e == d;
  }

  /** The loop of `detect_threats` that collects the details and their threat types. */
  method CombineResults(logs: seq<LogRecord>, vs: seq<Verdict>) returns (results: seq<Detail>, types: set<ThreatType>)
    requires |logs| == |vs|
    ensures results == Fused(logs, vs)
    ensures types == TypesOf(results)
  {
    results := [];
    types := {};
    for i := 0 to |vs|
      invariant results == Fused(logs[..i], vs[..i])
      invariant types == TypesOf(results)
    {
      FusedStep(logs, vs, i);
      if IsThreat(vs[i]) {
        var threatType := ClassifyThreatType(logs[i].rawLog);
        types := types + {threatType};
        TypesSnoc(results, DetailOf(logs[i], vs[i]));
        results := results + [Detail(logs[i].rawLog, threatType, if vs[i].predicted == 1 then vs[i].probability else 0.0,
          logs[i].timestamp, logs[i].sourceIp, vs[i].anomaly == -1)];
      }
    }
    assert logs[..|vs|] == logs && vs[..|vs|] == vs;
  }

  // ================================================================ risk score

  function Min(a: real, b: real): real { if a <= b then a else b }

  /** `sum(r['confidence'] for r in results)`. */
  function ConfidenceSum(ds: seq<Detail>): real {
    if ds == [] then 0.0 else ConfidenceSum(ds[..|ds| - 1]) + ds[|ds| - 1].confidence
  }

  /** With every confidence in [0, 1] the sum lies in [0, |ds|]. */
  lemma {:induction false} ConfidenceSumBounds(ds: seq<Detail>)
    requires forall k :: 0 <= k < |ds| ==> 0.0 <= ds[k].confidence <= 1.0
    ensures 0.0 <= ConfidenceSum(ds) <= |ds| as real
  {
    if ds != [] {
      ConfidenceSumBounds(ds[..|ds| - 1]);
    }
  }

  /** `min(100.0, len(results) / n * 100 + sum of confidences / max(len(results), 1) * 50)`,
      before rounding. */
  function RiskScore(n: nat, ds: seq<Detail>): real
    requires n > 0
  {
    var mean := ConfidenceSum(ds) / (if |ds| == 0 then 1.0 else |ds| as real);
    Min(100.0, (|ds| as real / n as real) * 100.0 + mean * 50.0)
  }

  /** The score lies in [0, 100], is at least the flagged share in percent (capped at
      100) and at most that share plus 50, and is 0 when nothing is flagged. */
  lemma RiskScoreBounds(n: nat, ds: seq<Detail>)
    requires n > 0
    requires forall k :: 0 <= k < |ds| ==> 0.0 <= ds[k].confidence <= 1.0
    ensures 0.0 <= RiskScore(n, ds) <= 100.0
    ensures RiskScore(n, ds) >= Min(100.0, (|ds| as real / n as real) * 100.0)
    ensures RiskScore(n, ds) <= (|ds| as real / n as real) * 100.0 + 50.0
    ensures ds == [] ==> RiskScore(n, ds) == 0.0
  {
    ConfidenceSumBounds(ds);
    var d := if |ds| == 0 then 1.0 else |ds| as real;
    var mean := ConfidenceSum(ds) / d;
    assert 0.0 <= mean <= 1.0 by {
      assert ConfidenceSum(ds) <= d;
    }
    assert |ds| as real / n as real >= 0.0;
  }

  /** Two flagged rows out of ten, with confidences 0.8 and 0.4: 20 + 30 = 50. */
  lemma RiskScoreExample(d1: Detail, d2: Detail)
    requires d1.confidence == 0.8 && d2.confidence == 0.4
    ensures RiskScore(10, [d1, d2]) == 50.0
  {
    assert [d1, d2][..1] == [d1];
    assert [d1][..0] == [];
    assert ConfidenceSum([d1]) == 0.8;
    assert ConfidenceSum([d1, d2]) == 1.2;
    assert (2 as real / 10 as real) * 100.0 == 20.0;
  }

  // ================================================================ detect_threats

  /** The result dict of `detect_threats`; `error` is absent on success. */
  datatype Report = Report(
    threatsCount: nat,
    threatTypes: set<ThreatType>,
    details: seq<Detail>,
    riskScore: real,
    error: Option<string>)

  const NotLoadedMessage: string := "Models not loaded. Please run the training notebook first."

  const ErrorPrefix: string := "Error during threat detection: "

  function ZeroReport(error: Option<string>): Report {
    Report(0, {}, [], 0.0, error)
  }

  /** `str(e)` for the `ValueError` of `int()`. */
  function Describe(e: FeatureError): string {
    "invalid literal for int() with base 10: '" + e.literal + "'"
  }

  /** The report for the records `logs` and the verdicts of their rows. */
  function Success(logs: seq<LogRecord>, vs: seq<Verdict>): Report
    requires |logs| == |vs| && |logs| > 0
  {
    var ds := Fused(logs, vs);
    Report(|ds|, TypesOf(ds), ds, RiskScore(|logs|, ds), None)
  }

  /** What `detect_threats` returns for the loaded state `loaded`, `names`, `models`. */
  function Detection(loaded: bool, names: seq<string>, models: Option<Models>, logs: seq<LogRecord>): Report
    requires loaded ==> models.Some?
  {
    if !loaded then ZeroReport(Some(NotLoadedMessage))
    else if logs == [] then ZeroReport(None)
    else
      match FeatureRows(logs, names)
      case Err(e) => ZeroReport(Some(ErrorPrefix + Describe(e)))
      case Ok(x) =>
        match models.value.transform(x)
        case Err(msg) => ZeroReport(Some(ErrorPrefix + msg))
        case Ok(y) => Success(logs, Verdicts(models.value, y))
  }

  /** Without models the result is empty and carries the not-loaded message. */
  lemma NotLoadedReport(names: seq<string>, models: Option<Models>, logs: seq<LogRecord>)
    ensures var r := Detection(false, names, models, logs);
      r.threatsCount == 0 && r.threatTypes == {} && r.details == [] && r.riskScore == 0.0
      && r.error == Some(NotLoadedMessage) && |r.error.value| > 0
  {
  }

  /** No records give the empty result without an error. */
  lemma EmptyLogsReport(names: seq<string>, models: Models)
    ensures var r := Detection(true, names, Some(models), []);
      r.threatsCount == 0 && r.threatTypes == {} && r.details == [] && r.riskScore == 0.0 && r.error.None?
  {
  }

  /** A failure while building or scaling the features gives the empty result with the
      message of the error after the fixed prefix; otherwise the report is that of the
      verdicts on the scaled matrix. */
  lemma DetectionCases(names: seq<string>, models: Models, logs: seq<LogRecord>)
    requires logs != []
    ensures var r := Detection(true, names, Some(models), logs);
      r.error.Some? <==> FeatureRows(logs, names).Err? || models.transform(FeatureRows(logs, names).value).Err?
    ensures var r := Detection(true, names, Some(models), logs);
      r.error.Some? ==> (r.threatsCount == 0 && r.details == [] && r.threatTypes == {} && r.riskScore == 0.0
        && |ErrorPrefix| <= |r.error.value| && r.error.value[..|ErrorPrefix|] == ErrorPrefix)
    ensures var r := Detection(true, names, Some(models), logs);
      r.error.None? ==> r == Success(logs, Verdicts(models, models.transform(FeatureRows(logs, names).value).value))
  {
  }

  /** The success report: the details are exactly the flagged rows' details in row order,
      the count is their number and bounded by the row count, the types are the set of
      their types, and the risk score lies in [0, 100], 0 when nothing is flagged. */
  lemma SuccessReport(logs: seq<LogRecord>, vs: seq<Verdict>)
    requires |logs| == |vs| && |logs| > 0
    ensures var r := Success(logs, vs);
      r.threatsCount == |r.details| == |FlaggedRows(vs)| <= |logs|
      && r.threatTypes == (set k | 0 <= k < |r.details| :: r.details[k].threatType)
      && r.error.None?
    ensures var r := Success(logs, vs);
      forall k :: 0 <= k < |r.details| ==> r.details[k] == DetailOf(logs[FlaggedRows(vs)[k]], vs[FlaggedRows(vs)[k]])
    ensures var r := Success(logs, vs);
      0.0 <= r.riskScore <= 100.0 && (FlaggedRows(vs) == [] ==> r.riskScore == 0.0 && r.threatsCount == 0)
  {
    var ds := Fused(logs, vs);
    FusedIndexed(logs, vs);
    FusedConfidences(logs, vs);
    RiskScoreBounds(|logs|, ds);
    TypesOfIndexed(ds);
  }

  /** Every detail's confidence lies in [0, 1]. */
  lemma FusedConfidences(logs: seq<LogRecord>, vs: seq<Verdict>)
    requires |logs| == |vs|
    ensures forall k :: 0 <= k < |Fused(logs, vs)| ==> 0.0 <= Fused(logs, vs)[k].confidence <= 1.0
  {
    var ds, idx := Fused(logs, vs), FlaggedRows(vs);
    FusedIndexed(logs, vs);
    forall k | 0 <= k < |ds| ensures 0.0 <= ds[k].confidence <= 1.0 {
      assert ds[k] == DetailOf(logs[idx[k]], vs[idx[k]]);
    }
  }

  lemma TypesOfIndexed(ds: seq<Detail>)
    ensures TypesOf(ds) == (set k | 0 <= k < |ds| :: ds[k].threatType)
  {
    forall t | t in TypesOf(ds) ensures t in (set k | 0 <= k < |ds| :: ds[k].threatType) {
      var d :| d in ds && d.threatType == t;
      var k :| 0 <= k < |ds| && ds[k] == d;
    }
  }

  /** The fusion rule, row by row: a detail exists for row `i` exactly when it is
      flagged, and it carries the row's text, timestamp and address, the probability
      when the forest said 1 and 0 otherwise, and whether the isolation forest said -1. */
  lemma FusionRule(logs: seq<LogRecord>, vs: seq<Verdict>, i: nat)
    requires |logs| == |vs| && i < |vs|
    ensures (exists k :: 0 <= k < |FlaggedRows(vs)| && FlaggedRows(vs)[k] == i) <==> (vs[i].predicted == 1 || vs[i].anomaly == -1)
    ensures forall k :: 0 <= k < |FlaggedRows(vs)| && FlaggedRows(vs)[k] == i ==>
      var d := Fused(logs, vs)[k];
      d.log == logs[i].rawLog && d.timestamp == logs[i].timestamp && d.sourceIp == logs[i].sourceIp
      && d.confidence == (if vs[i].predicted == 1 then vs[i].probability else 0.0) && d.isAnomaly == (vs[i].anomaly == -1)
      && d.threatType == ClassifyThreatType(logs[i].rawLog)
  {
    FlaggedRowsExact(vs);
    FusedIndexed(logs, vs);
    if IsThreat(vs[i]) {
      assert i in FlaggedRows(vs);
      var k :| 0 <= k < |FlaggedRows(vs)| && FlaggedRows(vs)[k] == i;
    }
  }

  /** With the patterns as written, a record whose line holds a literal `\dd:\dd:\dd` or
      an escaped HTTP status makes the whole batch fail with the error result. */
  lemma AsWrittenEscapesFailBatch(names: seq<string>, models: Models, logs: seq<LogRecord>, i: nat)
    requires i < |logs|
    requires Capture(logs[i].rawLog, TimePattern).Some? || Capture(logs[i].rawLog, HttpPattern).Some?
    ensures Detection(true, names, Some(models), logs).error.Some?
    ensures Detection(true, names, Some(models), logs).threatsCount == 0
  {
    AsWrittenTimeOrStatusRaises(logs[i].rawLog);
    FeatureRowsExact(logs, names);
  }

  // ================================================================ the detector

  /** A value of the model metadata file. */
  datatype MetaValue = Str(s: string) | Num(x: real) | StrList(items: seq<string>)

  /** What reading the metadata file gave: no file, a file that failed to load, or its dict. */
  datatype MetaOutcome = NoMetadata | Unreadable | Metadata(dict: map<string, MetaValue>)

  /** What `_load_models` found: some model file missing, a model that failed to load,
      or the three models and the metadata outcome. */
  datatype LoadOutcome = NotFound | LoadFailed | Loaded(models: Models, meta: MetaOutcome)

  /** `metadata.get('feature_names', [])`. */
  function NamesIn(dict: map<string, MetaValue>): (names: seq<string>)
    ensures "feature_names" !in dict ==> names == []
    ensures "feature_names" in dict && dict["feature_names"].StrList? ==> names == dict["feature_names"].items
  {
    if "feature_names" in dict && dict["feature_names"].StrList? then dict["feature_names"].items else []
  }

  /** `metadata.get(key, default)`. */
  function MetaGet(dict: map<string, MetaValue>, key: string, default: string): (v: MetaValue)
    ensures key in dict ==> v == dict[key]
    ensures key !in dict ==> v == Str(default)
  {
    if key in dict then dict[key] else Str(default)
  }

  /** The training entries `get_model_stats` adds when there is metadata. */
  datatype TrainingInfo = TrainingInfo(
    trainingSamples: MetaValue,
    testSamples: MetaValue,
    rfAccuracy: MetaValue,
    ifAccuracy: MetaValue,
    trainingDate: MetaValue,
    modelVersion: MetaValue)

  /** The result of `get_model_stats`. */
  datatype Stats =
    | StatsError(error: string)
    | Stats(modelLoaded: bool, featureCount: nat, featureNames: seq<string>, rfEstimators: nat, training: Option<TrainingInfo>)

  class ThreatDetector {
    var modelLoaded: bool
    var featureNames: seq<string>
    var metadata: map<string, MetaValue>
    var models: Option<Models>

    /** The detector only reports loaded models that it holds. */
    ghost predicate Valid()
      reads this
    {
      modelLoaded ==> models.Some?
    }

    /** `ThreatDetector()`: empty state, then `_load_models` with what the file system holds. */
    constructor(outcome: LoadOutcome)
      ensures Valid()
      ensures modelLoaded <==> outcome.Loaded? && !outcome.meta.Unreadable?
      ensures models == (if outcome.Loaded? then Some(outcome.models) else None)
      ensures featureNames == (if outcome.Loaded? && outcome.meta.Metadata? then NamesIn(outcome.meta.dict) else [])
      ensures metadata == (if outcome.Loaded? && outcome.meta.Metadata? then outcome.meta.dict else map[])
    {
      modelLoaded := false;
      featureNames := [];
      metadata := map[];
      models := None;
      new;
      LoadModels(outcome);
    }

    /** `_load_models`: with all three model files the models are taken and the detector
        is loaded unless the metadata file fails to load; metadata that loads replaces the
        dict and the feature names. A missing file or a failing model leaves it unloaded. */
    method LoadModels(outcome: LoadOutcome)
      modifies this
      ensures Valid()
      ensures modelLoaded <==> outcome.Loaded? && !outcome.meta.Unreadable?
      ensures models == (if outcome.Loaded? then Some(outcome.models) else old(models))
      ensures outcome.Loaded? && outcome.meta.Metadata? ==> metadata == outcome.meta.dict && featureNames == NamesIn(outcome.meta.dict)
      ensures !(outcome.Loaded? && outcome.meta.Metadata?) ==> metadata == old(metadata) && featureNames == old(featureNames)
    {
      match outcome
      case Loaded(m, meta) =>
        models := Some(m);
        match meta {
          case Unreadable =>
            modelLoaded := false;
          case NoMetadata =>
            modelLoaded := true;
          case Metadata(dict) =>
            metadata := dict;
            featureNames := NamesIn(dict);
            modelLoaded := true;
        }
      case _ =>
        modelLoaded := false;
    }

    /** `_extract_features_from_parsed_logs`: the feature vector of each record in turn,
        stopping at the first record whose features raise. */
    method ExtractFeaturesFromParsedLogs(logs: seq<LogRecord>) returns (r: Result<Rows, FeatureError>)
      ensures r == FeatureRows(logs, featureNames)
    {
      r := CollectEach(logs, RowOf(featureNames));
    }

    /** `detect_threats(parsed_logs)`. */
    method DetectThreats(logs: seq<LogRecord>) returns (r: Report)
      requires Valid()
      ensures r == Detection(modelLoaded, featureNames, models, logs)
    {
      if !modelLoaded {
        return ZeroReport(Some(NotLoadedMessage));
      }
      if |logs| == 0 {
        return ZeroReport(None);
      }
      var features := ExtractFeaturesFromParsedLogs(logs);
      if features.Err? {
        return ZeroReport(Some(ErrorPrefix + Describe(features.error)));
      }
      var m := models.value;
      var scaled := m.transform(features.value);
      if scaled.Err? {
        return ZeroReport(Some(ErrorPrefix + scaled.error));
      }
      var vs := Verdicts(m, scaled.value);
      var results, types := CombineResults(logs, vs);
      r := Report(|results|, types, results, RiskScore(|logs|, results), None);
    }

    /** `get_model_stats()`: the not-loaded error, or the feature count and names, the
        forest size and, when there is metadata, its training entries with "Unknown"
        (model version "1.0") for the missing ones. */
    function ModelStats(): (s: Stats)
      requires Valid()
      reads this
      ensures !modelLoaded ==> s == StatsError(NotLoadedMessage)
      ensures modelLoaded ==> (s.Stats? && s.modelLoaded && s.featureCount == |featureNames| && s.featureNames == featureNames
        && s.rfEstimators == models.value.estimators)
      ensures modelLoaded ==> (s.training.None? <==> metadata == map[])
      ensures modelLoaded && s.training.Some? ==>
        var t := s.training.value;
        t.trainingSamples == MetaGet(metadata, "training_samples", "Unknown")
        && t.testSamples == MetaGet(metadata, "test_samples", "Unknown")
        && t.rfAccuracy == MetaGet(metadata, "rf_accuracy", "Unknown")
        && t.ifAccuracy == MetaGet(metadata, "if_accuracy", "Unknown")
        && t.trainingDate == MetaGet(metadata, "training_date", "Unknown")
        && t.modelVersion == MetaGet(metadata, "model_version", "1.0")
    {
      if !modelLoaded then StatsError(NotLoadedMessage)
      else
        var training := if metadata == map[] then None else Some(TrainingInfo(
          MetaGet(metadata, "training_samples", "Unknown"), MetaGet(metadata, "test_samples", "Unknown"),
          MetaGet(metadata, "rf_accuracy", "Unknown"), MetaGet(metadata, "if_accuracy", "Unknown"),
          MetaGet(metadata, "training_date", "Unknown"), MetaGet(metadata, "model_version", "1.0")));
        Stats(modelLoaded, |featureNames|, featureNames, models.value.estimators, training)
    }
  }
}
