/** The mismatch finder for the dev split: it lines up the NL questions, the
    gold SQL and a model's predicted SQL, with the fetched records and
    execution errors when their caches exist, and lists the examples whose
    records differ (or, without records, whose SQL text differs) and the
    examples whose predicted SQL failed to execute. */
module FindMismatches {
  import opened Common
  import opened FileSystem

  /** A scalar the database returns in a row. */
  datatype Value = IntValue(i: int) | RealValue(r: real) | TextValue(t: string) | BlobValue(b: seq<int>) | NullValue

  /** A row, with its columns in the order the query returned them. */
  type Row = seq<Value>

  /** The rows fetched for one example; `None` when there are none to show. */
  type Records = Option<seq<Row>>

  // ---------------------------------------------------------------------
  // Which model's predictions are read
  // ---------------------------------------------------------------------

  datatype ModelType = Ft | Scr

  function ModelTypeName(t: ModelType): string
  {
    match t
    case Ft => "ft"
    case Scr => "scr"
  }

  /** An explicit `--model_type` wins; otherwise `--finetune` picks `ft`. */
  function ChooseModelType(explicit: Option<ModelType>, finetune: bool): (t: ModelType)
    ensures explicit.Some? ==> t == explicit.value
    ensures explicit.None? ==> (t == Ft <==> finetune)
  {
    match explicit
    case Some(e) => e
    case None => if finetune then Ft else Scr
  }

  function PredictedSqlPath(t: ModelType, experiment: string): string
  {
    "results/t5_" + ModelTypeName(t) + "_" + experiment + "_dev.sql"
  }

  function PredictedSqlFallbackPath(t: ModelType, experiment: string): string
  {
    "model_output/t5_" + ModelTypeName(t) + "_" + experiment + "_dev.sql"
  }

  function ModelRecordPath(t: ModelType, experiment: string): string
  {
    "records/t5_" + ModelTypeName(t) + "_" + experiment + "_dev.pkl"
  }

  function ModelRecordFallbackPath(t: ModelType, experiment: string): string
  {
    "model_output/t5_" + ModelTypeName(t) + "_" + experiment + "_dev.pkl"
  }

  const GoldRecordPath := "records/ground_truth_dev.pkl"

  /** The primary path when it exists, else the fallback when that exists. */
  function FirstExisting(fs: Fs, primary: string, fallback: string): (r: Option<string>)
    ensures r.Some? ==> Exists(fs, r.value) && (r.value == primary || r.value == fallback)
    ensures r.None? <==> !Exists(fs, primary) && !Exists(fs, fallback)
    ensures Exists(fs, primary) ==> r == Some(primary)
  {
    if Exists(fs, primary) then Some(primary)
    else if Exists(fs, fallback) then Some(fallback)
    else None
  }

  /** Where the run reads its inputs from. */
  datatype Sources = Sources(predictedSql: string, modelRecords: Option<string>, goldRecordsCached: bool)

  /** The lookups before any comparison: without predicted SQL at either
      location the run stops and writes nothing. */
  function LocateSources(fs: Fs, t: ModelType, experiment: string): (r: Option<Sources>)
    ensures r.None? <==>
      !Exists(fs, PredictedSqlPath(t, experiment)) && !Exists(fs, PredictedSqlFallbackPath(t, experiment))
    ensures r.Some? ==> Exists(fs, r.value.predictedSql)
    ensures r.Some? ==>
      Some(r.value.predictedSql) == FirstExisting(fs, PredictedSqlPath(t, experiment), PredictedSqlFallbackPath(t, experiment))
    ensures r.Some? ==>
      r.value.modelRecords == FirstExisting(fs, ModelRecordPath(t, experiment), ModelRecordFallbackPath(t, experiment))
    ensures Exists(fs, PredictedSqlPath(t, experiment)) ==> r.Some? && r.value.predictedSql == PredictedSqlPath(t, experiment)
    ensures r.Some? ==> r.value.goldRecordsCached == Exists(fs, GoldRecordPath)
    ensures r.Some? && r.value.modelRecords.Some? ==> Exists(fs, r.value.modelRecords.value)
    ensures r.Some? && Exists(fs, ModelRecordPath(t, experiment)) ==>
      r.value.modelRecords == Some(ModelRecordPath(t, experiment))
  {
    match FirstExisting(fs, PredictedSqlPath(t, experiment), PredictedSqlFallbackPath(t, experiment))
    case None => None
    case Some(sql) =>
      Some(Sources(sql,
                   FirstExisting(fs, ModelRecordPath(t, experiment), ModelRecordFallbackPath(t, experiment)),
                   Exists(fs, GoldRecordPath)))
  }

  // ---------------------------------------------------------------------
  // The aligned inputs and the classification of each index
  // ---------------------------------------------------------------------

  /** Everything the comparison reads, index by index. The record and error
      lists are `None` when their cache file was not found. */
  datatype Inputs = Inputs(
    nl: seq<string>,
    gold: seq<string>,
    predicted: seq<string>,
    goldRecords: Option<seq<Records>>,
    modelRecords: Option<seq<Records>>,
    errorMsgs: Option<seq<Option<string>>>)

  /** The length assertions: a list that is absent or empty is not checked. */
  predicate LengthsAgree(inp: Inputs)
  {
    && |inp.nl| == |inp.gold| == |inp.predicted|
    && (Truthy(inp.goldRecords) ==> |inp.goldRecords.value| == |inp.nl|)
    && (Truthy(inp.modelRecords) ==> |inp.modelRecords.value| == |inp.predicted|)
    && (Truthy(inp.errorMsgs) ==> |inp.errorMsgs.value| == |inp.predicted|)
  }

  /** Records are compared only when both record lists are non-empty;
      otherwise the SQL strings are compared. */
  predicate RecordMode(inp: Inputs)
  {
    Truthy(inp.goldRecords) && Truthy(inp.modelRecords)
  }

  /** A message that is present and not blank reports an execution error. */
  predicate HasError(msg: Option<string>)
  {
    msg.Some? && Strip(msg.value) != ""
  }

  predicate ErrorAt(inp: Inputs, i: nat)
    requires LengthsAgree(inp) && i < |inp.nl|
  {
    Truthy(inp.errorMsgs) && HasError(inp.errorMsgs.value[i])
  }

  /** Equality of two fetched values as the tuple comparison sees it: an
      integer equals the real number of the same value, and otherwise the
      values must be the same. */
  predicate SameValue(a: Value, b: Value)
  {
    match (a, b)
    case (IntValue(i), RealValue(x)) => i as real == x
    case (RealValue(x), IntValue(i)) => i as real == x
    case _ => a == b
  }

  /** The representative of a value's equality class: a real with no
      fractional part becomes the integer of the same value. */
  function Normalize(v: Value): Value
  {
    match v
    case RealValue(x) => if x.Floor as real == x then IntValue(x.Floor) else v
    case _ => v
  }

  /** Two values have the same representative exactly when they are equal. */
  lemma NormalizeDecidesSameValue(a: Value, b: Value)
    ensures Normalize(a) == Normalize(b) <==> SameValue(a, b)
  {
    match (a, b)
    case (IntValue(i), RealValue(x)) =>
      if i as real == x {
        assert x.Floor == i;
      }
    case (RealValue(x), IntValue(i)) =>
      if i as real == x {
        assert x.Floor == i;
      }
    case (RealValue(x), RealValue(y)) =>
    case _ =>
  }

  function NormalizeRow(row: Row): (r: Row)
    ensures |r| == |row|
    ensures forall c :: 0 <= c < |row| ==> r[c] == Normalize(row[c])
  {
    seq(|row|, c requires 0 <= c < |row| => Normalize(row[c]))
  }

  /** Rows are equal when they have the same length and equal values
      column by column. */
  predicate SameRow(a: Row, b: Row)
  {
    |a| == |b| && forall c :: 0 <= c < |a| ==> SameValue(a[c], b[c])
  }

  lemma NormalizeRowDecidesSameRow(a: Row, b: Row)
    ensures NormalizeRow(a) == NormalizeRow(b) <==> SameRow(a, b)
  {
    forall c | 0 <= c < |a| && c < |b| ensures Normalize(a[c]) == Normalize(b[c]) <==> SameValue(a[c], b[c]) {
      NormalizeDecidesSameValue(a[c], b[c]);
    }
    if |a| == |b| && SameRow(a, b) {
      assert forall c :: 0 <= c < |a| ==> NormalizeRow(a)[c] == NormalizeRow(b)[c];
    }
  }

  /** The rows of one example as a set of tuples, each tuple taken up to
      value equality; absent or empty records give the empty set. */
  function RowSet(rec: Records): set<Row>
  {
    if Truthy(rec) then set row | row in rec.value :: NormalizeRow(row) else {}
  }

  /** Whether index `i` belongs in the mismatch list. */
  predicate MismatchAt(inp: Inputs, i: nat)
    requires LengthsAgree(inp) && i < |inp.nl|
  {
    if RecordMode(inp) then
      !ErrorAt(inp, i) && RowSet(inp.goldRecords.value[i]) != RowSet(inp.modelRecords.value[i])
    else
      Strip(inp.gold[i]) != Strip(inp.predicted[i])
  }

  datatype Mismatch = Mismatch(index: nat, nl: string, gold: string, predicted: string,
                               goldRecords: Records, predictedRecords: Records)

  function MismatchEntry(inp: Inputs, i: nat): Mismatch
    requires LengthsAgree(inp) && i < |inp.nl|
  {
    if RecordMode(inp) then
      Mismatch(i, inp.nl[i], inp.gold[i], inp.predicted[i], inp.goldRecords.value[i], inp.modelRecords.value[i])
    else
      Mismatch(i, inp.nl[i], inp.gold[i], inp.predicted[i], None, None)
  }

  /** The mismatch list after the first `k` indices have been examined. */
  function Mismatches(inp: Inputs, k: nat): (ms: seq<Mismatch>)
    requires LengthsAgree(inp) && k <= |inp.nl|
    ensures |ms| <= k
  {
    if k == 0 then []
    else Mismatches(inp, k - 1) + (if MismatchAt(inp, k - 1) then [MismatchEntry(inp, k - 1)] else [])
  }

  datatype ErrorQuery = ErrorQuery(index: nat, nl: string, gold: string, predicted: string, message: string)

  /** The error list after the first `k` indices have been examined. */
  function ErrorQueries(inp: Inputs, k: nat): (es: seq<ErrorQuery>)
    requires LengthsAgree(inp) && k <= |inp.nl|
    ensures |es| <= k
  {
    if k == 0 then []
    else (
      ErrorQueries(inp, k - 1)
      + (if ErrorAt(inp, k - 1)
         then [ErrorQuery(k - 1, inp.nl[k - 1], inp.gold[k - 1], inp.predicted[k - 1], inp.errorMsgs.value[k - 1].value)]
         else []))
  }

  function MismatchIndices(ms: seq<Mismatch>): seq<nat>
  {
    seq(|ms|, j requires 0 <= j < |ms| => ms[j].index)
  }

  function ErrorIndices(es: seq<ErrorQuery>): seq<nat>
  {
    seq(|es|, j requires 0 <= j < |es| => es[j].index)
  }

  predicate StrictlyIncreasing(xs: seq<nat>)
  {
    forall a, b :: 0 <= a < b < |xs| ==> xs[a] < xs[b]
  }

  // ---------------------------------------------------------------------
  // The run
  // ---------------------------------------------------------------------

  datatype Mode = RecordComparison | SqlComparison

  datatype Report = Report(
    mode: Mode,
    total: nat,
    mismatches: seq<Mismatch>,
    errors: seq<ErrorQuery>,
    matchRate: Ratio,
    errorRate: Option<Ratio>)

  /** `LengthMismatch` is the failed assertion; `ZeroDivision` is the match
      rate of an empty split. */
  datatype RunError = LengthMismatch | ZeroDivision

  /** The classification and the rates the run prints. */
  method Classify(inp: Inputs) returns (res: Result<Report, RunError>)
    ensures !LengthsAgree(inp) <==> res == Err(LengthMismatch)
    ensures LengthsAgree(inp) && |inp.nl| == 0 ==> res == Err(ZeroDivision)
    ensures LengthsAgree(inp) && |inp.nl| > 0 ==>
      var n := |inp.nl|;
      && res.Ok?
      && res.value.mode == (if RecordMode(inp) then RecordComparison else SqlComparison)
      && res.value.total == n
      && res.value.mismatches == Mismatches(inp, n)
      && res.value.errors == ErrorQueries(inp, n)
      && res.value.matchRate == Ratio(n - |Mismatches(inp, n)|, n)
      && res.value.errorRate == (if Truthy(inp.errorMsgs) then Some(Ratio(|ErrorQueries(inp, n)|, n)) else None)
  {
    var n := |inp.nl|;
    if !(n == |inp.gold| && |inp.gold| == |inp.predicted|) {
      return Err(LengthMismatch);
    }
    if inp.goldRecords.Some? && |inp.goldRecords.value| > 0 && |inp.goldRecords.value| != n {
      return Err(LengthMismatch);
    }
    if inp.modelRecords.Some? && |inp.modelRecords.value| > 0 && |inp.modelRecords.value| != n {
      return Err(LengthMismatch);
    }
    if inp.errorMsgs.Some? && |inp.errorMsgs.value| > 0 && |inp.errorMsgs.value| != n {
      return Err(LengthMismatch);
    }
    var haveErrors := inp.errorMsgs.Some? && |inp.errorMsgs.value| > 0;
    var recordMode := inp.goldRecords.Some? && |inp.goldRecords.value| > 0
                      && inp.modelRecords.Some? && |inp.modelRecords.value| > 0;

    var mismatches: seq<Mismatch>;
    if recordMode {
      mismatches := CompareRecords(inp);
    } else {
      mismatches := CompareSql(inp);
    }
    var errors: seq<ErrorQuery> := [];
    if haveErrors {
      errors := CollectErrors(inp);
    } else {
      NoErrorsWithoutMessages(inp, n);
    }

    if n == 0 {
      return Err(ZeroDivision);
    }
    var errorRate := if haveErrors then Some(Ratio(|errors|, n)) else None;
    res := Ok(Report(if recordMode then RecordComparison else SqlComparison,
                     n, mismatches, errors, Ratio(n - |mismatches|, n), errorRate));
  }

  /** The record comparison loop: errored indices are skipped, the others
      compared as row sets. */
  method CompareRecords(inp: Inputs) returns (mismatches: seq<Mismatch>)
    requires LengthsAgree(inp) && RecordMode(inp)
    ensures mismatches == Mismatches(inp, |inp.nl|)
  {
    var n := |inp.nl|;
    var haveErrors := inp.errorMsgs.Some? && |inp.errorMsgs.value| > 0;
    mismatches := [];
    var i := 0;
    while i < n
      invariant 0 <= i <= n
      invariant mismatches == Mismatches(inp, i)
    {
      if haveErrors && inp.errorMsgs.value[i].Some? && Strip(inp.errorMsgs.value[i].value) != "" {
        i := i + 1;
        continue;
      }
      var goldRec := inp.goldRecords.value[i];
      var predRec := inp.modelRecords.value[i];
      if RowSet(goldRec) != RowSet(predRec) {
        mismatches := mismatches + [Mismatch(i, inp.nl[i], inp.gold[i], inp.predicted[i], goldRec, predRec)];
      }
      i := i + 1;
    }
  }

  /** The fallback loop: stripped SQL strings are compared. */
  method CompareSql(inp: Inputs) returns (mismatches: seq<Mismatch>)
    requires LengthsAgree(inp) && !RecordMode(inp)
    ensures mismatches == Mismatches(inp, |inp.nl|)
  {
    var n := |inp.nl|;
    mismatches := [];
    var i := 0;
    while i < n
      invariant 0 <= i <= n
      invariant mismatches == Mismatches(inp, i)
    {
      if Strip(inp.gold[i]) != Strip(inp.predicted[i]) {
        mismatches := mismatches + [Mismatch(i, inp.nl[i], inp.gold[i], inp.predicted[i], None, None)];
      }
      i := i + 1;
    }
  }

  /** The error loop: every index with a non-blank message. */
  method CollectErrors(inp: Inputs) returns (errors: seq<ErrorQuery>)
    requires LengthsAgree(inp) && Truthy(inp.errorMsgs)
    ensures errors == ErrorQueries(inp, |inp.nl|)
  {
    var n := |inp.nl|;
    errors := [];
    var j := 0;
    while j < n
      invariant 0 <= j <= n
      invariant errors == ErrorQueries(inp, j)
    {
      var msg := inp.errorMsgs.value[j];
      if msg.Some? && Strip(msg.value) != "" {
        errors := errors + [ErrorQuery(j, inp.nl[j], inp.gold[j], inp.predicted[j], msg.value)];
      }
      j := j + 1;
    }
  }

  // ---------------------------------------------------------------------
  // What the lists contain
  // ---------------------------------------------------------------------

  /** Every entry of the mismatch list is a mismatching index below `k`,
      with that index's fields. */
  lemma {:induction false} MismatchesSound(inp: Inputs, k: nat)
    requires LengthsAgree(inp) && k <= |inp.nl|
    ensures forall j :: 0 <= j < |Mismatches(inp, k)| ==>
      var m := Mismatches(inp, k)[j];
      m.index < k && MismatchAt(inp, m.index) && m == MismatchEntry(inp, m.index)
  {
    if k > 0 {
      MismatchesSound(inp, k - 1);
    }
  }

  /** Every mismatching index below `k` is in the list. */
  lemma {:induction false} MismatchesComplete(inp: Inputs, k: nat, i: nat)
    requires LengthsAgree(inp) && i < k <= |inp.nl| && MismatchAt(inp, i)
    ensures exists j :: 0 <= j < |Mismatches(inp, k)| && Mismatches(inp, k)[j].index == i
  {
    var prev := Mismatches(inp, k - 1);
    if i == k - 1 {
      assert Mismatches(inp, k)[|prev|].index == i;
    } else {
      MismatchesComplete(inp, k - 1, i);
      var j :| 0 <= j < |prev| && prev[j].index == i;
      assert Mismatches(inp, k)[j] == prev[j];
    }
  }

  /** The mismatch list is in ascending index order, so no index repeats. */
  lemma {:induction false} MismatchesAscending(inp: Inputs, k: nat)
    requires LengthsAgree(inp) && k <= |inp.nl|
    ensures forall a, b :: 0 <= a < b < |Mismatches(inp, k)| ==> Mismatches(inp, k)[a].index < Mismatches(inp, k)[b].index
  {
    if k > 0 {
      MismatchesAscending(inp, k - 1);
      MismatchesSound(inp, k - 1);
    }
  }

  /** The mismatch list holds each mismatching index once, in ascending
      order, with that index's fields. */
  lemma MismatchesExact(inp: Inputs, k: nat)
    requires LengthsAgree(inp) && k <= |inp.nl|
    ensures var ms := Mismatches(inp, k);
      && StrictlyIncreasing(MismatchIndices(ms))
      && (forall i: nat :: i in MismatchIndices(ms) <==> i < k && MismatchAt(inp, i))
      && (forall j :: 0 <= j < |ms| ==> ms[j].index < k && ms[j] == MismatchEntry(inp, ms[j].index))
  {
    var ms := Mismatches(inp, k);
    MismatchesSound(inp, k);
    MismatchesAscending(inp, k);
    forall i: nat | i < k && MismatchAt(inp, i) ensures i in MismatchIndices(ms) {
      MismatchesComplete(inp, k, i);
      var j :| 0 <= j < |ms| && ms[j].index == i;
      assert MismatchIndices(ms)[j] == i;
    }
  }

  /** Every entry of the error list is an index below `k` with a non-blank
      message, and the entries ascend. */
  lemma {:induction false} ErrorQueriesSound(inp: Inputs, k: nat)
    requires LengthsAgree(inp) && k <= |inp.nl|
    ensures forall j :: 0 <= j < |ErrorQueries(inp, k)| ==>
      var e := ErrorQueries(inp, k)[j];
      && e.index < k && ErrorAt(inp, e.index) && HasError(Some(e.message))
      && e == ErrorQuery(e.index, inp.nl[e.index], inp.gold[e.index], inp.predicted[e.index],
                         inp.errorMsgs.value[e.index].value)
    ensures forall a, b :: 0 <= a < b < |ErrorQueries(inp, k)| ==> ErrorQueries(inp, k)[a].index < ErrorQueries(inp, k)[b].index
  {
    if k > 0 {
      ErrorQueriesSound(inp, k - 1);
    }
  }

  /** Every index below `k` with a non-blank message is in the list. */
  lemma {:induction false} ErrorQueriesComplete(inp: Inputs, k: nat, i: nat)
    requires LengthsAgree(inp) && i < k <= |inp.nl| && ErrorAt(inp, i)
    ensures exists j :: 0 <= j < |ErrorQueries(inp, k)| && ErrorQueries(inp, k)[j].index == i
  {
    var prev := ErrorQueries(inp, k - 1);
    if i == k - 1 {
      assert ErrorQueries(inp, k)[|prev|].index == i;
    } else {
      ErrorQueriesComplete(inp, k - 1, i);
      var j :| 0 <= j < |prev| && prev[j].index == i;
      assert ErrorQueries(inp, k)[j] == prev[j];
    }
  }

  /** The error list holds each index with a non-blank message once, in
      ascending order. */
  lemma ErrorQueriesExact(inp: Inputs, k: nat)
    requires LengthsAgree(inp) && k <= |inp.nl|
    ensures var es := ErrorQueries(inp, k);
      && StrictlyIncreasing(ErrorIndices(es))
      && (forall i: nat :: i in ErrorIndices(es) <==> i < k && ErrorAt(inp, i))
  {
    var es := ErrorQueries(inp, k);
    ErrorQueriesSound(inp, k);
    forall i: nat | i < k && ErrorAt(inp, i) ensures i in ErrorIndices(es) {
      ErrorQueriesComplete(inp, k, i);
      var j :| 0 <= j < |es| && es[j].index == i;
      assert ErrorIndices(es)[j] == i;
    }
  }

  lemma {:induction false} NoErrorsWithoutMessages(inp: Inputs, k: nat)
    requires LengthsAgree(inp) && k <= |inp.nl| && !Truthy(inp.errorMsgs)
    ensures ErrorQueries(inp, k) == []
  {
    if k > 0 {
      NoErrorsWithoutMessages(inp, k - 1);
    }
  }

  /** With records, an index whose predicted SQL failed is never a record
      mismatch. */
  lemma ErroredIndexNotRecordMismatch(inp: Inputs, i: nat)
    requires LengthsAgree(inp) && RecordMode(inp) && i < |inp.nl| && ErrorAt(inp, i)
    ensures i !in MismatchIndices(Mismatches(inp, |inp.nl|))
  {
    MismatchesExact(inp, |inp.nl|);
  }

  /** With records, an index without an error is a mismatch exactly when its
      two row sets differ. */
  lemma RecordMismatchIffRowSetsDiffer(inp: Inputs, i: nat)
    requires LengthsAgree(inp) && RecordMode(inp) && i < |inp.nl| && !ErrorAt(inp, i)
    ensures i in MismatchIndices(Mismatches(inp, |inp.nl|))
        <==> RowSet(inp.goldRecords.value[i]) != RowSet(inp.modelRecords.value[i])
  {
    MismatchesExact(inp, |inp.nl|);
  }

  /** Without records, an index is a mismatch exactly when the stripped SQL
      strings differ, and no entry carries records. */
  lemma FallbackComparesStrippedSql(inp: Inputs, i: nat)
    requires LengthsAgree(inp) && !RecordMode(inp) && i < |inp.nl|
    ensures i in MismatchIndices(Mismatches(inp, |inp.nl|)) <==> Strip(inp.gold[i]) != Strip(inp.predicted[i])
    ensures forall m :: m in Mismatches(inp, |inp.nl|) ==> m.goldRecords.None? && m.predictedRecords.None?
  {
    MismatchesExact(inp, |inp.nl|);
  }

  /** With records, no index is both a mismatch and an error, so the match
      rate's numerator counts every errored index as a match. */
  lemma {:induction false} MismatchesAndErrorsWithinTotal(inp: Inputs, k: nat)
    requires LengthsAgree(inp) && k <= |inp.nl|
    ensures |Mismatches(inp, k)| <= k
    ensures RecordMode(inp) ==> |Mismatches(inp, k)| + |ErrorQueries(inp, k)| <= k
  {
    if k > 0 {
      MismatchesAndErrorsWithinTotal(inp, k - 1);
    }
  }

  // ---------------------------------------------------------------------
  // Comparing records
  // ---------------------------------------------------------------------

  /** Absent records and an empty list compare as the same empty set. */
  lemma AbsentRecordsAreEmpty()
    ensures RowSet(None) == {} && RowSet(Some([])) == {}
  {
  }

  /** Reordering the rows does not change the row set. */
  lemma RowSetIgnoresOrder(a: seq<Row>, b: seq<Row>)
    requires multiset(a) == multiset(b)
    ensures RowSet(Some(a)) == RowSet(Some(b))
  {
    forall row ensures row in a <==> row in b {
      assert row in a <==> row in multiset(a);
      assert row in b <==> row in multiset(b);
    }
  }

  /** Two row lists compare equal exactly when every row of each has an
      equal row in the other. */
  lemma RowSetsEqualIffSameRows(a: seq<Row>, b: seq<Row>)
    ensures RowSet(Some(a)) == RowSet(Some(b)) <==>
      (forall x :: x in a ==> exists y :: y in b && SameRow(x, y))
      && (forall y :: y in b ==> exists x :: x in a && SameRow(x, y))
  {
    forall x, y ensures NormalizeRow(x) == NormalizeRow(y) <==> SameRow(x, y) {
      NormalizeRowDecidesSameRow(x, y);
    }
    if RowSet(Some(a)) == RowSet(Some(b)) {
      forall x | x in a ensures exists y :: y in b && SameRow(x, y) {
        assert NormalizeRow(x) in RowSet(Some(b));
      }
      forall y | y in b ensures exists x :: x in a && SameRow(x, y) {
        assert NormalizeRow(y) in RowSet(Some(a));
      }
    }
  }

  /** An integer column and a real column of the same value compare equal. */
  lemma IntegralRealRowMatchesInt(n: int)
    ensures RowSet(Some([[IntValue(n)]])) == RowSet(Some([[RealValue(n as real)]]))
  {
    assert NormalizeRow([RealValue(n as real)]) == [IntValue(n)];
    assert NormalizeRow([IntValue(n)]) == [IntValue(n)];
    assert RowSet(Some([[IntValue(n)]])) == {[IntValue(n)]};
    assert RowSet(Some([[RealValue(n as real)]])) == {[IntValue(n)]};
  }

  /** Repeating a row does not change the row set. */
  lemma RowSetIgnoresDuplicates(a: seq<Row>, k: nat)
    requires k < |a|
    ensures RowSet(Some(a + [a[k]])) == RowSet(Some(a))
  {
    assert forall row :: row in a + [a[k]] <==> row in a;
  }

  // ---------------------------------------------------------------------
  // Row previews in the reports
  // ---------------------------------------------------------------------

  /** Rows shown per side in the saved report and on the console. */
  const FileReportRows: nat := 10
  const ConsoleRows: nat := 5

  datatype PreviewLine = RowLine(row: Row) | MoreRows(count: nat) | EmptyMarker

  /** The row count in the heading and the lines below it. */
  datatype Preview = Preview(count: nat, lines: seq<PreviewLine>)

  /** The preview of `rec` at most `limit` rows long: the first rows in
      order, then a line counting the rows left out; "(empty)" alone for
      absent or empty records. */
  predicate IsPreviewOf(p: Preview, rec: Records, limit: nat)
  {
    && p.count == (if rec.Some? then |rec.value| else 0)
    && (!Truthy(rec) ==> p.lines == [EmptyMarker])
    && (Truthy(rec) ==>
          var n := |rec.value|;
          && |p.lines| == Min(n, limit) + (if n > limit then 1 else 0)
          && (forall j :: 0 <= j < Min(n, limit) ==> p.lines[j] == RowLine(rec.value[j]))
          && (n > limit ==> p.lines[limit] == MoreRows(n - limit)))
  }

  method RenderPreview(rec: Records, limit: nat) returns (p: Preview)
    ensures IsPreviewOf(p, rec, limit)
  {
    var count := if rec.Some? && |rec.value| > 0 then |rec.value| else 0;
    if !(rec.Some? && |rec.value| > 0) {
      return Preview(count, [EmptyMarker]);
    }
    var rows := rec.value;
    var shown := if |rows| < limit then |rows| else limit;
    var lines: seq<PreviewLine> := [];
    var j := 0;
    while j < shown
      invariant 0 <= j <= shown
      invariant |lines| == j
      invariant forall t :: 0 <= t < j ==> lines[t] == RowLine(rows[t])
    {
      lines := lines + [RowLine(rows[j])];
      j := j + 1;
    }
    if |rows| > limit {
      lines := lines + [MoreRows(|rows| - limit)];
    }
    p := Preview(count, lines);
  }

  /** One example of the mismatch report; previews only when records were
      compared. */
  datatype Entry = Entry(ordinal: nat, index: nat, nl: string, gold: string, predicted: string,
                         goldPreview: Option<Preview>, predictedPreview: Option<Preview>)

  /** The report body, numbered from 1 in list order, with previews of at
      most `limit` rows. */
  method RenderMismatches(r: Report, limit: nat) returns (entries: seq<Entry>)
    ensures |entries| == |r.mismatches|
    ensures forall k :: 0 <= k < |entries| ==>
      var e, m := entries[k], r.mismatches[k];
      && e.ordinal == k + 1 && e.index == m.index
      && e.nl == m.nl && e.gold == m.gold && e.predicted == m.predicted
      && (e.goldPreview.Some? <==> r.mode == RecordComparison)
      && (e.predictedPreview.Some? <==> r.mode == RecordComparison)
      && (e.goldPreview.Some? ==> IsPreviewOf(e.goldPreview.value, m.goldRecords, limit))
      && (e.predictedPreview.Some? ==> IsPreviewOf(e.predictedPreview.value, m.predictedRecords, limit))
  {
    entries := [];
    var k := 0;
    while k < |r.mismatches|
      invariant 0 <= k <= |r.mismatches|
      invariant |entries| == k
      invariant forall t :: 0 <= t < k ==>
        var e, m := entries[t], r.mismatches[t];
        && e.ordinal == t + 1 && e.index == m.index
        && e.nl == m.nl && e.gold == m.gold && e.predicted == m.predicted
        && (e.goldPreview.Some? <==> r.mode == RecordComparison)
        && (e.predictedPreview.Some? <==> r.mode == RecordComparison)
        && (e.goldPreview.Some? ==> IsPreviewOf(e.goldPreview.value, m.goldRecords, limit))
        && (e.predictedPreview.Some? ==> IsPreviewOf(e.predictedPreview.value, m.predictedRecords, limit))
    {
      var m := r.mismatches[k];
      var goldPreview: Option<Preview> := None;
      var predPreview: Option<Preview> := None;
      if r.mode == RecordComparison {
        var g := RenderPreview(m.goldRecords, limit);
        var p := RenderPreview(m.predictedRecords, limit);
        goldPreview, predPreview := Some(g), Some(p);
      }
      entries := entries + [Entry(k + 1, m.index, m.nl, m.gold, m.predicted, goldPreview, predPreview)];
      k := k + 1;
    }
  }

  /** The console preview is the first lines of the file preview: both show
      the same leading rows. */
  lemma ConsolePreviewIsPrefix(file: Preview, console: Preview, rec: Records)
    requires IsPreviewOf(file, rec, FileReportRows) && IsPreviewOf(console, rec, ConsoleRows)
    ensures file.count == console.count
    ensures Truthy(rec) ==> forall j :: 0 <= j < Min(|rec.value|, ConsoleRows) ==> console.lines[j] == file.lines[j]
  {
  }
}
