/** The test2 evaluation driver: which experiments to evaluate, the gold
    record cache, the names derived for each experiment, the decoder's start
    token, the inference batches and the per-experiment error rate. */
module EvaluateTest2 {
  import opened Common
  import opened FileSystem
  import LoadData
  import FindMismatches
  import T5Utils

  // ---------------------------------------------------------------------
  // Error rate
  // ---------------------------------------------------------------------

  /** `sum(1 for msg in error_msgs if msg != "")`. */
  function CountNonEmpty(msgs: seq<string>): (n: nat)
    ensures n <= |msgs|
  {
    if |msgs| == 0 then 0
    else CountNonEmpty(msgs[..|msgs| - 1]) + (if msgs[|msgs| - 1] != "" then 1 else 0)
  }

  /** The positions holding a non-empty message. */
  function NonEmptyIndices(msgs: seq<string>): set<nat>
  {
    set i: nat | i < |msgs| && msgs[i] != ""
  }

  /** The count is the number of positions with a non-empty message. */
  lemma {:induction false} CountNonEmptyIsCardinality(msgs: seq<string>)
    ensures CountNonEmpty(msgs) == |NonEmptyIndices(msgs)|
  {
    if |msgs| > 0 {
      var n := |msgs| - 1;
      var init := msgs[..n];
      CountNonEmptyIsCardinality(init);
      assert forall i: nat :: i < n ==> init[i] == msgs[i];
      if msgs[n] != "" {
        assert NonEmptyIndices(msgs) == NonEmptyIndices(init) + {n};
      } else {
        assert NonEmptyIndices(msgs) == NonEmptyIndices(init);
      }
    }
  }

  /** The error rate: non-empty messages over all messages, and 0 when the
      list is empty or absent. */
  function ErrorRate(msgs: Option<seq<string>>): (r: Ratio)
    ensures !Truthy(msgs) ==> r == Ratio(0, 1)
    ensures Truthy(msgs) ==> r == Ratio(|NonEmptyIndices(msgs.value)|, |msgs.value|)
    ensures Truthy(msgs) ==> r.den == |msgs.value| > 0 && r.num <= r.den
  {
    if Truthy(msgs) then
      CountNonEmptyIsCardinality(msgs.value);
      Ratio(CountNonEmpty(msgs.value), |msgs.value|)
    else Ratio(0, 1)
  }

  /** Unlike the mismatch report, no message is stripped here: every message
      the report counts as an error is counted here too, and a message of
      blanks only is counted here but not there. */
  lemma ErrorRateCountsUnstripped(msgs: seq<string>)
    ensures forall i: nat :: i < |msgs| && FindMismatches.HasError(Some(msgs[i])) ==> i in NonEmptyIndices(msgs)
    ensures forall i: nat :: i < |msgs| && msgs[i] == " " ==> i in NonEmptyIndices(msgs) && !FindMismatches.HasError(Some(msgs[i]))
  {
    assert Strip(" ") == "" by {
      assert IsSpace(' ');
      assert TrimStart(" ") == TrimStart(""[..]);
    }
  }

  // ---------------------------------------------------------------------
  // Experiments
  // ---------------------------------------------------------------------

  datatype ExperimentKind = FtExperiments | ScrExperiments

  /** The directory under the checkpoint root holding one kind of experiment. */
  function KindDir(k: ExperimentKind): string
  {
    match k
    case FtExperiments => "ft_experiments"
    case ScrExperiments => "scr_experiments"
  }

  /** The kinds in the order they are searched: fine-tuned first. */
  const Kinds: seq<ExperimentKind> := [FtExperiments, ScrExperiments]

  datatype Experiment = Experiment(kind: ExperimentKind, name: string)

  function ExperimentDir(base: string, k: ExperimentKind, name: string): string
  {
    Join(Join(base, KindDir(k)), name)
  }

  function BestModelPath(base: string, k: ExperimentKind, name: string): string
  {
    Join(ExperimentDir(base, k, name), "best_model.pt")
  }

  /** The file checked for is the one the best-checkpoint load reads. */
  lemma BestModelIsBestCheckpoint(base: string, k: ExperimentKind, name: string)
    ensures BestModelPath(base, k, name) == T5Utils.CheckpointPath(ExperimentDir(base, k, name), true)
  {
  }

  /** A directory entry of a kind directory that is a directory holding a
      best checkpoint. */
  predicate HasCheckpoint(fs: Fs, base: string, k: ExperimentKind, name: string)
  {
    IsDir(fs, ExperimentDir(base, k, name)) && Exists(fs, BestModelPath(base, k, name))
  }

  /** `os.listdir` of a kind directory: nothing when it does not exist, an
      error when it is not a directory. */
  function Listing(fs: Fs, base: string, k: ExperimentKind): Result<seq<string>, FsError>
  {
    var dir := Join(base, KindDir(k));
    if !Exists(fs, dir) then Ok([])
    else if IsDir(fs, dir) then Ok(fs.dirs[dir])
    else Err(NotADirectory(dir))
  }

  /** The entries of one listing that hold a best checkpoint, in listing order. */
  function WithCheckpoint(fs: Fs, base: string, k: ExperimentKind, names: seq<string>): (r: seq<Experiment>)
    ensures |r| <= |names|
  {
    if |names| == 0 then []
    else
      var name := names[|names| - 1];
      WithCheckpoint(fs, base, k, names[..|names| - 1])
      + (if HasCheckpoint(fs, base, k, name) then [Experiment(k, name)] else [])
  }

  /** `find_experiments(base_dir)`. */
  function Experiments(fs: Fs, base: string): (r: Result<seq<Experiment>, FsError>)
    ensures !Exists(fs, base) ==> r == Ok([])
    ensures r.Err? <==> Exists(fs, base) && (Listing(fs, base, FtExperiments).Err? || Listing(fs, base, ScrExperiments).Err?)
    ensures r.Err? ==>
      r.error == (if Listing(fs, base, FtExperiments).Err? then Listing(fs, base, FtExperiments).error
                  else Listing(fs, base, ScrExperiments).error)
    ensures r.Err? ==> r.error == NotADirectory(Join(base, KindDir(FtExperiments)))
                       || r.error == NotADirectory(Join(base, KindDir(ScrExperiments)))
    ensures r.Ok? && Exists(fs, base) ==>
      |r.value| <= |Listing(fs, base, FtExperiments).value| + |Listing(fs, base, ScrExperiments).value|
  {
    if !Exists(fs, base) then Ok([])
    else
      var ft :- Listing(fs, base, FtExperiments);
      var scr :- Listing(fs, base, ScrExperiments);
      Ok(WithCheckpoint(fs, base, FtExperiments, ft) + WithCheckpoint(fs, base, ScrExperiments, scr))
  }

  /** `find_experiments` with its nested loops. */
  method FindExperiments(fs: Fs, base: string) returns (r: Result<seq<Experiment>, FsError>)
    ensures r == Experiments(fs, base)
  {
    var experiments: seq<Experiment> := [];
    if !Exists(fs, base) {
      return Ok(experiments);
    }
    var t := 0;
    while t < |Kinds|
      invariant 0 <= t <= 2
      invariant t >= 1 ==> Listing(fs, base, FtExperiments).Ok?
      invariant t == 0 ==> experiments == []
      invariant t == 1 ==> experiments == WithCheckpoint(fs, base, FtExperiments, Listing(fs, base, FtExperiments).value)
      invariant t == 2 ==> Listing(fs, base, ScrExperiments).Ok?
      invariant t == 2 ==> experiments == WithCheckpoint(fs, base, FtExperiments, Listing(fs, base, FtExperiments).value)
                                          + WithCheckpoint(fs, base, ScrExperiments, Listing(fs, base, ScrExperiments).value)
    {
      var k := Kinds[t];
      var typeDir := Join(base, KindDir(k));
      if Exists(fs, typeDir) {
        if !IsDir(fs, typeDir) {
          return Err(NotADirectory(typeDir));
        }
        experiments := ScanKind(fs, base, k, fs.dirs[typeDir], experiments);
      }
      t := t + 1;
    }
    r := Ok(experiments);
  }

  /** The inner loop over one kind directory's entries. */
  method ScanKind(fs: Fs, base: string, k: ExperimentKind, names: seq<string>, acc: seq<Experiment>)
    returns (experiments: seq<Experiment>)
    ensures experiments == acc + WithCheckpoint(fs, base, k, names)
  {
    experiments := acc;
    var i := 0;
    while i < |names|
      invariant 0 <= i <= |names|
      invariant experiments == acc + WithCheckpoint(fs, base, k, names[..i])
    {
      var name := names[i];
      assert names[..i + 1][..i] == names[..i];
      if IsDir(fs, ExperimentDir(base, k, name)) && Exists(fs, BestModelPath(base, k, name)) {
        experiments := experiments + [Experiment(k, name)];
      }
      i := i + 1;
    }
    assert names[..|names|] == names;
  }

  /** An entry is found for a listing exactly when it is listed and holds a
      best checkpoint. */
  lemma {:induction false} WithCheckpointMembers(fs: Fs, base: string, k: ExperimentKind, names: seq<string>, e: Experiment)
    ensures e in WithCheckpoint(fs, base, k, names) <==> e.kind == k && e.name in names && HasCheckpoint(fs, base, k, e.name)
  {
    if |names| > 0 {
      var init := names[..|names| - 1];
      WithCheckpointMembers(fs, base, k, init, e);
      assert names == init + [names[|names| - 1]];
    }
  }

  lemma {:induction false} WithCheckpointOfKind(fs: Fs, base: string, k: ExperimentKind, names: seq<string>)
    ensures forall i :: 0 <= i < |WithCheckpoint(fs, base, k, names)| ==> WithCheckpoint(fs, base, k, names)[i].kind == k
  {
    if |names| > 0 {
      WithCheckpointOfKind(fs, base, k, names[..|names| - 1]);
    }
  }

  /** What `find_experiments` returns: nothing for a missing root; otherwise
      exactly the listed experiment directories holding a best checkpoint,
      every fine-tuned one before every scratch one. */
  lemma ExperimentsFound(fs: Fs, base: string, e: Experiment)
    ensures !Exists(fs, base) ==> Experiments(fs, base) == Ok([])
    ensures Experiments(fs, base).Ok? && Exists(fs, base) ==>
      (e in Experiments(fs, base).value
       <==> Listing(fs, base, e.kind).Ok? && e.name in Listing(fs, base, e.kind).value && HasCheckpoint(fs, base, e.kind, e.name))
    ensures Experiments(fs, base).Ok? ==>
      forall i, j :: 0 <= i < j < |Experiments(fs, base).value| && Experiments(fs, base).value[i].kind == ScrExperiments
                     ==> Experiments(fs, base).value[j].kind == ScrExperiments
  {
    if Exists(fs, base) && Experiments(fs, base).Ok? {
      var ft := Listing(fs, base, FtExperiments).value;
      var scr := Listing(fs, base, ScrExperiments).value;
      WithCheckpointMembers(fs, base, FtExperiments, ft, e);
      WithCheckpointMembers(fs, base, ScrExperiments, scr, e);
      WithCheckpointOfKind(fs, base, FtExperiments, ft);
      WithCheckpointOfKind(fs, base, ScrExperiments, scr);
      var a := WithCheckpoint(fs, base, FtExperiments, ft);
      var b := WithCheckpoint(fs, base, ScrExperiments, scr);
      var ab: seq<Experiment> := a + b;
      assert Experiments(fs, base).value == ab;
      forall i, j | 0 <= i < j < |ab| && ab[i].kind == ScrExperiments
        ensures ab[j].kind == ScrExperiments
      {
        assert i >= |a|;
        assert ab[j] == b[j - |a|];
      }
    }
  }

  /** The kind a named experiment is taken from: fine-tuned when its best
      checkpoint exists, else scratch when that one does, else none. */
  function LookupKind(fs: Fs, base: string, name: string): (r: Option<ExperimentKind>)
    ensures r.Some? ==> Exists(fs, BestModelPath(base, r.value, name))
    ensures r.None? <==> !Exists(fs, BestModelPath(base, FtExperiments, name)) && !Exists(fs, BestModelPath(base, ScrExperiments, name))
    ensures Exists(fs, BestModelPath(base, FtExperiments, name)) ==> r == Some(FtExperiments)
  {
    if Exists(fs, BestModelPath(base, FtExperiments, name)) then Some(FtExperiments)
    else if Exists(fs, BestModelPath(base, ScrExperiments, name)) then Some(ScrExperiments)
    else None
  }

  /** The experiments named on the command line, in the order named. */
  function Selected(fs: Fs, base: string, names: seq<string>): (r: seq<Experiment>)
    ensures |r| <= |names|
  {
    if |names| == 0 then []
    else
      var name := names[|names| - 1];
      Selected(fs, base, names[..|names| - 1])
      + (match LookupKind(fs, base, name) case Some(k) => [Experiment(k, name)] case None => [])
  }

  /** The selection loop for named experiments, with its inner `break`. */
  method SelectNamedExperiments(fs: Fs, base: string, names: seq<string>) returns (experiments: seq<Experiment>)
    ensures experiments == Selected(fs, base, names)
  {
    experiments := [];
    var i := 0;
    while i < |names|
      invariant 0 <= i <= |names|
      invariant experiments == Selected(fs, base, names[..i])
    {
      var name := names[i];
      assert names[..i + 1][..i] == names[..i];
      ghost var before := experiments;
      assert Selected(fs, base, names[..i + 1]) == before + match LookupKind(fs, base, name)
        case Some(k) => [Experiment(k, name)] case None => [];
      assert Kinds[0] == FtExperiments && Kinds[1] == ScrExperiments;
      var t := 0;
      while t < |Kinds|
        invariant 0 <= t <= 2 && experiments == before
        invariant forall u :: 0 <= u < t ==> !Exists(fs, BestModelPath(base, Kinds[u], name))
      {
        var k := Kinds[t];
        if Exists(fs, BestModelPath(base, k, name)) {
          experiments := experiments + [Experiment(k, name)];
          break;
        }
        t := t + 1;
      }
      i := i + 1;
    }
    assert names[..|names|] == names;
  }

  /** A named experiment is selected from the fine-tuned directory when its
      best checkpoint is there, else from the scratch directory, and a name
      with neither is skipped. */
  lemma {:induction false} SelectedMembers(fs: Fs, base: string, names: seq<string>, e: Experiment)
    ensures e in Selected(fs, base, names) <==> e.name in names && LookupKind(fs, base, e.name) == Some(e.kind)
  {
    if |names| > 0 {
      var init := names[..|names| - 1];
      SelectedMembers(fs, base, init, e);
      assert names == init + [names[|names| - 1]];
    }
  }

  /** Names given on the command line (a non-empty list) are looked up;
      otherwise every experiment on disk is found. */
  function ChooseExperiments(fs: Fs, base: string, names: Option<seq<string>>): (r: Result<seq<Experiment>, FsError>)
    ensures Truthy(names) ==> r == Ok(Selected(fs, base, names.value))
    ensures !Truthy(names) ==> r == Experiments(fs, base)
  {
    if Truthy(names) then Ok(Selected(fs, base, names.value)) else Experiments(fs, base)
  }

  // ---------------------------------------------------------------------
  // Per-experiment names
  // ---------------------------------------------------------------------

  /** What the loop derives for one experiment before evaluating it. */
  datatype Run = Run(experiment: Experiment, finetune: bool, modelTypeShort: string,
                     checkpointDir: string, modelSqlPath: string, modelRecordPath: string)

  /** "ft" occurs in the fine-tuned directory name and not in the scratch one. */
  lemma FtOccursOnlyInFtDir(k: ExperimentKind)
    ensures Contains(KindDir(k), "ft") <==> k == FtExperiments
  {
    if k == FtExperiments {
      assert OccursAt(KindDir(k), "ft", 0);
    } else {
      NotContainsWithoutFirst(KindDir(k), "ft");
    }
  }

  /** The flags and paths for evaluating one experiment. */
  function RunFor(base: string, e: Experiment): (r: Run)
    ensures r.finetune <==> e.kind == FtExperiments
    ensures r.modelTypeShort == (if e.kind == FtExperiments then "ft" else "scr")
    ensures r.checkpointDir == ExperimentDir(base, e.kind, e.name)
    ensures r.modelSqlPath == "results/t5_" + r.modelTypeShort + "_" + e.name + "_test2.sql"
    ensures r.modelRecordPath == "records/t5_" + r.modelTypeShort + "_" + e.name + "_test2.pkl"
  {
    FtOccursOnlyInFtDir(e.kind);
    var finetune := Contains(KindDir(e.kind), "ft");
    var short := if finetune then "ft" else "scr";
    Run(e, finetune, short, Join(Join(base, KindDir(e.kind)), e.name),
        "results/t5_" + short + "_" + e.name + "_test2.sql",
        "records/t5_" + short + "_" + e.name + "_test2.pkl")
  }

  /** Every experiment chosen, whichever way, has a best checkpoint where its
      run loads from, so the model evaluated is never the untrained one. */
  lemma ChosenRunsLoadCheckpoints(fs: Fs, base: string, names: Option<seq<string>>, e: Experiment)
    requires ChooseExperiments(fs, base, names).Ok? && e in ChooseExperiments(fs, base, names).value
    ensures T5Utils.LoadModelFromCheckpoint(fs, RunFor(base, e).checkpointDir, true) != Ok(T5Utils.Initialized)
  {
    if Truthy(names) {
      SelectedMembers(fs, base, names.value, e);
    } else {
      ExperimentsFound(fs, base, e);
    }
  }

  // ---------------------------------------------------------------------
  // Gold records
  // ---------------------------------------------------------------------

  const GoldSqlPath: string := "data/test2.sql"
  const GoldRecordPath: string := "records/ground_truth_test2.pkl"
  const RecordsDir: string := "records"

  /** The gold cache: left alone when it exists; otherwise the stripped gold
      queries are executed (`computeRecords`, outside this model) and the
      result written after creating the records directory. */
  function EnsureGoldRecords(fs: Fs, computeRecords: seq<string> -> seq<string>): (r: Result<Fs, FsError>)
    ensures Exists(fs, GoldRecordPath) ==> r == Ok(fs)
    ensures !Exists(fs, GoldRecordPath) && GoldSqlPath !in fs.files ==> r == Err(FileNotFound(GoldSqlPath))
    ensures !Exists(fs, GoldRecordPath) && GoldSqlPath in fs.files && RecordsDir in fs.files
            ==> r == Err(FileExists(RecordsDir))
    ensures !Exists(fs, GoldRecordPath) && GoldSqlPath in fs.files && RecordsDir !in fs.files ==> r.Ok?
    ensures r.Ok? ==> Exists(r.value, GoldRecordPath)
    ensures !Exists(fs, GoldRecordPath) && r.Ok? ==> IsDir(r.value, RecordsDir)
    ensures !Exists(fs, GoldRecordPath) && r.Ok? ==>
      r.value.files == fs.files[GoldRecordPath := computeRecords(StripLines(fs.files[GoldSqlPath]))]
    ensures r.Ok? ==> forall q :: q != RecordsDir ==> (q in r.value.dirs <==> q in fs.dirs)
    ensures r.Ok? ==> forall q :: q in fs.dirs ==> q in r.value.dirs && r.value.dirs[q] == fs.dirs[q]
  {
    if Exists(fs, GoldRecordPath) then Ok(fs)
    else if GoldSqlPath !in fs.files then Err(FileNotFound(GoldSqlPath))
    else
      var queries := StripLines(fs.files[GoldSqlPath]);
      var withRecordsDir :- MakeDirs(fs, RecordsDir);
      Ok(WriteFile(withRecordsDir, GoldRecordPath, computeRecords(queries)))
  }

  /** Ensuring the cache twice is ensuring it once: an existing cache is
      never recomputed or overwritten. */
  lemma GoldRecordsIdempotent(fs: Fs, computeRecords: seq<string> -> seq<string>)
    requires EnsureGoldRecords(fs, computeRecords).Ok?
    ensures EnsureGoldRecords(EnsureGoldRecords(fs, computeRecords).value, computeRecords) == EnsureGoldRecords(fs, computeRecords)
  {
  }

  /** The state after the driver's set-up: the runs to evaluate, and the file
      system once the gold cache is ensured. */
  datatype Plan = Plan(fs: Fs, runs: seq<Run>)

  /** Choosing experiments, stopping when there are none, ensuring the gold
      cache and deriving each experiment's run. */
  function MainPlan(fs: Fs, base: string, names: Option<seq<string>>, computeRecords: seq<string> -> seq<string>)
    : (r: Result<Plan, FsError>)
    ensures r.Ok? ==> ChooseExperiments(fs, base, names).Ok?
    ensures r.Ok? ==> |r.value.runs| == |ChooseExperiments(fs, base, names).value|
    ensures r.Ok? ==> forall i :: 0 <= i < |r.value.runs| ==>
      r.value.runs[i] == RunFor(base, ChooseExperiments(fs, base, names).value[i])
    ensures r.Ok? <==> ChooseExperiments(fs, base, names).Ok?
                       && (|ChooseExperiments(fs, base, names).value| == 0 || EnsureGoldRecords(fs, computeRecords).Ok?)
    ensures ChooseExperiments(fs, base, names).Err? ==> r == Err(ChooseExperiments(fs, base, names).error)
    ensures ChooseExperiments(fs, base, names).Ok? && |ChooseExperiments(fs, base, names).value| > 0
            && EnsureGoldRecords(fs, computeRecords).Err?
            ==> r == Err(EnsureGoldRecords(fs, computeRecords).error)
    ensures r.Ok? && |r.value.runs| == 0 ==> r.value.fs == fs
    ensures r.Ok? && |r.value.runs| > 0 ==> EnsureGoldRecords(fs, computeRecords) == Ok(r.value.fs)
  {
    var experiments :- ChooseExperiments(fs, base, names);
    if |experiments| == 0 then Ok(Plan(fs, []))
    else
      var fs' :- EnsureGoldRecords(fs, computeRecords);
      Ok(Plan(fs', seq(|experiments|, i requires 0 <= i < |experiments| => RunFor(base, experiments[i]))))
  }

  /** With no experiments nothing is evaluated and the file system, gold
      cache included, is untouched. */
  lemma NoExperimentsNoWork(fs: Fs, base: string, names: Option<seq<string>>, computeRecords: seq<string> -> seq<string>)
    requires ChooseExperiments(fs, base, names) == Ok([])
    ensures MainPlan(fs, base, names, computeRecords) == Ok(Plan(fs, []))
  {
  }

  /** What one evaluated experiment contributes to the summary; the exact
      and F1 scores come from the metric code, which is not part of this
      model. */
  datatype ResultRow = ResultRow(experiment: string, modelType: string, errorRate: Ratio)

  /** The results loop: one row per planned run, in order, with the error
      rate of the messages the metrics returned for it. */
  method CollectResults(runs: seq<Run>, errorMsgsOf: Run -> Option<seq<string>>) returns (results: seq<ResultRow>)
    ensures |results| == |runs|
    ensures forall i :: 0 <= i < |runs| ==>
      results[i] == ResultRow(runs[i].experiment.name, runs[i].modelTypeShort, ErrorRate(errorMsgsOf(runs[i])))
  {
    results := [];
    var i := 0;
    while i < |runs|
      invariant 0 <= i <= |runs| && |results| == i
      invariant forall j :: 0 <= j < i ==>
        results[j] == ResultRow(runs[j].experiment.name, runs[j].modelTypeShort, ErrorRate(errorMsgsOf(runs[j])))
    {
      var run := runs[i];
      var msgs := errorMsgsOf(run);
      var rate := if msgs.Some? && |msgs.value| > 0 then Ratio(CountNonEmpty(msgs.value), |msgs.value|) else Ratio(0, 1);
      results := results + [ResultRow(run.experiment.name, run.modelTypeShort, rate)];
      i := i + 1;
    }
  }

  // ---------------------------------------------------------------------
  // Inference
  // ---------------------------------------------------------------------

  /** The decoder's start token at inference: `<extra_id_0>`, or the pad id
      when the vocabulary does not know it. */
  function DecoderStartId(tok: LoadData.Tokenizer): (r: int)
    ensures r == LoadData.ExtraId(tok, 0) || r == tok.padId
    ensures r == tok.unkId ==> tok.padId == tok.unkId
    ensures LoadData.ExtraId(tok, 0) != tok.unkId ==> r == LoadData.ExtraId(tok, 0)
  {
    var id := LoadData.ExtraId(tok, 0);
    if id == tok.unkId then tok.padId else id
  }

  lemma FirstKnownUnique(tok: LoadData.Tokenizer, i: int, j: int)
    requires LoadData.FirstKnownExtraId(tok, i) && LoadData.FirstKnownExtraId(tok, j)
    ensures i == j
  {
  }

  /** Inference starts decoding where training did unless `<extra_id_0>` is
      unknown and a later extra id other than the pad id is known: then the
      dataset starts the decoder with that id and inference with the pad id. */
  lemma DecoderStartAgreesWithBos(tok: LoadData.Tokenizer, i: int)
    ensures LoadData.ExtraId(tok, 0) != tok.unkId ==> LoadData.IsBosFor(tok, DecoderStartId(tok))
    ensures (forall j :: 1 <= j < 100 ==> LoadData.ExtraId(tok, j) == tok.unkId) ==> LoadData.IsBosFor(tok, DecoderStartId(tok))
    ensures LoadData.ExtraId(tok, 0) == tok.unkId && LoadData.FirstKnownExtraId(tok, i) && LoadData.ExtraId(tok, i) != tok.padId
            ==> !LoadData.IsBosFor(tok, DecoderStartId(tok))
  {
    if LoadData.ExtraId(tok, 0) == tok.unkId && LoadData.FirstKnownExtraId(tok, i) && LoadData.IsBosFor(tok, DecoderStartId(tok)) {
      var i' :| 1 <= i' < 100 && LoadData.FirstKnownExtraId(tok, i') && DecoderStartId(tok) == LoadData.ExtraId(tok, i');
      FirstKnownUnique(tok, i, i');
    }
  }

  /** The encoder ids, the encoder mask and the start tokens of one batch. */
  datatype InferenceInputs = InferenceInputs(encoderIds: seq<seq<int>>, encoderMask: seq<seq<int>>,
                                             initialDecoderInputs: seq<seq<int>>)

  /** Unpacking a batch into three names fails on a five-part batch. */
  datatype UnpackError = TooManyValuesToUnpack(expected: nat, got: nat)

  /** The loop body as written: the batch is unpacked into exactly three values. */
  function UnpackAsWritten(b: LoadData.Batch): (r: Result<InferenceInputs, UnpackError>)
    ensures r.Ok? <==> b.TestBatch?
  {
    match b
    case TestBatch(ids, mask, init) => Ok(InferenceInputs(ids, mask, init))
    case NormalBatch(_, _, _, _, _) => Err(TooManyValuesToUnpack(3, 5))
  }

  /** The test2 split is not the test split, so its dataset yields training
      items and its loader collates them into five-part batches, which the
      inference loop cannot unpack: every non-empty test2 batch fails. */
  lemma Test2BatchesFailAsWritten(ds: LoadData.T5Dataset, tok: LoadData.Tokenizer, batchSize: nat, idx: seq<nat>)
    requires LoadData.ValidDataset(ds) && ds.split == "test2"
    requires forall k :: 0 <= k < |idx| ==> idx[k] < |ds.nlTexts|
    ensures LoadData.DataLoaderConfig(batchSize, ds.split).collate == LoadData.NormalCollateFn
    ensures forall k :: 0 <= k < |idx| ==> LoadData.GetItem(ds, tok, idx[k]).TrainItem?
    ensures UnpackAsWritten(LoadData.NormalCollate(seq(|idx|, k requires 0 <= k < |idx| => LoadData.GetItem(ds, tok, idx[k])))).Err?
  {
  }

  /** The intended unpacking: the encoder ids, mask and start tokens, taken
      from either batch shape. */
  function Unpack(b: LoadData.Batch): (r: InferenceInputs)
    ensures r.encoderIds == b.encoderIds && r.encoderMask == b.encoderMask
    ensures r.initialDecoderInputs == b.initialDecoderInputs
  {
    InferenceInputs(b.encoderIds, b.encoderMask, b.initialDecoderInputs)
  }

  /** The item without its decoder inputs and targets. */
  function WithoutTargets(item: LoadData.Item): (r: LoadData.Item)
    ensures r.TestItem? && r.encoderIds == item.encoderIds && r.initialDecoder == item.initialDecoder
  {
    LoadData.TestItem(item.encoderIds, item.initialDecoder)
  }

  /** The intended unpacking agrees with the as-written one wherever that
      succeeds, and gives a batch of training items exactly the inputs the
      test collation gives for the same items without their targets. */
  lemma UnpackIgnoresTargets(items: seq<LoadData.Item>)
    requires forall k :: 0 <= k < |items| ==> items[k].TrainItem?
    ensures Unpack(LoadData.NormalCollate(items))
            == Unpack(LoadData.TestCollate(seq(|items|, k requires 0 <= k < |items| => WithoutTargets(items[k]))))
    ensures forall b: LoadData.Batch :: UnpackAsWritten(b).Ok? ==> UnpackAsWritten(b).value == Unpack(b)
  {
    var stripped := seq(|items|, k requires 0 <= k < |items| => WithoutTargets(items[k]));
    assert seq(|items|, k requires 0 <= k < |items| => items[k].encoderIds)
        == seq(|stripped|, k requires 0 <= k < |stripped| => stripped[k].encoderIds);
    assert seq(|items|, k requires 0 <= k < |items| => items[k].initialDecoder)
        == seq(|stripped|, k requires 0 <= k < |stripped| => stripped[k].initialDecoder);
  }

  /** The generation loop: every batch is unpacked and its generated queries
      appended, in batch order. `generate` stands for beam search followed
      by decoding. */
  method GenerateAll(batches: seq<LoadData.Batch>, startId: int,
                     generate: (InferenceInputs, int) -> seq<string>) returns (sqls: seq<string>)
    ensures sqls == GeneratedFor(batches, startId, generate)
  {
    sqls := [];
    var i := 0;
    while i < |batches|
      invariant 0 <= i <= |batches|
      invariant sqls == GeneratedFor(batches[..i], startId, generate)
    {
      assert batches[..i + 1][..i] == batches[..i];
      sqls := sqls + generate(Unpack(batches[i]), startId);
      i := i + 1;
    }
    assert batches[..|batches|] == batches;
  }

  function GeneratedFor(batches: seq<LoadData.Batch>, startId: int, generate: (InferenceInputs, int) -> seq<string>): seq<string>
  {
    if |batches| == 0 then []
    else GeneratedFor(batches[..|batches| - 1], startId, generate) + generate(Unpack(batches[|batches| - 1]), startId)
  }

  /** One query per example when generation returns one query per row:
      the predictions line up with the gold queries they are compared with. */
  lemma {:induction false} GeneratedCount(batches: seq<LoadData.Batch>, startId: int, generate: (InferenceInputs, int) -> seq<string>)
    requires forall b :: b in batches ==> |generate(Unpack(b), startId)| == |b.encoderIds|
    ensures |GeneratedFor(batches, startId, generate)| == RowCount(batches)
  {
    if |batches| > 0 {
      GeneratedCount(batches[..|batches| - 1], startId, generate);
    }
  }

  function RowCount(batches: seq<LoadData.Batch>): nat
  {
    if |batches| == 0 then 0 else RowCount(batches[..|batches| - 1]) + |batches[|batches| - 1].encoderIds|
  }
}
