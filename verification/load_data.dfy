/** Data preparation for the T5 text-to-SQL model: the NL prefix, the choice
    of the decoder's start token, the per-split dataset, the teacher-forcing
    shift, dynamic padding with its attention mask, and the loader settings. */
module LoadData {
  import opened Common
  import opened FileSystem

  /** The id `pad_sequence` pads with and the mask treats as padding. */
  const PadIdx: int := 0

  const NlPrefix: string := "translate to SQL: "

  /** The task prefix put in front of every NL question. */
  function PreprocessNlQuery(query: string): (r: string)
    ensures |r| == |query| + 18
    ensures r[..18] == NlPrefix && r[18..] == query
  {
    NlPrefix + query
  }

  /** The parts of the tokenizer the code uses: `encode` is a call of the
      tokenizer on one text (truncation included), `tokenId` is
      `convert_tokens_to_ids` on one token. */
  datatype Tokenizer = Tokenizer(encode: string -> seq<int>, tokenId: string -> int, unkId: int, padId: int)

  function ExtraIdToken(i: nat): string
  {
    "<extra_id_" + NatToString(i) + ">"
  }

  function ExtraId(tok: Tokenizer, i: nat): int
  {
    tok.tokenId(ExtraIdToken(i))
  }

  /** The decoder's start token: `<extra_id_0>` when the vocabulary knows it,
      else the first known `<extra_id_i>` for i in 1..99, else the pad id. */
  predicate IsBosFor(tok: Tokenizer, bos: int)
  {
    if ExtraId(tok, 0) != tok.unkId then
      bos == ExtraId(tok, 0)
    else if forall j :: 1 <= j < 100 ==> ExtraId(tok, j) == tok.unkId then
      bos == tok.padId
    else
      exists i | 1 <= i < 100 :: FirstKnownExtraId(tok, i) && bos == ExtraId(tok, i)
  }

  /** `<extra_id_i>` is the first of `<extra_id_1>` .. `<extra_id_99>` that
      the vocabulary knows. */
  predicate FirstKnownExtraId(tok: Tokenizer, i: int)
  {
    1 <= i < 100 && ExtraId(tok, i) != tok.unkId
    && forall j :: 1 <= j < i ==> ExtraId(tok, j) == tok.unkId
  }

  /** The search for the decoder's start token, with its `for ... else`. */
  method BosTokenId(tok: Tokenizer) returns (bos: int)
    ensures IsBosFor(tok, bos)
  {
    bos := ExtraId(tok, 0);
    if bos == tok.unkId {
      var i := 1;
      var found := false;
      while i < 100
        invariant 1 <= i <= 100
        invariant forall j :: 1 <= j < i ==> ExtraId(tok, j) == tok.unkId
      {
        var id := ExtraId(tok, i);
        if id != tok.unkId {
          bos := id;
          found := true;
          break;
        }
        i := i + 1;
      }
      if !found {
        bos := tok.padId;
      }
    }
  }

  /** `load_lines`: one stripped string per line of the file. */
  function LoadLines(fs: Fs, path: string): (r: Result<seq<string>, FsError>)
    ensures path !in fs.files ==> r == Err(FileNotFound(path))
    ensures path in fs.files ==> r.Ok? && |r.value| == |fs.files[path]|
    ensures path in fs.files ==> forall i :: 0 <= i < |r.value| ==> r.value[i] == Strip(fs.files[path][i])
  {
    if path in fs.files then Ok(StripLines(fs.files[path])) else Err(FileNotFound(path))
  }

  /** Loading lines that are already stripped gives the same lines back. */
  lemma LoadLinesOfStrippedFile(fs: Fs, path: string)
    requires path in fs.files
    ensures LoadLines(fs.(files := fs.files[path := StripLines(fs.files[path])]), path) == LoadLines(fs, path)
  {
    StripLinesIdempotent(fs.files[path]);
  }

  // ---------------------------------------------------------------------
  // The dataset
  // ---------------------------------------------------------------------

  /** The state `T5Dataset.__init__` leaves: the split, the start token, the
      NL lines, the SQL lines (none for the test split) and the prefixed NL. */
  datatype T5Dataset = T5Dataset(split: string, bos: int, nlTexts: seq<string>,
                                 sqlTexts: Option<seq<string>>, processedNlTexts: seq<string>)

  datatype DatasetError = Missing(path: string) | LengthMismatch

  /** A dataset as `__init__` leaves it. */
  predicate ValidDataset(ds: T5Dataset)
  {
    && (ds.split == "test" <==> ds.sqlTexts.None?)
    && (ds.sqlTexts.Some? ==> |ds.sqlTexts.value| == |ds.nlTexts|)
    && |ds.processedNlTexts| == |ds.nlTexts|
    && (forall i :: 0 <= i < |ds.nlTexts| ==> ds.processedNlTexts[i] == PreprocessNlQuery(ds.nlTexts[i]))
  }

  function NlPath(folder: string, split: string): string { Join(folder, split + ".nl") }

  function SqlPath(folder: string, split: string): string { Join(folder, split + ".sql") }

  /** `T5Dataset(data_folder, split)`. */
  method NewDataset(fs: Fs, folder: string, split: string, tok: Tokenizer) returns (r: Result<T5Dataset, DatasetError>)
    ensures NlPath(folder, split) !in fs.files ==> r == Err(Missing(NlPath(folder, split)))
    ensures NlPath(folder, split) in fs.files && split != "test" && SqlPath(folder, split) !in fs.files
            ==> r == Err(Missing(SqlPath(folder, split)))
    ensures NlPath(folder, split) in fs.files && split != "test" && SqlPath(folder, split) in fs.files
            && |fs.files[NlPath(folder, split)]| != |fs.files[SqlPath(folder, split)]|
            ==> r == Err(LengthMismatch)
    ensures NlPath(folder, split) in fs.files
            && (split == "test"
                || (SqlPath(folder, split) in fs.files
                    && |fs.files[NlPath(folder, split)]| == |fs.files[SqlPath(folder, split)]|))
            ==> r.Ok?
    ensures r.Ok? ==>
      && ValidDataset(r.value)
      && r.value.split == split
      && IsBosFor(tok, r.value.bos)
      && NlPath(folder, split) in fs.files
      && r.value.nlTexts == StripLines(fs.files[NlPath(folder, split)])
      && (split != "test" ==> SqlPath(folder, split) in fs.files
                              && r.value.sqlTexts == Some(StripLines(fs.files[SqlPath(folder, split)])))
  {
    var bos := BosTokenId(tok);
    var nlTexts :- LoadLinesOrFail(fs, NlPath(folder, split));
    var sqlTexts: Option<seq<string>> := None;
    if split != "test" {
      var sql :- LoadLinesOrFail(fs, SqlPath(folder, split));
      if |nlTexts| != |sql| {
        return Err(LengthMismatch);
      }
      sqlTexts := Some(sql);
    }
    var processed: seq<string> := [];
    var i := 0;
    while i < |nlTexts|
      invariant 0 <= i <= |nlTexts|
      invariant |processed| == i
      invariant forall j :: 0 <= j < i ==> processed[j] == PreprocessNlQuery(nlTexts[j])
    {
      processed := processed + [PreprocessNlQuery(nlTexts[i])];
      i := i + 1;
    }
    r := Ok(T5Dataset(split, bos, nlTexts, sqlTexts, processed));
  }

  method LoadLinesOrFail(fs: Fs, path: string) returns (r: Result<seq<string>, DatasetError>)
    ensures path !in fs.files ==> r == Err(Missing(path))
    ensures path in fs.files ==> r == Ok(StripLines(fs.files[path]))
  {
    match LoadLines(fs, path)
    case Ok(lines) => r := Ok(lines);
    case Err(_) => r := Err(Missing(path));
  }

  /** `len(dataset)`: one example per NL line. */
  function Length(ds: T5Dataset): (n: nat)
    requires ValidDataset(ds)
    ensures n == |ds.nlTexts| == |ds.processedNlTexts|
  {
    |ds.nlTexts|
  }

  /** What `__getitem__` returns: token id lists for the encoder, the
      decoder input and target, and the one-token start list. */
  datatype Item =
    | TrainItem(encoderIds: seq<int>, decoderInputs: seq<int>, decoderTargets: seq<int>, initialDecoder: seq<int>)
    | TestItem(encoderIds: seq<int>, initialDecoder: seq<int>)

  /** Teacher forcing: the start token followed by every target but the last. */
  function ShiftRight(bos: int, targets: seq<int>): (r: seq<int>)
    ensures |targets| > 0 ==> |r| == |targets|
    ensures |targets| == 0 ==> r == [bos]
    ensures r[0] == bos
    ensures forall k :: 0 <= k < |targets| - 1 ==> r[k + 1] == targets[k]
  {
    [bos] + (if |targets| == 0 then [] else targets[..|targets| - 1])
  }

  /** The targets are the decoder inputs shifted one to the left, closed by
      the last target: input k+1 is target k. */
  lemma ShiftRightRecoversTargets(bos: int, targets: seq<int>)
    requires |targets| > 0
    ensures ShiftRight(bos, targets)[1..] + [targets[|targets| - 1]] == targets
  {
    var r := ShiftRight(bos, targets);
    assert r[1..] == targets[..|targets| - 1];
  }

  /** `dataset[idx]` for an index the loader asks for. */
  function GetItem(ds: T5Dataset, tok: Tokenizer, idx: nat): (item: Item)
    requires ValidDataset(ds) && idx < |ds.nlTexts|
    ensures item.TestItem? <==> ds.split == "test"
    ensures item.encoderIds == tok.encode(PreprocessNlQuery(ds.nlTexts[idx]))
    ensures item.initialDecoder == [ds.bos]
    ensures item.TrainItem? ==> item.decoderTargets == tok.encode(ds.sqlTexts.value[idx])
    ensures item.TrainItem? ==> item.decoderInputs == ShiftRight(ds.bos, item.decoderTargets)
  {
    var encoderIds := tok.encode(ds.processedNlTexts[idx]);
    if ds.split == "test" then
      TestItem(encoderIds, [ds.bos])
    else
      var targets := tok.encode(ds.sqlTexts.value[idx]);
      TrainItem(encoderIds, ShiftRight(ds.bos, targets), targets, [ds.bos])
  }

  // ---------------------------------------------------------------------
  // Collation
  // ---------------------------------------------------------------------

  function MaxLength(rows: seq<seq<int>>): (m: nat)
    ensures forall b :: 0 <= b < |rows| ==> |rows[b]| <= m
    ensures |rows| > 0 ==> exists b :: 0 <= b < |rows| && |rows[b]| == m
    ensures |rows| == 0 ==> m == 0
  {
    if |rows| == 0 then 0
    else
      var rest := MaxLength(rows[1..]);
      assert forall b :: 1 <= b < |rows| ==> rows[b] == rows[1..][b - 1];
      if |rows[0]| >= rest then |rows[0]| else rest
  }

  /** `pad_sequence(rows, batch_first=True, padding_value=PAD_IDX)`. */
  function Pad(rows: seq<seq<int>>): (r: seq<seq<int>>)
    ensures |r| == |rows|
    ensures forall b :: 0 <= b < |r| ==> |r[b]| == MaxLength(rows)
    ensures forall b, j :: 0 <= b < |r| && 0 <= j < MaxLength(rows) ==>
      r[b][j] == if j < |rows[b]| then rows[b][j] else PadIdx
  {
    var width := MaxLength(rows);
    seq(|rows|, b requires 0 <= b < |rows| =>
      seq(width, j requires 0 <= j < width => if j < |rows[b]| then rows[b][j] else PadIdx))
  }

  /** `(ids != PAD_IDX).long()`. */
  function Mask(ids: seq<seq<int>>): (m: seq<seq<int>>)
    ensures |m| == |ids|
    ensures forall b :: 0 <= b < |ids| ==> |m[b]| == |ids[b]|
  {
    seq(|ids|, b requires 0 <= b < |ids| =>
      seq(|ids[b]|, j requires 0 <= j < |ids[b]| => if ids[b][j] != PadIdx then 1 else 0))
  }

  /** The mask of a padded batch is 1 exactly at the real tokens that are
      not the pad id: never on padding, and also not on a genuine 0 id. */
  lemma MaskOfPaddedBatch(rows: seq<seq<int>>, b: nat, j: nat)
    requires b < |rows| && j < MaxLength(rows)
    ensures Mask(Pad(rows))[b][j] == 1 <==> j < |rows[b]| && rows[b][j] != PadIdx
    ensures Mask(Pad(rows))[b][j] in {0, 1}
  {
  }

  /** A batch after collation. */
  datatype Batch =
    | NormalBatch(encoderIds: seq<seq<int>>, encoderMask: seq<seq<int>>, decoderInputs: seq<seq<int>>,
                  decoderTargets: seq<seq<int>>, initialDecoderInputs: seq<seq<int>>)
    | TestBatch(encoderIds: seq<seq<int>>, encoderMask: seq<seq<int>>, initialDecoderInputs: seq<seq<int>>)

  /** `normal_collate_fn`: pads encoder ids, decoder inputs and targets, masks
      the encoder ids and stacks the start tokens. */
  function NormalCollate(items: seq<Item>): (batch: Batch)
    requires forall k :: 0 <= k < |items| ==> items[k].TrainItem?
    ensures batch.NormalBatch?
    ensures batch.encoderIds == Pad(seq(|items|, k requires 0 <= k < |items| => items[k].encoderIds))
    ensures batch.encoderMask == Mask(batch.encoderIds)
    ensures batch.decoderInputs == Pad(seq(|items|, k requires 0 <= k < |items| => items[k].decoderInputs))
    ensures batch.decoderTargets == Pad(seq(|items|, k requires 0 <= k < |items| => items[k].decoderTargets))
    ensures |batch.initialDecoderInputs| == |items|
    ensures forall k :: 0 <= k < |items| ==> batch.initialDecoderInputs[k] == items[k].initialDecoder
  {
    var encoderIds := Pad(seq(|items|, k requires 0 <= k < |items| => items[k].encoderIds));
    NormalBatch(encoderIds, Mask(encoderIds),
                Pad(seq(|items|, k requires 0 <= k < |items| => items[k].decoderInputs)),
                Pad(seq(|items|, k requires 0 <= k < |items| => items[k].decoderTargets)),
                seq(|items|, k requires 0 <= k < |items| => items[k].initialDecoder))
  }

  /** `test_collate_fn`: pads and masks the encoder ids and stacks the start tokens. */
  function TestCollate(items: seq<Item>): (batch: Batch)
    requires forall k :: 0 <= k < |items| ==> items[k].TestItem?
    ensures batch.TestBatch?
    ensures batch.encoderIds == Pad(seq(|items|, k requires 0 <= k < |items| => items[k].encoderIds))
    ensures batch.encoderMask == Mask(batch.encoderIds)
    ensures |batch.initialDecoderInputs| == |items|
    ensures forall k :: 0 <= k < |items| ==> batch.initialDecoderInputs[k] == items[k].initialDecoder
  {
    var encoderIds := Pad(seq(|items|, k requires 0 <= k < |items| => items[k].encoderIds));
    TestBatch(encoderIds, Mask(encoderIds),
              seq(|items|, k requires 0 <= k < |items| => items[k].initialDecoder))
  }

  // ---------------------------------------------------------------------
  // The loader
  // ---------------------------------------------------------------------

  datatype CollateFn = NormalCollateFn | TestCollateFn

  datatype LoaderConfig = LoaderConfig(batchSize: nat, shuffle: bool, collate: CollateFn)

  /** The settings `get_dataloader` passes to the `DataLoader`. */
  function DataLoaderConfig(batchSize: nat, split: string): (c: LoaderConfig)
    ensures c.batchSize == batchSize
    ensures c.shuffle <==> split == "train"
    ensures c.collate == TestCollateFn <==> split == "test"
  {
    LoaderConfig(batchSize, split == "train", if split != "test" then NormalCollateFn else TestCollateFn)
  }

  /** The collate function the loader picks fits every item its dataset
      returns: test items exactly when the test collation is used. */
  lemma CollateFitsItems(ds: T5Dataset, tok: Tokenizer, batchSize: nat, idx: nat)
    requires ValidDataset(ds) && idx < |ds.nlTexts|
    ensures GetItem(ds, tok, idx).TestItem? <==> DataLoaderConfig(batchSize, ds.split).collate == TestCollateFn
  {
  }
}
