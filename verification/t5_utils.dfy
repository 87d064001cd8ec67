/** Model utilities: the dotted parameter-name walk over a module tree, the
    weight-decay grouping of the optimizer, the scheduler's step arithmetic,
    checkpoint file names, and freezing of encoder/decoder blocks. */
module T5Utils {
  import opened Common
  import opened FileSystem

  // ---------------------------------------------------------------------
  // Parameter names
  // ---------------------------------------------------------------------

  /** A module: its class name, the names of the parameters it registers
      itself, and its named children in registration order. */
  datatype Module = Module(typeName: string, params: seq<string>, children: seq<Child>)

  datatype Child = Child(name: string, sub: Module)

  /** `name.n` for every `n`, in order. */
  function Prefixed(name: string, names: seq<string>): (r: seq<string>)
    ensures |r| == |names|
    ensures forall i :: 0 <= i < |names| ==> r[i] == name + "." + names[i]
  {
    seq(|names|, i requires 0 <= i < |names| => name + "." + names[i])
  }

  /** `get_parameter_names(model, forbidden)`: the children's names first,
      each prefixed with the child's name and empty for a child whose type
      is forbidden, then the module's own parameter names. */
  function ParameterNames(m: Module, forbidden: set<string>): (r: seq<string>)
    ensures |r| >= |m.params| && r[|r| - |m.params|..] == m.params
    decreases m
  {
    ChildrenNames(m.children, forbidden) + m.params
  }

  function ChildrenNames(cs: seq<Child>, forbidden: set<string>): seq<string>
    decreases cs
  {
    if |cs| == 0 then []
    else ChildrenNames(cs[..|cs| - 1], forbidden) + ChildNames(cs[|cs| - 1], forbidden)
  }

  function ChildNames(c: Child, forbidden: set<string>): seq<string>
    decreases c
  {
    if c.sub.typeName in forbidden then [] else Prefixed(c.name, ParameterNames(c.sub, forbidden))
  }

  /** `n` is one of the names contributed by child `c`. */
  predicate NameFromChild(c: Child, forbidden: set<string>, n: string)
  {
    c.sub.typeName !in forbidden && exists s | s in ParameterNames(c.sub, forbidden) :: n == c.name + "." + s
  }

  lemma ChildNamesMembers(c: Child, forbidden: set<string>, n: string)
    ensures n in ChildNames(c, forbidden) <==> NameFromChild(c, forbidden, n)
  {
    if NameFromChild(c, forbidden, n) {
      var s :| s in ParameterNames(c.sub, forbidden) && n == c.name + "." + s;
      var names := ParameterNames(c.sub, forbidden);
      var i :| 0 <= i < |names| && names[i] == s;
      assert ChildNames(c, forbidden)[i] == n;
    }
  }

  /** The children contribute exactly the prefixed names of their
      non-forbidden subtrees. */
  lemma {:induction false} ChildrenNamesMembers(cs: seq<Child>, forbidden: set<string>, n: string)
    ensures n in ChildrenNames(cs, forbidden) <==> exists k | 0 <= k < |cs| :: NameFromChild(cs[k], forbidden, n)
  {
    if |cs| > 0 {
      var init := cs[..|cs| - 1];
      ChildrenNamesMembers(init, forbidden, n);
      ChildNamesMembers(cs[|cs| - 1], forbidden, n);
      if exists k | 0 <= k < |init| :: NameFromChild(init[k], forbidden, n) {
        var k :| 0 <= k < |init| && NameFromChild(init[k], forbidden, n);
        assert cs[k] == init[k];
      }
      if exists k | 0 <= k < |cs| :: NameFromChild(cs[k], forbidden, n) {
        var k :| 0 <= k < |cs| && NameFromChild(cs[k], forbidden, n);
        if k < |init| {
          assert init[k] == cs[k];
        }
      }
    }
  }

  /** A name is a parameter name of `m` exactly when it is one of the
      module's own parameters or comes from a non-forbidden child. */
  lemma ParameterNamesMembers(m: Module, forbidden: set<string>, n: string)
    ensures n in ParameterNames(m, forbidden)
            <==> n in m.params || exists k | 0 <= k < |m.children| :: NameFromChild(m.children[k], forbidden, n)
  {
    ChildrenNamesMembers(m.children, forbidden, n);
  }

  /** Forbidding more layer types can only remove names. */
  lemma {:induction false} ForbiddingMoreRemovesNames(m: Module, f: set<string>, g: set<string>, n: string)
    requires f <= g
    ensures n in ParameterNames(m, g) ==> n in ParameterNames(m, f)
    decreases m
  {
    if n in ChildrenNames(m.children, g) {
      ChildrenForbiddingMore(m.children, f, g, n);
    }
  }

  lemma {:induction false} ChildrenForbiddingMore(cs: seq<Child>, f: set<string>, g: set<string>, n: string)
    requires f <= g
    ensures n in ChildrenNames(cs, g) ==> n in ChildrenNames(cs, f)
    decreases cs
  {
    if |cs| > 0 && n in ChildrenNames(cs, g) {
      var c := cs[|cs| - 1];
      if n in ChildrenNames(cs[..|cs| - 1], g) {
        ChildrenForbiddingMore(cs[..|cs| - 1], f, g, n);
      } else {
        assert n in ChildNames(c, g);
        ChildNamesMembers(c, g, n);
        var s :| s in ParameterNames(c.sub, g) && n == c.name + "." + s;
        ForbiddingMoreRemovesNames(c.sub, f, g, s);
        assert NameFromChild(c, f, n);
        ChildNamesMembers(c, f, n);
      }
    }
  }

  /** The names kept for weight decay: those without "bias" in them, in order. */
  function WithoutBias(names: seq<string>): (r: seq<string>)
    ensures |r| <= |names|
    ensures forall n :: n in r <==> n in names && !Contains(n, "bias")
  {
    if |names| == 0 then []
    else
      var last := names[|names| - 1];
      WithoutBias(names[..|names| - 1]) + (if Contains(last, "bias") then [] else [last])
  }

  /** The parameters that get weight decay: every parameter name outside
      the forbidden (layer-norm) layers that does not mention "bias". */
  function DecayParameterNames(m: Module, forbidden: set<string>): seq<string>
  {
    WithoutBias(ParameterNames(m, forbidden))
  }

  /** No decayed parameter name contains "bias", and each one is a parameter
      name of the model. */
  lemma DecayNamesHaveNoBias(m: Module, forbidden: set<string>, n: string)
    ensures n in DecayParameterNames(m, forbidden) <==> n in ParameterNames(m, forbidden) && !Contains(n, "bias")
  {
  }

  // ---------------------------------------------------------------------
  // Optimizer grouping
  // ---------------------------------------------------------------------

  /** One entry of `model.named_parameters()`. */
  datatype NamedParam = NamedParam(name: string, requiresGrad: bool, numel: nat)

  datatype ParamGroup = ParamGroup(params: seq<NamedParam>, weightDecay: real)

  /** The trainable parameters whose name is (or, for `decayed == false`,
      is not) in the decay list, in `named_parameters` order. */
  function GroupMembers(named: seq<NamedParam>, decay: seq<string>, decayed: bool): (r: seq<NamedParam>)
    ensures forall p :: p in r <==> p in named && p.requiresGrad && (p.name in decay <==> decayed)
  {
    if |named| == 0 then []
    else
      var p := named[|named| - 1];
      GroupMembers(named[..|named| - 1], decay, decayed)
      + (if p.requiresGrad && (p.name in decay <==> decayed) then [p] else [])
  }

  function Trainable(named: seq<NamedParam>): seq<NamedParam>
  {
    if |named| == 0 then []
    else Trainable(named[..|named| - 1]) + (if named[|named| - 1].requiresGrad then [named[|named| - 1]] else [])
  }

  /** The two parameter groups: decayed trainable parameters with the given
      weight decay, the other trainable parameters with none. */
  function GroupParameters(named: seq<NamedParam>, decay: seq<string>, weightDecay: real): (gs: seq<ParamGroup>)
    ensures |gs| == 2
    ensures gs[0].weightDecay == weightDecay && gs[1].weightDecay == 0.0
    ensures forall p :: p in gs[0].params ==> p.name in decay && p.requiresGrad
    ensures forall p :: p in gs[1].params ==> p.name !in decay && p.requiresGrad
  {
    [ParamGroup(GroupMembers(named, decay, true), weightDecay), ParamGroup(GroupMembers(named, decay, false), 0.0)]
  }

  /** The groups split the trainable parameters: every trainable entry lands
      in exactly one group, frozen ones in none. */
  lemma {:induction false} GroupsPartitionTrainable(named: seq<NamedParam>, decay: seq<string>)
    ensures multiset(GroupMembers(named, decay, true)) + multiset(GroupMembers(named, decay, false))
            == multiset(Trainable(named))
  {
    if |named| > 0 {
      GroupsPartitionTrainable(named[..|named| - 1], decay);
    }
  }

  lemma GroupsDisjoint(named: seq<NamedParam>, decay: seq<string>, weightDecay: real, p: NamedParam)
    ensures !(p in GroupParameters(named, decay, weightDecay)[0].params && p in GroupParameters(named, decay, weightDecay)[1].params)
    ensures p in GroupParameters(named, decay, weightDecay)[0].params || p in GroupParameters(named, decay, weightDecay)[1].params
            <==> p in named && p.requiresGrad
  {
  }

  datatype Optimizer = AdamW(groups: seq<ParamGroup>, lr: real, eps: real, beta1: real, beta2: real)

  /** Any type other than "AdamW" leaves the optimizer variable unbound. */
  datatype OptimizerError = UnboundOptimizer

  /** `initialize_optimizer`: decay names from the module tree minus the
      layer-norm types, then the two groups, then AdamW. */
  function InitializeOptimizer(optimizerType: string, tree: Module, layerNormTypes: set<string>,
                               named: seq<NamedParam>, weightDecay: real, lr: real): (r: Result<Optimizer, OptimizerError>)
    ensures r.Ok? <==> optimizerType == "AdamW"
    ensures r.Ok? ==> r.value.groups == GroupParameters(named, DecayParameterNames(tree, layerNormTypes), weightDecay)
    ensures r.Ok? ==> r.value.lr == lr && r.value.eps == 0.00000001 && r.value.beta1 == 0.9 && r.value.beta2 == 0.999
  {
    var groups := GroupParameters(named, DecayParameterNames(tree, layerNormTypes), weightDecay);
    if optimizerType == "AdamW" then Ok(AdamW(groups, lr, 0.00000001, 0.9, 0.999)) else Err(UnboundOptimizer)
  }

  /** A parameter that gets weight decay never has "bias" in its name. */
  lemma DecayedParamsHaveNoBias(optimizerType: string, tree: Module, layerNormTypes: set<string>,
                                named: seq<NamedParam>, weightDecay: real, lr: real, p: NamedParam)
    requires InitializeOptimizer(optimizerType, tree, layerNormTypes, named, weightDecay, lr).Ok?
    requires p in InitializeOptimizer(optimizerType, tree, layerNormTypes, named, weightDecay, lr).value.groups[0].params
    ensures !Contains(p.name, "bias") && p.name in ParameterNames(tree, layerNormTypes)
  {
  }

  // ---------------------------------------------------------------------
  // Scheduler
  // ---------------------------------------------------------------------

  datatype Schedule =
    | NoSchedule
    | Cosine(warmupSteps: nat, trainingSteps: nat)
    | Linear(warmupSteps: nat, trainingSteps: nat)

  datatype SchedulerError = NotImplemented

  /** `initialize_scheduler`: steps are epochs times the epoch length; the
      kind picks none, cosine or linear warm-up schedules. */
  function InitializeScheduler(kind: string, epochLength: nat, maxEpochs: nat, warmupEpochs: nat): (r: Result<Schedule, SchedulerError>)
    ensures r == Ok(NoSchedule) <==> kind == "none"
    ensures r.Ok? && r.value.Cosine? <==> kind == "cosine"
    ensures r.Ok? && r.value.Linear? <==> kind == "linear"
    ensures r.Err? <==> kind != "none" && kind != "cosine" && kind != "linear"
    ensures r.Ok? && !r.value.NoSchedule? ==>
      r.value.trainingSteps == epochLength * maxEpochs && r.value.warmupSteps == epochLength * warmupEpochs
  {
    var training := epochLength * maxEpochs;
    var warmup := epochLength * warmupEpochs;
    if kind == "none" then Ok(NoSchedule)
    else if kind == "cosine" then Ok(Cosine(warmup, training))
    else if kind == "linear" then Ok(Linear(warmup, training))
    else Err(NotImplemented)
  }

  /** With no more warm-up epochs than epochs, warm-up ends within training. */
  lemma WarmupWithinTraining(kind: string, epochLength: nat, maxEpochs: nat, warmupEpochs: nat)
    requires warmupEpochs <= maxEpochs
    requires InitializeScheduler(kind, epochLength, maxEpochs, warmupEpochs).Ok?
    requires !InitializeScheduler(kind, epochLength, maxEpochs, warmupEpochs).value.NoSchedule?
    ensures InitializeScheduler(kind, epochLength, maxEpochs, warmupEpochs).value.warmupSteps
            <= InitializeScheduler(kind, epochLength, maxEpochs, warmupEpochs).value.trainingSteps
  {
    var r := InitializeScheduler(kind, epochLength, maxEpochs, warmupEpochs).value;
    assert epochLength * warmupEpochs <= epochLength * maxEpochs by {
      assert epochLength * (maxEpochs - warmupEpochs) >= 0;
    }
  }

  // ---------------------------------------------------------------------
  // Checkpoints
  // ---------------------------------------------------------------------

  const BestModelFile: string := "best_model.pt"
  const LatestModelFile: string := "latest_model.pt"

  /** The checkpoint file of a kind sits directly inside `dir`. */
  function CheckpointPath(dir: string, best: bool): (r: string)
    ensures |r| > |dir| + 1 && r[..|dir|] == dir && r[|dir|] == '/'
    ensures r[|dir| + 1..] == if best then "best_model.pt" else "latest_model.pt"
  {
    Join(dir, if best then BestModelFile else LatestModelFile)
  }

  /** The best and the latest checkpoint of a directory are different files. */
  lemma CheckpointPathsDiffer(dir: string)
    ensures CheckpointPath(dir, true) != CheckpointPath(dir, false)
  {
    assert CheckpointPath(dir, true)[|dir| + 1] == 'b';
    assert CheckpointPath(dir, false)[|dir| + 1] == 'l';
  }

  /** `mkdir`: creates the directory unless the path already exists. */
  function Mkdir(fs: Fs, dir: string): (r: Fs)
    ensures Exists(r, dir)
    ensures Exists(fs, dir) ==> r == fs
    ensures r.files == fs.files
    ensures forall q :: q != dir ==> (q in r.dirs <==> q in fs.dirs)
    ensures forall q :: q in fs.dirs ==> q in r.dirs && r.dirs[q] == fs.dirs[q]
  {
    if !Exists(fs, dir) then MakeDirs(fs, dir).value else fs
  }

  /** `save_model`: the state dict, abstracted as the lines of a file. */
  function SaveModel(fs: Fs, dir: string, best: bool, state: seq<string>): (r: Fs)
    ensures Exists(r, dir)
    ensures CheckpointPath(dir, best) in r.files && r.files[CheckpointPath(dir, best)] == state
    ensures forall p :: p != CheckpointPath(dir, best) ==> (p in r.files <==> p in fs.files)
    ensures forall p :: p in fs.files && p != CheckpointPath(dir, best) ==> r.files[p] == fs.files[p]
    ensures r.dirs == Mkdir(fs, dir).dirs
  {
    WriteFile(Mkdir(fs, dir), CheckpointPath(dir, best), state)
  }

  datatype Weights = FromCheckpoint(state: seq<string>) | Initialized

  /** Loading a checkpoint that is a directory fails in `torch.load`. */
  datatype LoadError = NotAFile(path: string)

  /** `load_model_from_checkpoint`: the checkpoint's weights when the file
      exists, otherwise the freshly initialized model. */
  function LoadModelFromCheckpoint(fs: Fs, dir: string, best: bool): (r: Result<Weights, LoadError>)
    ensures !Exists(fs, CheckpointPath(dir, best)) <==> r == Ok(Initialized)
    ensures CheckpointPath(dir, best) in fs.files <==> r.Ok? && r.value.FromCheckpoint?
    ensures CheckpointPath(dir, best) in fs.files ==> r == Ok(FromCheckpoint(fs.files[CheckpointPath(dir, best)]))
  {
    var path := CheckpointPath(dir, best);
    if !Exists(fs, path) then Ok(Initialized)
    else if path in fs.files then Ok(FromCheckpoint(fs.files[path]))
    else Err(NotAFile(path))
  }

  /** Loading what was just saved gives it back. */
  lemma LoadAfterSave(fs: Fs, dir: string, best: bool, state: seq<string>)
    ensures LoadModelFromCheckpoint(SaveModel(fs, dir, best, state), dir, best) == Ok(FromCheckpoint(state))
  {
  }

  /** Saving one checkpoint kind leaves what the other kind loads unchanged. */
  lemma SaveKeepsOtherCheckpoint(fs: Fs, dir: string, best: bool, state: seq<string>)
    ensures LoadModelFromCheckpoint(SaveModel(fs, dir, best, state), dir, !best) == LoadModelFromCheckpoint(fs, dir, !best)
  {
    CheckpointPathsDiffer(dir);
  }

  // ---------------------------------------------------------------------
  // Freezing layers
  // ---------------------------------------------------------------------

  datatype Param = Param(numel: nat, requiresGrad: bool)

  /** The value passed as `freeze_encoder_layers` / `freeze_decoder_layers`. */
  datatype LayerSelection = NotGiven | AllLayers | Layers(indices: seq<int>) | OtherValue

  /** Block `i` is frozen by `sel`: every block for "all", the listed ones
      for a non-empty list, none for `None`, an empty list or anything else. */
  predicate Frozen(sel: LayerSelection, i: nat)
  {
    match sel
    case NotGiven => false
    case AllLayers => true
    case Layers(xs) => |xs| > 0 && i in xs
    case OtherValue => false
  }

  function FreezeAll(ps: seq<Param>): (r: seq<Param>)
    ensures |r| == |ps|
    ensures forall j :: 0 <= j < |ps| ==> r[j] == ps[j].(requiresGrad := false)
  {
    seq(|ps|, j requires 0 <= j < |ps| => ps[j].(requiresGrad := false))
  }

  /** The blocks after freezing: selected blocks lose all gradients, the
      others are untouched. */
  function FreezeBlocks(blocks: seq<seq<Param>>, sel: LayerSelection): (r: seq<seq<Param>>)
    ensures |r| == |blocks|
  {
    seq(|blocks|, i requires 0 <= i < |blocks| => if Frozen(sel, i) then FreezeAll(blocks[i]) else blocks[i])
  }

  /** Sum of `numel` over the parameters (only the trainable ones when asked). */
  function Count(ps: seq<Param>, onlyTrainable: bool): nat
  {
    if |ps| == 0 then 0
    else Count(ps[..|ps| - 1], onlyTrainable)
         + (if !onlyTrainable || ps[|ps| - 1].requiresGrad then ps[|ps| - 1].numel else 0)
  }

  function BlocksCount(blocks: seq<seq<Param>>, onlyTrainable: bool): nat
  {
    if |blocks| == 0 then 0
    else BlocksCount(blocks[..|blocks| - 1], onlyTrainable) + Count(blocks[|blocks| - 1], onlyTrainable)
  }

  lemma {:induction false} TrainableAtMostTotal(ps: seq<Param>)
    ensures Count(ps, true) <= Count(ps, false)
  {
    if |ps| > 0 {
      TrainableAtMostTotal(ps[..|ps| - 1]);
    }
  }

  lemma {:induction false} BlocksTrainableAtMostTotal(blocks: seq<seq<Param>>)
    ensures BlocksCount(blocks, true) <= BlocksCount(blocks, false)
  {
    if |blocks| > 0 {
      BlocksTrainableAtMostTotal(blocks[..|blocks| - 1]);
      TrainableAtMostTotal(blocks[|blocks| - 1]);
    }
  }

  /** A frozen parameter list keeps its size and has nothing trainable. */
  lemma {:induction false} FreezeAllCounts(ps: seq<Param>)
    ensures Count(FreezeAll(ps), false) == Count(ps, false)
    ensures Count(FreezeAll(ps), true) == 0
  {
    if |ps| > 0 {
      var init := ps[..|ps| - 1];
      FreezeAllCounts(init);
      assert FreezeAll(ps)[..|ps| - 1] == FreezeAll(init);
    }
  }

  /** Freezing blocks keeps the total parameter count and never adds
      trainable parameters. */
  lemma {:induction false} FreezeBlocksCounts(blocks: seq<seq<Param>>, sel: LayerSelection)
    ensures BlocksCount(FreezeBlocks(blocks, sel), false) == BlocksCount(blocks, false)
    ensures BlocksCount(FreezeBlocks(blocks, sel), true) <= BlocksCount(blocks, true)
  {
    if |blocks| > 0 {
      var n := |blocks| - 1;
      FreezeBlocksCounts(blocks[..n], sel);
      assert FreezeBlocks(blocks, sel)[..n] == FreezeBlocks(blocks[..n], sel);
      FreezeAllCounts(blocks[n]);
    }
  }

  /** `None`, an empty list or any other non-"all" value freezes nothing
      (the docstring's "None to freeze all" is not what the code does). */
  lemma NoSelectionFreezesNothing(blocks: seq<seq<Param>>, sel: LayerSelection)
    requires sel.NotGiven? || sel.OtherValue? || sel == Layers([])
    ensures FreezeBlocks(blocks, sel) == blocks
  {
  }

  /** "all" leaves no trainable parameter in any block. */
  lemma {:induction false} AllFreezesEveryBlock(blocks: seq<seq<Param>>)
    ensures BlocksCount(FreezeBlocks(blocks, AllLayers), true) == 0
  {
    if |blocks| > 0 {
      var n := |blocks| - 1;
      AllFreezesEveryBlock(blocks[..n]);
      assert FreezeBlocks(blocks, AllLayers)[..n] == FreezeBlocks(blocks[..n], AllLayers);
      FreezeAllCounts(blocks[n]);
    }
  }

  /** A listed index freezes its block; an unlisted one keeps it as it was. */
  lemma ListedBlocksFrozen(blocks: seq<seq<Param>>, xs: seq<int>, i: nat)
    requires i < |blocks| && |xs| > 0
    ensures i in xs ==> Count(FreezeBlocks(blocks, Layers(xs))[i], true) == 0
    ensures i !in xs ==> FreezeBlocks(blocks, Layers(xs))[i] == blocks[i]
  {
    FreezeAllCounts(blocks[i]);
  }

  /** The parameters `freeze_layers` reaches, as an object updated in place. */
  class T5Model {
    var encoderBlocks: seq<seq<Param>>
    var decoderBlocks: seq<seq<Param>>
    var shared: seq<Param>
    var lmHead: seq<Param>
    /** Every other parameter (final layer norms). */
    var others: seq<Param>

    constructor (encoderBlocks: seq<seq<Param>>, decoderBlocks: seq<seq<Param>>,
                 shared: seq<Param>, lmHead: seq<Param>, others: seq<Param>)
      ensures this.encoderBlocks == encoderBlocks && this.decoderBlocks == decoderBlocks
      ensures this.shared == shared && this.lmHead == lmHead && this.others == others
    {
      this.encoderBlocks := encoderBlocks;
      this.decoderBlocks := decoderBlocks;
      this.shared := shared;
      this.lmHead := lmHead;
      this.others := others;
    }

    /** `sum(p.numel() for p in model.parameters() [if p.requires_grad])`. */
    function ParamCount(onlyTrainable: bool): nat
      reads this
    {
      BlocksCount(encoderBlocks, onlyTrainable) + BlocksCount(decoderBlocks, onlyTrainable)
      + Count(shared, onlyTrainable) + Count(lmHead, onlyTrainable) + Count(others, onlyTrainable)
    }

    lemma TrainableWithinTotal()
      ensures ParamCount(true) <= ParamCount(false)
    {
      BlocksTrainableAtMostTotal(encoderBlocks);
      BlocksTrainableAtMostTotal(decoderBlocks);
      TrainableAtMostTotal(shared);
      TrainableAtMostTotal(lmHead);
      TrainableAtMostTotal(others);
    }

    /** `freeze_layers`: clears `requires_grad` on the selected blocks and,
        when asked, on the shared embeddings and the LM head, and returns the
        total, trainable and frozen parameter counts. */
    method FreezeLayers(encoderSel: LayerSelection, decoderSel: LayerSelection,
                        freezeEmbeddings: bool, freezeLmHead: bool)
      returns (total: nat, trainable: nat, frozen: nat)
      modifies this
      ensures encoderBlocks == FreezeBlocks(old(encoderBlocks), encoderSel)
      ensures decoderBlocks == FreezeBlocks(old(decoderBlocks), decoderSel)
      ensures shared == if freezeEmbeddings then FreezeAll(old(shared)) else old(shared)
      ensures lmHead == if freezeLmHead then FreezeAll(old(lmHead)) else old(lmHead)
      ensures others == old(others)
      ensures total == ParamCount(false) == old(ParamCount(false))
      ensures trainable == ParamCount(true) <= old(ParamCount(true))
      ensures frozen == total - trainable
    {
      FreezeBlocksCounts(encoderBlocks, encoderSel);
      FreezeBlocksCounts(decoderBlocks, decoderSel);
      FreezeAllCounts(shared);
      FreezeAllCounts(lmHead);
      encoderBlocks := FreezeStack(encoderBlocks, encoderSel);
      decoderBlocks := FreezeStack(decoderBlocks, decoderSel);
      if freezeEmbeddings {
        shared := FreezeParams(shared);
      }
      if freezeLmHead {
        lmHead := FreezeParams(lmHead);
      }
      TrainableWithinTotal();
      total := ParamCount(false);
      trainable := ParamCount(true);
      frozen := total - trainable;
    }
  }

  /** The loop over block indices `range(num_layers)`. */
  method FreezeStack(blocks: seq<seq<Param>>, sel: LayerSelection) returns (r: seq<seq<Param>>)
    ensures r == FreezeBlocks(blocks, sel)
  {
    r := blocks;
    var i := 0;
    while i < |blocks|
      invariant 0 <= i <= |blocks| && |r| == |blocks|
      invariant forall j :: 0 <= j < i ==> r[j] == FreezeBlocks(blocks, sel)[j]
      invariant forall j :: i <= j < |blocks| ==> r[j] == blocks[j]
    {
      if Frozen(sel, i) {
        var block := FreezeParams(r[i]);
        r := r[i := block];
      }
      i := i + 1;
    }
  }

  /** `for param in block.parameters(): param.requires_grad = False`. */
  method FreezeParams(ps: seq<Param>) returns (r: seq<Param>)
    ensures r == FreezeAll(ps)
  {
    r := ps;
    var j := 0;
    while j < |ps|
      invariant 0 <= j <= |ps| && |r| == |ps|
      invariant forall k :: 0 <= k < j ==> r[k] == ps[k].(requiresGrad := false)
      invariant forall k :: j <= k < |ps| ==> r[k] == ps[k]
    {
      r := r[j := r[j].(requiresGrad := false)];
      j := j + 1;
    }
  }
}
