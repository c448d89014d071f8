/** What `LLaMA.add` does, as a value: the model names it accepts, the files
    it stages for each model variant, and the exact sequence of effects it
    causes. The methods of module Llama are proved to produce these plans. */
module Plan {
  import opened Names
  import opened Effects

  // ---------------------------------------------------------------------------
  // Model variants
  // ---------------------------------------------------------------------------

  /** The four model sizes the installer knows. */
  datatype Variant = V7B | V13B | V30B | V65B {
    function Name(): string
    {
      match this
      case V7B => "7B"
      case V13B => "13B"
      case V30B => "30B"
      case V65B => "65B"
    }

    /** How many `consolidated.*.pth` shards the variant's weights come in. */
    function Shards(): (n: nat)
      ensures 1 <= n <= 8
    {
      match this
      case V7B => 1
      case V13B => 2
      case V30B => 4
      case V65B => 8
    }
  }

  /** The names `add` accepts, after upper-casing. */
  const ModelNames: seq<string> := ["7B", "13B", "30B", "65B"]

  /** The message of the error `add` throws for an unknown model name. */
  const InvalidModelError: string := "The model name must be one of: 7B, 13B, 30B, and 65B"

  /** The model staged when `add` is given no names. */
  const DefaultModel: string := "7B"

  /** The variant a (normalised) name denotes, if any. */
  function ParseVariant(name: string): (r: Option<Variant>)
    ensures r.Some? <==> name in ModelNames
    ensures r.Some? ==> r.value.Name() == name
  {
    if name == "7B" then Some(V7B)
    else if name == "13B" then Some(V13B)
    else if name == "30B" then Some(V30B)
    else if name == "65B" then Some(V65B)
    else None
  }

  /** Each variant is found again from its name. */
  lemma NameRoundTrip(v: Variant)
    ensures v.Name() in ModelNames
    ensures ParseVariant(v.Name()) == Some(v)
  {
  }

  // ---------------------------------------------------------------------------
  // Normalising and validating the requested names
  // ---------------------------------------------------------------------------

  /** `String.prototype.toUpperCase` on one character, for ASCII letters. */
  function ToUpperChar(c: char): char
  {
    if 'a' <= c <= 'z' then (c as int - 'a' as int + 'A' as int) as char else c
  }

  function ToUpper(s: string): (r: string)
    ensures |r| == |s|
    ensures forall i :: 0 <= i < |s| ==> r[i] == ToUpperChar(s[i])
  {
    if s == [] then [] else [ToUpperChar(s[0])] + ToUpper(s[1..])
  }

  /** Upper-casing twice is upper-casing once: names that are already
      normalised are left as they are. */
  lemma ToUpperIdempotent(s: string)
    ensures ToUpper(ToUpper(s)) == ToUpper(s)
  {
    assert forall i :: 0 <= i < |s| ==> ToUpperChar(ToUpperChar(s[i])) == ToUpperChar(s[i]);
  }

  /** The names `add` goes on to check and stage: the default when called with
      no names, otherwise every name upper-cased, order and repeats kept. */
  function Requested(models: seq<string>): (r: seq<string>)
    ensures |models| == 0 ==> r == [DefaultModel]
    ensures |models| > 0 ==> |r| == |models|
    ensures |models| > 0 ==> forall i :: 0 <= i < |models| ==> r[i] == ToUpper(models[i])
  {
    var names := if |models| == 0 then [DefaultModel] else models;
    assert ToUpper(DefaultModel) == DefaultModel;
    seq(|names|, i requires 0 <= i < |names| => ToUpper(names[i]))
  }

  /** The check `add` makes before staging anything: every name must be one of
      ModelNames; the first one that is not ends the call with an error. */
  function Validate(names: seq<string>): (r: Result<seq<Variant>>)
    ensures r.Ok? <==> forall i :: 0 <= i < |names| ==> names[i] in ModelNames
    ensures r.Err? ==> r.error == InvalidModelError
    ensures r.Ok? ==> |r.value| == |names|
    ensures r.Ok? ==> forall i :: 0 <= i < |names| ==> r.value[i].Name() == names[i]
  {
    if names == [] then Ok([])
    else
      var head := ParseVariant(names[0]);
      if head.None? then Err(InvalidModelError)
      else
        var rest := Validate(names[1..]);
        assert forall i :: 1 <= i < |names| ==> names[i] == names[1..][i - 1];
        if rest.Err? then rest else Ok([head.value] + rest.value)
  }

  // ---------------------------------------------------------------------------
  // Files and paths
  // ---------------------------------------------------------------------------

  /** The engine's directory, `<root.home>/llama`. */
  function LlamaHome(rootHome: string): Path
  {
    Join(Base(Text(rootHome)), LlamaDir)
  }

  function ModelsPath(home: Path): Path
  {
    Join(home, ModelsDir)
  }

  /** The directory a variant's files are staged in. */
  function ModelPath(home: Path, v: Variant): Path
  {
    Join(ModelsPath(home), Text(v.Name()))
  }

  /** Where a variant's weight file is copied from. */
  function SourcePath(v: Variant, file: Name): Path
  {
    Join(Join(Base(InboxDir), Text(v.Name())), file)
  }

  /** The first `n` shard files, in shard order. */
  function ShardFiles(n: nat): (r: seq<Name>)
    ensures |r| == n
  {
    if n == 0 then [] else ShardFiles(n - 1) + [ShardFile(n - 1)]
  }

  /** Entry `i` of the shard list names shard `i`. */
  lemma {:induction false} ShardFilesAt(n: nat)
    ensures forall i :: 0 <= i < n ==> ShardFiles(n)[i] == ShardFile(i)
  {
    if n > 0 {
      ShardFilesAt(n - 1);
    }
  }

  /** The files `download` copies for a variant: the checklist, the
      parameters, then one file per shard. */
  function WeightFiles(v: Variant): (r: seq<Name>)
    ensures |r| == 2 + v.Shards()
    ensures r[0] == ChecklistFile && r[1] == ParamsFile
  {
    [ChecklistFile, ParamsFile] + ShardFiles(v.Shards())
  }

  /** After the checklist and the parameters come the shards, in order, and
      no file is copied twice. */
  lemma WeightFilesAt(v: Variant)
    ensures forall i :: 0 <= i < v.Shards() ==> WeightFiles(v)[2 + i] == ShardFile(i)
  {
    ShardFilesAt(v.Shards());
  }

  /** No file is copied twice. */
  lemma WeightFilesDistinct(v: Variant)
    ensures forall j, k :: 0 <= j < k < |WeightFiles(v)| ==> WeightFiles(v)[j] != WeightFiles(v)[k]
  {
    var files := WeightFiles(v);
    var shards := ShardFiles(v.Shards());
    ShardFilesAt(v.Shards());
    assert files == [ChecklistFile, ParamsFile] + shards;
    forall j, k | 0 <= j < k < |files|
      ensures files[j] != files[k]
    {
      if k >= 2 {
        assert files[k] == shards[k - 2] == ShardFile(k - 2);
        if j >= 2 {
          assert files[j] == shards[j - 2] == ShardFile(j - 2);
        }
      }
    }
  }

  /** The two tokenizer files every variant shares, in download order. */
  const TokenizerFiles: seq<Name> := [TokenizerChecklistFile, TokenizerModelFile]

  /** The half-precision weights of shard `i`, written by the convert step. */
  function F16File(home: Path, v: Variant, i: nat): Path
  {
    Join(ModelPath(home, v), F16Weights(i))
  }

  /** The 4-bit weights of shard `i`, written by the quantize step. */
  function Q4File(home: Path, v: Variant, i: nat): Path
  {
    Join(ModelPath(home, v), Q4Weights(i))
  }

  /** The interpreter of the installer's virtual environment. */
  function PythonPath(p: Platform, rootHome: string): (r: Path)
    ensures r.Sub? && r.dir.Sub? && r.dir.dir == Join(Base(Text(rootHome)), VenvDir)
  {
    var venv := Join(Base(Text(rootHome)), VenvDir);
    if p == Win32 then Join(Join(venv, ScriptsDir), PythonExe) else Join(Join(venv, BinDir), PythonBin)
  }

  /** Where the quantize tool is run from. */
  function QuantizeDir(p: Platform, home: Path): Path
  {
    if p == Win32 then Join(Join(home, BuildDir), ReleaseDir) else home
  }

  // ---------------------------------------------------------------------------
  // The paths and commands written out
  // ---------------------------------------------------------------------------

  /** The interpreter is `<root.home>/venv/Scripts/python.exe` on win32 and
      `<root.home>/venv/bin/python` elsewhere. */
  lemma PythonPathText(p: Platform, rootHome: string)
    ensures PathText(PythonPath(p, rootHome)) ==
      if p == Win32 then rootHome + "/" + "venv" + "/" + "Scripts" + "/" + "python.exe"
      else rootHome + "/" + "venv" + "/" + "bin" + "/" + "python"
  {
    assert PathText(Join(Base(Text(rootHome)), VenvDir)) == rootHome + "/" + "venv";
  }

  /** Weight files are copied from `/home/alexj/inbox/LLaMA/<model>/<file>`
      into the variant directory that ModelFileText writes out. */
  lemma SourcePathText(v: Variant, file: Name)
    ensures PathText(SourcePath(v, file)) == "/home/alexj/inbox/LLaMA" + "/" + v.Name() + "/" + Spell(file)
  {
    assert PathText(Join(Base(InboxDir), Text(v.Name()))) == "/home/alexj/inbox/LLaMA" + "/" + v.Name();
  }

  /** A file of a variant is `<home>/models/<model>/<file>`. */
  lemma ModelFileText(home: Path, v: Variant, file: Name)
    ensures PathText(Join(ModelPath(home, v), file)) == PathText(home) + "/" + "models" + "/" + v.Name() + "/" + Spell(file)
  {
    ModelPathText(home, v);
  }

  /** A variant's directory is `<home>/models/<model>`. */
  lemma ModelPathText(home: Path, v: Variant)
    ensures PathText(ModelPath(home, v)) == PathText(home) + "/" + "models" + "/" + v.Name()
  {
    assert PathText(ModelsPath(home)) == PathText(home) + "/" + "models";
  }

  /** The half-precision output of shard `i` is
      `<home>/models/<model>/ggml-model-f16.bin<suffix>`. */
  lemma F16FileText(home: Path, v: Variant, i: nat)
    ensures PathText(F16File(home, v, i)) ==
      PathText(home) + "/" + "models" + "/" + v.Name() + "/" + ("ggml-model-f16.bin" + ShardSuffix(i))
  {
    ModelFileText(home, v, F16Weights(i));
  }

  /** The 4-bit output of shard `i` is
      `<home>/models/<model>/ggml-model-q4_0.bin<suffix>`. */
  lemma Q4FileText(home: Path, v: Variant, i: nat)
    ensures PathText(Q4File(home, v, i)) ==
      PathText(home) + "/" + "models" + "/" + v.Name() + "/" + ("ggml-model-q4_0.bin" + ShardSuffix(i))
  {
    ModelFileText(home, v, Q4Weights(i));
  }

  /** The quantize tool runs in `<home>/build/Release` on win32 and in
      `<home>` elsewhere. */
  lemma QuantizeDirText(p: Platform, home: Path)
    ensures PathText(QuantizeDir(p, home)) ==
      if p == Win32 then PathText(home) + "/" + "build" + "/" + "Release" else PathText(home)
  {
  }

  // ---------------------------------------------------------------------------
  // Plans: the effects of download, convert and quantize
  // ---------------------------------------------------------------------------

  /** Copy each of `files` from the source tree into the variant's directory. */
  function CopyActions(home: Path, v: Variant, files: seq<Name>): (r: seq<Action>)
    ensures |r| == |files|
  {
    if files == [] then []
    else
      var last := files[|files| - 1];
      CopyActions(home, v, files[..|files| - 1]) + [Copy(SourcePath(v, last), Join(ModelPath(home, v), last))]
  }

  /** Copy `k` copies the `k`-th file. */
  lemma {:induction false} CopyActionsAt(home: Path, v: Variant, files: seq<Name>)
    ensures forall k :: 0 <= k < |files| ==>
      CopyActions(home, v, files)[k] == Copy(SourcePath(v, files[k]), Join(ModelPath(home, v), files[k]))
  {
    if files != [] {
      var init := files[..|files| - 1];
      CopyActionsAt(home, v, init);
      assert forall k :: 0 <= k < |init| ==> init[k] == files[k];
    }
  }

  /** Download one tokenizer file into the models directory. */
  function FetchAction(home: Path, file: Name): Action
  {
    Fetch(TokenizerUrl(file), Join(ModelsPath(home), file))
  }

  function FetchActions(home: Path, files: seq<Name>): (r: seq<Action>)
    ensures |r| == |files|
  {
    if files == [] then []
    else FetchActions(home, files[..|files| - 1]) + [FetchAction(home, files[|files| - 1])]
  }

  /** `download(model)`: create the variant's directory, copy its weight
      files, then fetch both tokenizer files, whether or not they exist. */
  function DownloadPlan(home: Path, v: Variant): (r: seq<Action>)
    ensures |r| == 5 + v.Shards()
  {
    [MakeDir(ModelPath(home, v))]
      + CopyActions(home, v, WeightFiles(v))
      + FetchActions(home, TokenizerFiles)
  }

  /** The command converting a variant's original weights to half precision. */
  function ConvertCommand(p: Platform, rootHome: string, v: Variant): Command
  {
    [At(PythonPath(p, rootHome)), Lit(ConvertScript), Lit(ModelArg(v.Name())), Lit(Text("1"))]
  }

  function ConvertAction(p: Platform, rootHome: string, v: Variant): Action
  {
    Exec(ConvertCommand(p, rootHome, v), LlamaHome(rootHome))
  }

  /** The convert command reads `<python> convert-pth-to-ggml.py models/<model>/ 1`. */
  lemma ConvertCommandText(p: Platform, rootHome: string, v: Variant)
    ensures CommandText(ConvertCommand(p, rootHome, v)) ==
      PathText(PythonPath(p, rootHome)) + " " + "convert-pth-to-ggml.py" + " " + ("models/" + v.Name() + "/") + " " + "1"
  {
    CommandText4(At(PythonPath(p, rootHome)), Lit(ConvertScript), Lit(ModelArg(v.Name())), Lit(Text("1")));
  }

  /** A shard is skipped when both its output files already exist. */
  predicate Quantized(home: Path, v: Variant, i: nat, fileExists: Path -> bool)
  {
    fileExists(F16File(home, v, i)) && fileExists(Q4File(home, v, i))
  }

  /** The command quantizing shard `i`. */
  function QuantizeCommand(home: Path, v: Variant, i: nat): Command
  {
    [Lit(QuantizeTool), At(F16File(home, v, i)), At(Q4File(home, v, i)), Lit(Text("2"))]
  }

  function QuantizeAction(p: Platform, home: Path, v: Variant, i: nat): Action
  {
    Exec(QuantizeCommand(home, v, i), QuantizeDir(p, home))
  }

  /** The quantize command reads `./quantize <f16 file> <q4_0 file> 2`. */
  lemma QuantizeCommandText(home: Path, v: Variant, i: nat)
    ensures CommandText(QuantizeCommand(home, v, i)) ==
      "./quantize" + " " + PathText(F16File(home, v, i)) + " " + PathText(Q4File(home, v, i)) + " " + "2"
  {
    CommandText4(Lit(QuantizeTool), At(F16File(home, v, i)), At(Q4File(home, v, i)), Lit(Text("2")));
  }

  /** The indices below `n` that `skip` does not rule out, in increasing
      order: the iterations of a loop over `0..n` that do not `continue`. */
  function Pending(n: nat, skip: nat -> bool): (r: seq<nat>)
    ensures |r| <= n
  {
    if n == 0 then []
    else
      var before := Pending(n - 1, skip);
      if skip(n - 1) then before else before + [n - 1]
  }

  /** Exactly the indices below `n` that are not skipped are pending, each
      once and in increasing order. */
  lemma {:induction false} PendingSpec(n: nat, skip: nat -> bool)
    ensures var r := Pending(n, skip);
      && (forall k :: 0 <= k < |r| ==> r[k] < n && !skip(r[k]))
      && (forall i :: 0 <= i < n && !skip(i) ==> i in r)
      && (forall j, k :: 0 <= j < k < |r| ==> r[j] < r[k])
  {
    if n > 0 {
      PendingSpec(n - 1, skip);
    }
  }

  /** The shards of a variant that still need quantizing, in shard order. */
  function PendingShards(home: Path, v: Variant, fileExists: Path -> bool): seq<nat>
  {
    Pending(v.Shards(), SkipShard(home, v, fileExists))
  }

  /** The skip test of the quantize loop, as a function of the shard. */
  function SkipShard(home: Path, v: Variant, fileExists: Path -> bool): nat -> bool
  {
    (i: nat) => Quantized(home, v, i, fileExists)
  }

  /** The quantize commands for the shards below `n`. */
  function QuantizeBelow(p: Platform, home: Path, v: Variant, fileExists: Path -> bool, n: nat): seq<Action>
  {
    QuantizeActions(p, home, v, Pending(n, SkipShard(home, v, fileExists)))
  }

  /** Looking at one more shard adds its command unless it is skipped. */
  lemma QuantizeBelowStep(p: Platform, home: Path, v: Variant, fileExists: Path -> bool, n: nat)
    ensures QuantizeBelow(p, home, v, fileExists, n + 1) ==
      QuantizeBelow(p, home, v, fileExists, n)
        + (if Quantized(home, v, n, fileExists) then [] else [QuantizeAction(p, home, v, n)])
  {
    var done := Pending(n, SkipShard(home, v, fileExists));
    assert (done + [n])[..|done|] == done;
  }

  function QuantizeActions(p: Platform, home: Path, v: Variant, shards: seq<nat>): (r: seq<Action>)
    ensures |r| == |shards|
  {
    if shards == [] then []
    else QuantizeActions(p, home, v, shards[..|shards| - 1]) + [QuantizeAction(p, home, v, shards[|shards| - 1])]
  }

  /** Command `k` quantizes the `k`-th shard listed. */
  lemma {:induction false} QuantizeActionsAt(p: Platform, home: Path, v: Variant, shards: seq<nat>)
    ensures forall k :: 0 <= k < |shards| ==>
      QuantizeActions(p, home, v, shards)[k] == QuantizeAction(p, home, v, shards[k])
  {
    if shards != [] {
      var init := shards[..|shards| - 1];
      QuantizeActionsAt(p, home, v, init);
      assert forall k :: 0 <= k < |init| ==> init[k] == shards[k];
    }
  }

  /** `quantize(model)`: one quantize command per shard not yet quantized. */
  function QuantizePlan(p: Platform, home: Path, v: Variant, fileExists: Path -> bool): (r: seq<Action>)
    ensures |r| <= v.Shards()
  {
    QuantizeActions(p, home, v, PendingShards(home, v, fileExists))
  }

  /** Everything `add` does for one variant: download, convert, quantize. */
  function ModelPlan(p: Platform, rootHome: string, v: Variant, fileExists: Path -> bool): (r: seq<Action>)
    ensures 6 + v.Shards() <= |r| <= 6 + 2 * v.Shards()
  {
    var home := LlamaHome(rootHome);
    DownloadPlan(home, v) + [ConvertAction(p, rootHome, v)] + QuantizePlan(p, home, v, fileExists)
  }

  /** The variants `vs` staged one after another, in order, `plan` giving the
      effects of staging one. */
  function Stage(vs: seq<Variant>, plan: Variant -> seq<Action>): seq<Action>
  {
    if vs == [] then []
    else Stage(vs[..|vs| - 1], plan) + plan(vs[|vs| - 1])
  }

  /** The requested variants staged one after another, in the order requested. */
  function StagePlan(p: Platform, rootHome: string, vs: seq<Variant>, fileExists: Path -> bool): seq<Action>
  {
    Stage(vs, (v: Variant) => ModelPlan(p, rootHome, v, fileExists))
  }

  /** Staging one more variant appends its effects. */
  lemma StagePlanStep(p: Platform, rootHome: string, vs: seq<Variant>, fileExists: Path -> bool, i: nat)
    requires i < |vs|
    ensures StagePlan(p, rootHome, vs[..i + 1], fileExists)
      == StagePlan(p, rootHome, vs[..i], fileExists) + ModelPlan(p, rootHome, vs[i], fileExists)
  {
    assert vs[..i + 1][..i] == vs[..i];
  }

  /** `add(...models)`: the error it throws, or every effect it causes. */
  function AddPlan(p: Platform, rootHome: string, models: seq<string>, fileExists: Path -> bool): (r: Result<seq<Action>>)
    ensures r.Err? ==> r.error == InvalidModelError
  {
    match Validate(Requested(models))
    case Err(e) => Err(e)
    case Ok(vs) => Ok(StagePlan(p, rootHome, vs, fileExists))
  }

  // ---------------------------------------------------------------------------
  // Properties of the plans
  // ---------------------------------------------------------------------------

  /** Validation of names that are all known yields their variants. */
  lemma {:induction false} ValidateKnown(names: seq<string>, vs: seq<Variant>)
    requires |names| == |vs|
    requires forall i :: 0 <= i < |vs| ==> names[i] == vs[i].Name()
    ensures Validate(names) == Ok(vs)
  {
    if vs != [] {
      NameRoundTrip(vs[0]);
      ValidateKnown(names[1..], vs[1..]);
      assert [vs[0]] + vs[1..] == vs;
    }
  }

  /** Called with no names, `add` stages exactly the 7B variant. */
  lemma DefaultStagesOnly7B(p: Platform, rootHome: string, fileExists: Path -> bool)
    ensures Requested([]) == ["7B"]
    ensures Validate(Requested([])) == Ok([V7B])
    ensures AddPlan(p, rootHome, [], fileExists) == Ok(StagePlan(p, rootHome, [V7B], fileExists))
  {
    ValidateKnown(["7B"], [V7B]);
  }

  /** `add` fails exactly when some requested name, upper-cased, is not a
      model name, and then with the fixed message. */
  lemma AddFailsIffUnknownName(p: Platform, rootHome: string, models: seq<string>, fileExists: Path -> bool)
    ensures AddPlan(p, rootHome, models, fileExists).Err? <==>
      exists i :: 0 <= i < |Requested(models)| && Requested(models)[i] !in ModelNames
    ensures AddPlan(p, rootHome, models, fileExists).Err? ==>
      AddPlan(p, rootHome, models, fileExists).error == InvalidModelError
  {
  }

  /** Names are upper-cased before they are checked: "7b" is accepted as
      7B, and the order of the names is kept. */
  lemma UpperCasedBeforeCheck()
    ensures Requested(["7b", "13B"]) == ["7B", "13B"]
    ensures Validate(Requested(["7b", "13B"])) == Ok([V7B, V13B])
  {
    assert ToUpper("7b") == "7B";
    assert ToUpper("13B") == "13B";
    ValidateKnown(["7B", "13B"], [V7B, V13B]);
  }

  /** Repeats are kept: asking for 7B twice, in any case, stages it twice. */
  lemma RepeatsKept(p: Platform, rootHome: string, fileExists: Path -> bool)
    ensures Requested(["7B", "7b"]) == ["7B", "7B"]
    ensures AddPlan(p, rootHome, ["7B", "7b"], fileExists) == Ok(StagePlan(p, rootHome, [V7B, V7B], fileExists))
  {
    assert ToUpper("7b") == "7B";
    assert ToUpper("7B") == "7B";
    ValidateKnown(["7B", "7B"], [V7B, V7B]);
  }

  /** `download` first creates the variant's directory, then copies the
      checklist, the parameters and every shard, in that order, each from the
      source tree to the variant's directory, and last fetches the two
      tokenizer files, checklist first. */
  lemma DownloadPlanLayout(home: Path, v: Variant)
    ensures var plan := DownloadPlan(home, v); var files := WeightFiles(v); var n := v.Shards();
      && |plan| == 5 + n
      && plan[0] == MakeDir(ModelPath(home, v))
      && (forall k :: 0 <= k < 2 + n ==> plan[1 + k] == Copy(SourcePath(v, files[k]), Join(ModelPath(home, v), files[k])))
      && plan[3 + n] == Fetch(TokenizerUrl(TokenizerChecklistFile), Join(ModelsPath(home), TokenizerChecklistFile))
      && plan[4 + n] == Fetch(TokenizerUrl(TokenizerModelFile), Join(ModelsPath(home), TokenizerModelFile))
  {
    var files := WeightFiles(v);
    var copies := CopyActions(home, v, files);
    CopyActionsAt(home, v, files);
    TokenizerFetches(home);
    LayoutAround(MakeDir(ModelPath(home, v)), copies, FetchActions(home, TokenizerFiles));
  }

  /** `download` runs no command. */
  lemma DownloadRunsNothing(home: Path, v: Variant)
    ensures forall k :: 0 <= k < |DownloadPlan(home, v)| ==> !DownloadPlan(home, v)[k].Exec?
  {
    var plan := DownloadPlan(home, v);
    var files := WeightFiles(v);
    var copies := CopyActions(home, v, files);
    CopyActionsAt(home, v, files);
    TokenizerFetches(home);
    LayoutAround(MakeDir(ModelPath(home, v)), copies, FetchActions(home, TokenizerFiles));
    forall k | 0 <= k < |plan|
      ensures !plan[k].Exec?
    {
      if 1 <= k < 1 + |copies| {
        var j := k - 1;
        assert plan[1 + j] == copies[j];
      }
    }
  }

  /** The tokenizer is fetched checklist first, then the model. */
  lemma TokenizerFetches(home: Path)
    ensures FetchActions(home, TokenizerFiles) ==
      [FetchAction(home, TokenizerChecklistFile), FetchAction(home, TokenizerModelFile)]
  {
    var tokenizer := TokenizerFiles;
    assert tokenizer[..1] == [TokenizerChecklistFile] && tokenizer[..1][..0] == [];
    assert FetchActions(home, tokenizer[..1]) == [FetchAction(home, TokenizerChecklistFile)];
  }

  /** Where the parts of `[x] + b + c` lie. */
  lemma LayoutAround(x: Action, b: seq<Action>, c: seq<Action>)
    ensures var s := [x] + b + c;
      && |s| == 1 + |b| + |c|
      && s[0] == x
      && (forall k :: 0 <= k < |b| ==> s[1 + k] == b[k])
      && (forall k :: 0 <= k < |c| ==> s[1 + |b| + k] == c[k])
  {
  }

  /** When every shard's outputs already exist, quantize runs nothing. */
  lemma QuantizeAllDone(p: Platform, home: Path, v: Variant, fileExists: Path -> bool)
    requires forall i :: 0 <= i < v.Shards() ==> Quantized(home, v, i, fileExists)
    ensures QuantizePlan(p, home, v, fileExists) == []
  {
    PendingShardsSpec(home, v, fileExists);
    QuantizePlanAt(p, home, v, fileExists);
  }

  /** When no shard's outputs are both present, quantize runs one command
      per shard, in shard order. */
  lemma QuantizeNoneDone(p: Platform, home: Path, v: Variant, fileExists: Path -> bool)
    requires forall i :: 0 <= i < v.Shards() ==> !Quantized(home, v, i, fileExists)
    ensures |QuantizePlan(p, home, v, fileExists)| == v.Shards()
    ensures forall i :: 0 <= i < v.Shards() ==> QuantizePlan(p, home, v, fileExists)[i] == QuantizeAction(p, home, v, i)
  {
    AllShardsPending(home, v, fileExists);
    QuantizePlanAt(p, home, v, fileExists);
  }

  /** When no shard's outputs are both present, every shard is pending, in
      shard order. */
  lemma AllShardsPending(home: Path, v: Variant, fileExists: Path -> bool)
    requires forall i :: 0 <= i < v.Shards() ==> !Quantized(home, v, i, fileExists)
    ensures |PendingShards(home, v, fileExists)| == v.Shards()
    ensures forall i :: 0 <= i < v.Shards() ==> PendingShards(home, v, fileExists)[i] == i
  {
    var skip := SkipShard(home, v, fileExists);
    forall i | 0 <= i < v.Shards()
      ensures !skip(i)
    {
    }
    AllPending(v.Shards(), skip);
  }

  /** With nothing to skip, every index is pending, in order. */
  lemma {:induction false} AllPending(n: nat, skip: nat -> bool)
    requires forall i :: 0 <= i < n ==> !skip(i)
    ensures |Pending(n, skip)| == n
    ensures forall i :: 0 <= i < n ==> Pending(n, skip)[i] == i
  {
    if n > 0 {
      AllPending(n - 1, skip);
    }
  }

  /** The shards still to quantize are exactly the variant's shards whose
      outputs are not both present, each once and in shard order. */
  lemma PendingShardsSpec(home: Path, v: Variant, fileExists: Path -> bool)
    ensures var r := PendingShards(home, v, fileExists);
      && (forall k :: 0 <= k < |r| ==> r[k] < v.Shards() && !Quantized(home, v, r[k], fileExists))
      && (forall i :: 0 <= i < v.Shards() && !Quantized(home, v, i, fileExists) ==> i in r)
      && (forall j, k :: 0 <= j < k < |r| ==> r[j] < r[k])
  {
    PendingSpec(v.Shards(), SkipShard(home, v, fileExists));
  }

  /** The `k`-th quantize command is for the `k`-th pending shard. */
  lemma QuantizePlanAt(p: Platform, home: Path, v: Variant, fileExists: Path -> bool)
    ensures var pending := PendingShards(home, v, fileExists);
      && |QuantizePlan(p, home, v, fileExists)| == |pending|
      && forall k :: 0 <= k < |pending| ==> QuantizePlan(p, home, v, fileExists)[k] == QuantizeAction(p, home, v, pending[k])
  {
    QuantizeActionsAt(p, home, v, PendingShards(home, v, fileExists));
  }

  /** Commands for different shards differ. */
  lemma QuantizeActionInjective(p: Platform, home: Path, v: Variant, i: nat, j: nat)
    ensures QuantizeAction(p, home, v, i) == QuantizeAction(p, home, v, j) ==> i == j
  {
    if QuantizeAction(p, home, v, i) == QuantizeAction(p, home, v, j) {
      assert QuantizeCommand(home, v, i)[2] == QuantizeCommand(home, v, j)[2];
    }
  }

  /** A shard's quantize command is issued exactly when the shard exists and
      its two output files are not both present. */
  lemma QuantizeIssuedIff(p: Platform, home: Path, v: Variant, fileExists: Path -> bool, i: nat)
    ensures QuantizeAction(p, home, v, i) in QuantizePlan(p, home, v, fileExists) <==>
      i < v.Shards() && !Quantized(home, v, i, fileExists)
  {
    var pending := PendingShards(home, v, fileExists);
    var plan := QuantizePlan(p, home, v, fileExists);
    PendingShardsSpec(home, v, fileExists);
    QuantizePlanAt(p, home, v, fileExists);
    if QuantizeAction(p, home, v, i) in plan {
      var k :| 0 <= k < |plan| && plan[k] == QuantizeAction(p, home, v, i);
      QuantizeActionInjective(p, home, v, pending[k], i);
    }
    if i < v.Shards() && !Quantized(home, v, i, fileExists) {
      var k :| 0 <= k < |pending| && pending[k] == i;
      assert plan[k] == QuantizeAction(p, home, v, i);
    }
  }

  /** No shard is quantized twice in one call. */
  lemma QuantizeNoRepeats(p: Platform, home: Path, v: Variant, fileExists: Path -> bool)
    ensures var plan := QuantizePlan(p, home, v, fileExists);
      forall j, k :: 0 <= j < k < |plan| ==> plan[j] != plan[k]
  {
    var pending := PendingShards(home, v, fileExists);
    var plan := QuantizePlan(p, home, v, fileExists);
    PendingShardsSpec(home, v, fileExists);
    QuantizePlanAt(p, home, v, fileExists);
    forall j, k | 0 <= j < k < |plan| ensures plan[j] != plan[k] {
      QuantizeActionInjective(p, home, v, pending[j], pending[k]);
    }
  }

  /** Every quantize command is for a shard of the variant whose outputs
      are not both present. */
  lemma QuantizePlanSound(p: Platform, home: Path, v: Variant, fileExists: Path -> bool)
    ensures var q := QuantizePlan(p, home, v, fileExists);
      forall k :: 0 <= k < |q| ==>
        exists i :: 0 <= i < v.Shards() && !Quantized(home, v, i, fileExists) && q[k] == QuantizeAction(p, home, v, i)
  {
    var pending := PendingShards(home, v, fileExists);
    PendingShardsSpec(home, v, fileExists);
    QuantizePlanAt(p, home, v, fileExists);
    var q := QuantizePlan(p, home, v, fileExists);
    forall k | 0 <= k < |q|
      ensures exists i :: 0 <= i < v.Shards() && !Quantized(home, v, i, fileExists) && q[k] == QuantizeAction(p, home, v, i)
    {
      assert q[k] == QuantizeAction(p, home, v, pending[k]);
    }
  }

  /** Where the parts of `a + [x] + b` lie. */
  lemma SplitAround(a: seq<Action>, x: Action, b: seq<Action>)
    ensures var s := a + [x] + b;
      && s[..|a|] == a
      && s[|a|] == x
      && forall k :: |a| < k < |s| ==> s[k] == b[k - |a| - 1]
  {
  }

  /** For one variant the download comes first and runs nothing; then
      exactly one convert command; then only quantize commands, each for a
      shard of the variant whose outputs are not both present yet. */
  lemma ModelPlanOrder(p: Platform, rootHome: string, v: Variant, fileExists: Path -> bool)
    ensures var home := LlamaHome(rootHome);
      var plan := ModelPlan(p, rootHome, v, fileExists);
      var d := |DownloadPlan(home, v)|;
      && d < |plan|
      && plan[..d] == DownloadPlan(home, v)
      && (forall k :: 0 <= k < d ==> !plan[k].Exec?)
      && plan[d] == ConvertAction(p, rootHome, v)
      && (forall k :: d < k < |plan| ==>
            exists i :: 0 <= i < v.Shards() && !Quantized(home, v, i, fileExists) && plan[k] == QuantizeAction(p, home, v, i))
  {
    var home := LlamaHome(rootHome);
    var download := DownloadPlan(home, v);
    var q := QuantizePlan(p, home, v, fileExists);
    var plan := ModelPlan(p, rootHome, v, fileExists);
    SplitAround(download, ConvertAction(p, rootHome, v), q);
    DownloadRunsNothing(home, v);
    QuantizePlanSound(p, home, v, fileExists);
  }

  /** Where the actions of the `k`-th staged variant begin. */
  function StageOffset(vs: seq<Variant>, plan: Variant -> seq<Action>, k: nat): nat
    requires k <= |vs|
  {
    |Stage(vs[..k], plan)|
  }

  /** Variants are staged strictly one after another: the `k`-th variant's
      actions form one block, directly after the blocks of the variants
      before it. */
  lemma {:induction false} StageBlocks(vs: seq<Variant>, plan: Variant -> seq<Action>, k: nat)
    requires k < |vs|
    ensures StageOffset(vs, plan, k) + |plan(vs[k])| == StageOffset(vs, plan, k + 1) <= |Stage(vs, plan)|
    ensures Stage(vs, plan)[StageOffset(vs, plan, k)..StageOffset(vs, plan, k + 1)] == plan(vs[k])
  {
    PrefixOfStage(vs, plan, k + 1);
    assert vs[..k + 1][..k] == vs[..k];
    assert vs[..k + 1][k] == vs[k];
  }

  /** The effects of staging the first `k` variants are a prefix of the
      effects of staging all of them. */
  lemma {:induction false} PrefixOfStage(vs: seq<Variant>, plan: Variant -> seq<Action>, k: nat)
    requires k <= |vs|
    ensures Stage(vs[..k], plan) <= Stage(vs, plan)
  {
    if k < |vs| {
      PrefixOfStage(vs[..|vs| - 1], plan, k);
      assert vs[..|vs| - 1][..k] == vs[..k];
    } else {
      assert vs[..k] == vs;
    }
  }
}
