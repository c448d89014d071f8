/** The LLaMA engine of the installer: building it, and staging model
    variants (copy the weights, fetch the tokenizer, convert, quantize). Each
    method is proved to cause exactly the effects module Plan describes. */
module Llama {
  import opened Names
  import opened Effects
  import opened Plan
  import Build

  /** The files `download` copies for a variant, built as the source builds
      its list: the checklist and the parameters, then one name per shard. */
  method WeightFileList(v: Variant) returns (files: seq<Name>)
    ensures files == WeightFiles(v)
  {
    files := [ChecklistFile, ParamsFile];
    for i := 0 to v.Shards()
      invariant files == [ChecklistFile, ParamsFile] + ShardFiles(i)
    {
      files := files + [ShardFile(i)];
    }
  }

  class LLaMA {
    /** The installer object `root`, through which effects happen. */
    const host: Host
    /** The engine's directory, `<root.home>/llama`. */
    const home: Path
    /** `os.platform()`, read once when the module loads. */
    const platform: Platform

    predicate Valid()
    {
      home == LlamaHome(host.home)
    }

    constructor (host: Host, platform: Platform)
      ensures this.host == host && this.platform == platform
      ensures Valid()
    {
      this.host := host;
      this.platform := platform;
      this.home := LlamaHome(host.home);
    }

    /** `make()`: build the engine, with cmake on win32 and make elsewhere.
        The build is started without being awaited, so its outcome is not
        reported to the caller. */
    method Make()
      requires Valid()
      modifies host
      ensures platform == Win32 ==> host.trace == old(host.trace) + Build.Win32Plan(host.home, home)
      ensures platform != Win32 ==> host.trace == old(host.trace) + [Action.Exec(Build.MakeCommand(), home)]
    {
      if platform == Win32 {
        var _, _ := Build.BuildWin32(host, home);
      } else {
        var _ := Build.BuildLinux(host, home);
      }
    }

    /** `add(...models)`: check every requested name, then download, convert
        and quantize each variant in turn. An unknown name fails the call
        before anything happens. Otherwise every variant is staged: no
        command's result is checked, and every copy and fetch is taken to
        succeed (in the installer a missing source file or a failed download
        throws and ends the call part-way). */
    method Add(models: seq<string>, fileExists: Path -> bool) returns (r: Outcome)
      requires Valid()
      modifies host
      ensures AddPlan(platform, host.home, models, fileExists).Err? ==>
        r == Fail(AddPlan(platform, host.home, models, fileExists).error) && host.trace == old(host.trace)
      ensures AddPlan(platform, host.home, models, fileExists).Ok? ==>
        r == Pass && host.trace == old(host.trace) + AddPlan(platform, host.home, models, fileExists).value
    {
      var names := if |models| == 0 then [DefaultModel] else models;
      names := seq(|names|, i requires 0 <= i < |names| => ToUpper(names[i]));
      assert names == Requested(models);

      for i := 0 to |names|
        invariant forall j :: 0 <= j < i ==> names[j] in ModelNames
      {
        if names[i] !in ModelNames {
          return Fail(InvalidModelError);
        }
      }

      var vs := Validate(names).value;
      StageAll(vs, fileExists);
      r := Pass;
    }

    /** The loop of `add` over the checked variants, in request order. */
    method StageAll(vs: seq<Variant>, fileExists: Path -> bool)
      requires Valid()
      modifies host
      ensures host.trace == old(host.trace) + StagePlan(platform, host.home, vs, fileExists)
    {
      for i := 0 to |vs|
        invariant host.trace == old(host.trace) + StagePlan(platform, host.home, vs[..i], fileExists)
      {
        StageModel(vs[i], fileExists);
        AppendAssoc(old(host.trace), StagePlan(platform, host.home, vs[..i], fileExists), ModelPlan(platform, host.home, vs[i], fileExists));
        StagePlanStep(platform, host.home, vs, fileExists, i);
      }
      assert vs[..|vs|] == vs;
    }

    /** One pass of the loop in `add`: download the variant, convert its
        weights to half precision, then quantize them. */
    method StageModel(v: Variant, fileExists: Path -> bool)
      requires Valid()
      modifies host
      ensures host.trace == old(host.trace) + ModelPlan(platform, host.home, v, fileExists)
    {
      var python := PythonPath(platform, host.home);
      Download(v);
      var _ := host.Exec([At(python), Lit(ConvertScript), Lit(ModelArg(v.Name())), Lit(Text("1"))], home);
      Quantize(v, fileExists);
      ghost var download, convert := DownloadPlan(home, v), [ConvertAction(platform, host.home, v)];
      AppendAssoc(old(host.trace), download, convert);
      AppendAssoc(old(host.trace), download + convert, QuantizePlan(platform, home, v, fileExists));
    }

    /** `quantize(model)`: for each shard, skip it when both its outputs
        exist, otherwise run the quantize tool on it. */
    method Quantize(v: Variant, fileExists: Path -> bool)
      requires Valid()
      modifies host
      ensures host.trace == old(host.trace) + QuantizePlan(platform, home, v, fileExists)
    {
      for i := 0 to v.Shards()
        invariant host.trace == old(host.trace) + QuantizeBelow(platform, home, v, fileExists, i)
      {
        ghost var step := if Quantized(home, v, i, fileExists) then [] else [QuantizeAction(platform, home, v, i)];
        QuantizeShard(v, fileExists, i);
        QuantizeBelowStep(platform, home, v, fileExists, i);
        AppendAssoc(old(host.trace), QuantizeBelow(platform, home, v, fileExists, i), step);
      }
      assert QuantizeBelow(platform, home, v, fileExists, v.Shards()) == QuantizePlan(platform, home, v, fileExists);
    }

    /** One pass of the loop in `quantize`: shard `i` is skipped when both
        its outputs exist, and otherwise quantized in the platform's
        output directory. */
    method QuantizeShard(v: Variant, fileExists: Path -> bool, i: nat)
      requires Valid()
      modifies host
      ensures host.trace == old(host.trace)
        + (if Quantized(home, v, i, fileExists) then [] else [QuantizeAction(platform, home, v, i)])
    {
      var outputFile1 := F16File(home, v, i);
      var outputFile2 := Q4File(home, v, i);
      if fileExists(outputFile1) && fileExists(outputFile2) {
        return;
      }
      var binPath := if platform == Win32 then Join(Join(home, BuildDir), ReleaseDir) else home;
      var _ := host.Exec([Lit(QuantizeTool), At(outputFile1), At(outputFile2), Lit(Text("2"))], binPath);
    }

    /** `download(model)`: create the variant's directory, copy each weight
        file into it from the local source tree, then fetch both tokenizer
        files into the models directory. */
    method Download(v: Variant)
      requires Valid()
      modifies host
      ensures host.trace == old(host.trace) + DownloadPlan(home, v)
    {
      var files := WeightFileList(v);
      var resolvedPath := ModelPath(home, v);
      host.MakeDirectory(resolvedPath);
      CopyWeights(v, files);
      FetchTokenizer();
      AppendAssoc(old(host.trace), [MakeDir(resolvedPath)], CopyActions(home, v, files));
      AppendAssoc(old(host.trace), [MakeDir(resolvedPath)] + CopyActions(home, v, files), FetchActions(home, TokenizerFiles));
    }

    /** The copy loop of `download`: each file, in order, from the source
        tree into the variant's directory. */
    method CopyWeights(v: Variant, files: seq<Name>)
      modifies host
      ensures host.trace == old(host.trace) + CopyActions(home, v, files)
    {
      var resolvedPath := ModelPath(home, v);
      for i := 0 to |files|
        invariant host.trace == old(host.trace) + CopyActions(home, v, files[..i])
      {
        host.CopyFile(SourcePath(v, files[i]), Join(resolvedPath, files[i]));
        AppendAssoc(old(host.trace), CopyActions(home, v, files[..i]), [Copy(SourcePath(v, files[i]), Join(resolvedPath, files[i]))]);
        assert files[..i + 1][..i] == files[..i];
      }
      assert files[..|files|] == files;
    }

    /** The fetch loop of `download`: both tokenizer files, checklist first,
        into the models directory, whether or not they are present. */
    method FetchTokenizer()
      modifies host
      ensures host.trace == old(host.trace) + FetchActions(home, TokenizerFiles)
    {
      var files2 := TokenizerFiles;
      for i := 0 to |files2|
        invariant host.trace == old(host.trace) + FetchActions(home, files2[..i])
      {
        host.Down(TokenizerUrl(files2[i]), Join(ModelsPath(home), files2[i]));
        AppendAssoc(old(host.trace), FetchActions(home, files2[..i]), [FetchAction(home, files2[i])]);
        assert files2[..i + 1][..i] == files2[..i];
      }
      assert files2[..|files2|] == files2;
    }
  }
}
