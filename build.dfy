/** Building the inference engine after its sources are in place: cmake in
    two stages on win32, a single `make` elsewhere. On win32 the output of
    the two cmake stages is watched for PowerShell prompts, and the process
    is asked to stop once a prompt has been seen before. */
module Build {
  import opened Names
  import opened Effects

  /** The message `build_linux` throws when `make` fails. */
  const MakeFailedError: string := "running 'make' failed"

  // ---------------------------------------------------------------------------
  // Watching process output for prompts
  // ---------------------------------------------------------------------------

  /** Whether a chunk of output matches `/^PS .*\/`: it begins with "PS ". */
  predicate IsPrompt(data: string)
    ensures IsPrompt(data) <==> "PS " <= data
  {
    |data| >= 3 && data[..3] == "PS "
  }

  /** How many of `chunks` are prompts. */
  function PromptCount(chunks: seq<string>): (n: nat)
    ensures n <= |chunks|
  {
    if chunks == [] then 0
    else PromptCount(chunks[..|chunks| - 1]) + (if IsPrompt(chunks[|chunks| - 1]) then 1 else 0)
  }

  /** For each chunk, whether the callback asks to kill the process on it,
      when the counter stood at `start` before the first chunk. */
  function KillFlags(start: nat, chunks: seq<string>): (r: seq<bool>)
    ensures |r| == |chunks|
  {
    if chunks == [] then []
    else
      KillFlags(start, chunks[..|chunks| - 1])
        + [IsPrompt(chunks[|chunks| - 1]) && start + PromptCount(chunks) >= 2]
  }

  /** The counter never goes down as chunks arrive. */
  lemma {:induction false} PromptCountMonotone(chunks: seq<string>, k: nat)
    requires k <= |chunks|
    ensures PromptCount(chunks[..k]) <= PromptCount(chunks)
  {
    if k < |chunks| {
      var init := chunks[..|chunks| - 1];
      PromptCountMonotone(init, k);
      assert init[..k] == chunks[..k];
    } else {
      assert chunks[..k] == chunks;
    }
  }

  /** Some chunk was counted exactly when some chunk is a prompt. */
  lemma {:induction false} PromptCountPositive(chunks: seq<string>)
    ensures PromptCount(chunks) > 0 <==> exists j :: 0 <= j < |chunks| && IsPrompt(chunks[j])
  {
    if chunks != [] {
      var init := chunks[..|chunks| - 1];
      PromptCountPositive(init);
      if exists j :: 0 <= j < |init| && IsPrompt(init[j]) {
        var j :| 0 <= j < |init| && IsPrompt(init[j]);
        assert chunks[j] == init[j];
      }
      if exists j :: 0 <= j < |chunks| && IsPrompt(chunks[j]) {
        var j :| 0 <= j < |chunks| && IsPrompt(chunks[j]);
        if j < |init| {
          assert init[j] == chunks[j];
        }
      }
    }
  }

  /** The kill decision on chunk `k` depends on that chunk and the chunks
      before it only. */
  lemma {:induction false} KillFlagsAt(start: nat, chunks: seq<string>)
    ensures forall k :: 0 <= k < |chunks| ==>
      KillFlags(start, chunks)[k] == (IsPrompt(chunks[k]) && start + PromptCount(chunks[..k + 1]) >= 2)
  {
    if chunks != [] {
      var init := chunks[..|chunks| - 1];
      KillFlagsAt(start, init);
      forall k | 0 <= k < |init|
        ensures init[k] == chunks[k] && init[..k + 1] == chunks[..k + 1]
      {
      }
      assert chunks[..|chunks|] == chunks;
    }
  }

  /** With the counter starting at zero, the process is asked to stop on
      exactly the prompts that follow an earlier prompt: the first prompt is
      let through, every later one kills. Other output never kills. */
  lemma KillsAfterFirstPrompt(chunks: seq<string>)
    ensures forall k :: 0 <= k < |chunks| ==>
      (KillFlags(0, chunks)[k] <==> IsPrompt(chunks[k]) && exists j :: 0 <= j < k && IsPrompt(chunks[j]))
  {
    KillFlagsAt(0, chunks);
    forall k | 0 <= k < |chunks|
      ensures KillFlags(0, chunks)[k] <==> IsPrompt(chunks[k]) && exists j :: 0 <= j < k && IsPrompt(chunks[j])
    {
      var before := chunks[..k];
      assert chunks[..k + 1][..k] == before;
      assert PromptCount(chunks[..k + 1]) == PromptCount(before) + (if IsPrompt(chunks[k]) then 1 else 0);
      PromptCountPositive(before);
      if exists j :: 0 <= j < k && IsPrompt(chunks[j]) {
        var j :| 0 <= j < k && IsPrompt(chunks[j]);
        assert before[j] == chunks[j];
      }
      if exists j :: 0 <= j < |before| && IsPrompt(before[j]) {
        var j :| 0 <= j < |before| && IsPrompt(before[j]);
        assert chunks[j] == before[j];
      }
    }
  }

  /** Why the counter is reset between the two stages: had it carried over
      from a configure stage that printed a prompt, the very first prompt of
      the release stage would already kill it, whereas after the reset the
      first prompt is let through. */
  lemma ResetSparesFirstPrompt(configure: seq<string>, release: seq<string>)
    requires exists j :: 0 <= j < |configure| && IsPrompt(configure[j])
    requires |release| > 0 && IsPrompt(release[0])
    ensures KillFlags(PromptCount(configure), release)[0]
    ensures !KillFlags(0, release)[0]
  {
    PromptCountPositive(configure);
    KillFlagsAt(PromptCount(configure), release);
    KillFlagsAt(0, release);
    assert release[..1][..0] == [];
  }

  /** The counter `ps_counter` shared by the callbacks of both cmake stages. */
  class PromptWatch {
    var count: nat

    constructor ()
      ensures count == 0
    {
      count := 0;
    }

    /** The callback on one chunk of output: count it if it is a prompt, and
        ask for a kill once two or more prompts have been counted. */
    method Observe(data: string) returns (kill: bool)
      modifies this
      ensures count == old(count) + (if IsPrompt(data) then 1 else 0)
      ensures kill <==> IsPrompt(data) && count >= 2
    {
      kill := false;
      if IsPrompt(data) {
        count := count + 1;
        if count >= 2 {
          kill := true;
        }
      }
    }

    /** `ps_counter = 0`. */
    method Reset()
      modifies this
      ensures count == 0
    {
      count := 0;
    }
  }

  /** `root.exec(cmd, cwd, callback)` with the callback watching for prompts:
      the command runs, and each chunk it prints is handed to the watcher in
      order. Returns whether the command succeeded and, for each chunk,
      whether a kill was asked for. */
  method ExecWatched(host: Host, cmd: Command, cwd: Path, watch: PromptWatch) returns (ok: bool, kills: seq<bool>)
    modifies host, watch
    ensures host.trace == old(host.trace) + [Action.Exec(cmd, cwd)]
    ensures ok == host.execReport(cmd, cwd)
    ensures kills == KillFlags(old(watch.count), host.output(cmd, cwd))
    ensures watch.count == old(watch.count) + PromptCount(host.output(cmd, cwd))
  {
    ok := host.Exec(cmd, cwd);
    var chunks := host.output(cmd, cwd);
    var start := watch.count;
    kills := [];
    for i := 0 to |chunks|
      invariant kills == KillFlags(start, chunks[..i])
      invariant watch.count == start + PromptCount(chunks[..i])
      invariant host.trace == old(host.trace) + [Action.Exec(cmd, cwd)]
    {
      assert chunks[..i + 1][..i] == chunks[..i];
      var kill := watch.Observe(chunks[i]);
      kills := kills + [kill];
    }
    assert chunks[..|chunks|] == chunks;
  }

  // ---------------------------------------------------------------------------
  // The build commands
  // ---------------------------------------------------------------------------

  /** cmake as installed in the virtual environment on win32. */
  function CMakePath(rootHome: string): Path
  {
    Join(Join(Join(Base(Text(rootHome)), VenvDir), ScriptsDir), CMakeTool)
  }

  /** The cmake build directory `<home>/build`. */
  function BuildPath(home: Path): Path
  {
    Join(home, BuildDir)
  }

  function MkdirCommand(): Command
  {
    [Lit(Text("mkdir")), Lit(BuildDir)]
  }

  function RemoveCacheCommand(home: Path): Command
  {
    [Lit(RemoveItem), Lit(PathFlag), At(Join(BuildPath(home), CMakeCache))]
  }

  function ConfigureCommand(rootHome: string): Command
  {
    [At(CMakePath(rootHome)), Lit(Text(".."))]
  }

  function ReleaseCommand(rootHome: string): Command
  {
    [At(CMakePath(rootHome)), Lit(BuildFlag), Lit(Text(".")), Lit(ConfigFlag), Lit(Text("Release"))]
  }

  function MakeCommand(): Command
  {
    [Lit(Text("make"))]
  }

  /** The effects of the win32 build: create the build directory, delete a
      stale cmake cache, configure, then build the release configuration. */
  function Win32Plan(rootHome: string, home: Path): (r: seq<Action>)
    ensures |r| == 4
    ensures forall a :: a in r ==> a.Exec?
  {
    [ Exec(MkdirCommand(), home),
      Exec(RemoveCacheCommand(home), home),
      Exec(ConfigureCommand(rootHome), BuildPath(home)),
      Exec(ReleaseCommand(rootHome), BuildPath(home)) ]
  }

  /** cmake is `<root.home>/venv/Scripts/cmake`. */
  lemma CMakePathText(rootHome: string)
    ensures PathText(CMakePath(rootHome)) == rootHome + "/" + "venv" + "/" + "Scripts" + "/" + "cmake"
  {
    assert PathText(Join(Base(Text(rootHome)), VenvDir)) == rootHome + "/" + "venv";
  }

  /** The first win32 command reads `mkdir build`. */
  lemma MkdirCommandText()
    ensures CommandText(MkdirCommand()) == "mkdir" + " " + "build"
  {
    var c := MkdirCommand();
    CommandTextAppend(c[..1], c[1]);
    assert c[..1] + [c[1]] == c;
  }

  /** The second win32 command reads
      `Remove-Item -path <home>/build/CMakeCache.txt`. */
  lemma RemoveCacheCommandText(home: Path)
    ensures CommandText(RemoveCacheCommand(home)) ==
      "Remove-Item -path " + PathText(Join(BuildPath(home), CMakeCache))
  {
    CommandText3(Lit(RemoveItem), Lit(PathFlag), At(Join(BuildPath(home), CMakeCache)));
  }

  /** The file it deletes is `<engine>/build/CMakeCache.txt`. */
  lemma CMakeCachePathText(home: Path)
    ensures PathText(Join(BuildPath(home), CMakeCache)) == PathText(home) + "/build/CMakeCache.txt"
  {
    assert PathText(BuildPath(home)) == PathText(home) + "/" + "build";
  }

  /** The configure stage reads `<cmake> ..`. */
  lemma ConfigureCommandText(rootHome: string)
    ensures CommandText(ConfigureCommand(rootHome)) ==
      (rootHome + "/" + "venv" + "/" + "Scripts" + "/" + "cmake") + " " + ".."
  {
    CMakePathText(rootHome);
    CommandTextAppend([At(CMakePath(rootHome))], Lit(Text("..")));
  }

  /** The release stage reads `<cmake> --build . --config Release`. */
  lemma ReleaseCommandText(rootHome: string)
    ensures CommandText(ReleaseCommand(rootHome)) ==
      (rootHome + "/" + "venv" + "/" + "Scripts" + "/" + "cmake") + " " + "--build" + " " + "." + " " + "--config" + " " + "Release"
  {
    var c := ReleaseCommand(rootHome);
    CMakePathText(rootHome);
    CommandTextAppend(c[..1], c[1]);
    assert c[..1] + [c[1]] == c[..2];
    CommandTextAppend(c[..2], c[2]);
    assert c[..2] + [c[2]] == c[..3];
    CommandTextAppend(c[..3], c[3]);
    assert c[..3] + [c[3]] == c[..4];
    CommandTextAppend(c[..4], c[4]);
    assert c[..4] + [c[4]] == c;
  }

  /** `build_win32`: the four commands in order, with
      prompt watching on the two cmake stages and the counter reset in
      between. Command failures are not checked. */
  method BuildWin32(host: Host, home: Path) returns (configureKills: seq<bool>, releaseKills: seq<bool>)
    modifies host
    ensures host.trace == old(host.trace) + Win32Plan(host.home, home)
    ensures configureKills == KillFlags(0, host.output(ConfigureCommand(host.home), BuildPath(home)))
    ensures releaseKills == KillFlags(0, host.output(ReleaseCommand(host.home), BuildPath(home)))
  {
    var buildPath := BuildPath(home);
    var _ := host.Exec(MkdirCommand(), home);
    var _ := host.Exec(RemoveCacheCommand(home), home);
    var watch := new PromptWatch();
    var _, k1 := ExecWatched(host, ConfigureCommand(host.home), buildPath, watch);
    watch.Reset();
    var _, k2 := ExecWatched(host, ReleaseCommand(host.home), buildPath, watch);
    configureKills, releaseKills := k1, k2;
  }

  /** `build_linux`: run `make` in the engine's directory and throw when it
      fails. */
  method BuildLinux(host: Host, home: Path) returns (r: Outcome)
    modifies host
    ensures host.trace == old(host.trace) + [Action.Exec(MakeCommand(), home)]
    ensures r.Fail? <==> !host.execReport(MakeCommand(), home)
    ensures r.Fail? ==> r.error == MakeFailedError
  {
    var success := host.Exec(MakeCommand(), home);
    if !success {
      return Fail(MakeFailedError);
    }
    r := Pass;
  }
}
