# dalai: staging LLaMA weights and building the engine

dalai is an installer. It builds the llama.cpp inference engine from source and
stages LLaMA model weights for it. This project models the installer's `LLaMA`
engine object and its build helpers.

- `LLaMA.add(...models)` stages model variants. It applies the default
  variant, upper-cases the names and checks all of them. Then, for each variant
  in order, it copies the weight shards, fetches the tokenizer, and runs the
  convert and quantize tools.
- `LLaMA.make()` builds the engine. On win32 it runs two cmake stages and
  watches their output for PowerShell prompts with the `ps_counter` state
  machine. Elsewhere it runs one `make`.

Every effect on the outside world is recorded as an `Action` in the trace of a
`Host` object: a directory created, a file copied, a file fetched, or a command
run. The installer's methods are proved to append exactly the actions that a
pure plan function describes, and the plan functions carry the properties.

Modules:

- `Names`: the fixed file, directory and tool names. They are kept symbolic
  (`ShardFile(i)`, `F16Weights(i)`, ...), and `Spell` gives their exact text.
  This module also holds the shard-suffix rule.
- `Effects`: paths, command lines and actions, and the `Host` class that
  records them. The oracles `execReport` (did a command succeed) and `output`
  (the chunks a command printed) are fixed when the host is created.
- `Plan`: the variants and their shard counts, name normalisation and
  validation, file lists, commands, and the plans of `download`, `quantize`
  and `add`, with their properties.
- `Build`: the win32 and Linux builds, the prompt counter as the class
  `PromptWatch`, and the specification of its kill decisions, `KillFlags`.
- `Llama`: the class `LLaMA` with `Make`, `Add`, `Download` and `Quantize`,
  each proved to produce its plan.

Three behaviours of the code are worth stating plainly, since the model keeps them:

- `add` never looks at the result of the convert or quantize commands
  (llama.js:85-88, llama.js:120-123). A failing command therefore does not
  stop the batch; the next step and the next variant still run.
- The existence checks before copying a weight file, fetching a tokenizer
  file and converting are commented out (llama.js:82-84, llama.js:148-151,
  llama.js:164-167). Copy, fetch and convert therefore always run, and the
  tokenizer files are fetched even when they are already present.
- The weight files are copied from a fixed local directory,
  `/home/alexj/inbox/LLaMA`. The URL download of each shard is commented out.

## Model

| member | source | states |
|---|---|---|
| Names.DecimalDigits | llama.js:101 | `${i}` writes a number as a non-empty string of decimal digits |
| Names.DecimalDigitsValue | llama.js:101 | the digits `${i}` writes denote i, and a positive number has no leading zero |
| Names.DecimalDigitsInjective | llama.js:101 | different numbers are written differently |
| Names.ShardSuffix | llama.js:101 | the suffix is empty exactly for shard 0; otherwise it is a dot followed by the shard number |
| Names.ShardSuffixInjective | llama.js:101 | different shards get different suffixes |
| Names.FirstFourSuffixes | llama.js:100-101 | the four shards of 30B get the suffixes "", ".1", ".2" and ".3" |
| Names.ShardFileNames | llama.js:140-142 | the first shard file is `consolidated.00.pth` and the eighth is `consolidated.07.pth` |
| Names.WeightsSpellingInjective | llama.js:102-109 | the f16 and q4_0 files of different shards have different names, so no shard's output overwrites another's |
| Effects.Host.Exec | llama.js:120-123 | running a command appends one Exec of that command and directory to the trace, and reports the host's verdict on it |
| Effects.Host.Down | llama.js:170-172 | a download appends one Fetch of that URL to that destination |
| Effects.Host.CopyFile | llama.js:157-159 | a copy appends one Copy from source to destination |
| Effects.Host.MakeDirectory | llama.js:143-144 | creating the variant directory appends one MakeDir |
| Plan.Variant.Shards | llama.js:94-99 | every variant has 1 to 8 shards; the table 7B→1, 13B→2, 30B→4, 65B→8 is its body |
| Plan.ParseVariant | llama.js:58 | a name denotes a variant exactly when it is one of 7B, 13B, 30B and 65B, and that variant carries the name |
| Plan.NameRoundTrip | llama.js:58 | every variant's name is accepted and denotes that variant again |
| Plan.ToUpper | llama.js:53-55 | upper-casing keeps the length and upper-cases each character |
| Plan.ToUpperIdempotent | llama.js:53-55 | upper-casing an upper-cased name changes nothing |
| Plan.Requested | llama.js:50-55 | with no arguments the list is exactly ["7B"]; otherwise it has one entry per argument, in order, each the argument upper-cased |
| Plan.Validate | llama.js:57-62 | validation succeeds exactly when every name is a model name, yields one variant per name in order, and otherwise fails with "The model name must be one of: 7B, 13B, 30B, and 65B" |
| Plan.ValidateKnown | llama.js:57-62 | names of known variants validate to exactly those variants |
| Plan.DefaultStagesOnly7B | llama.js:50 | `add()` with no names stages exactly the 7B variant |
| Plan.AddFailsIffUnknownName | llama.js:57-62 | `add` fails exactly when some upper-cased name is not a model name, and then with the fixed message |
| Plan.UpperCasedBeforeCheck | llama.js:53-58 | ["7b", "13B"] is normalised to ["7B", "13B"] and accepted as 7B then 13B |
| Plan.RepeatsKept | llama.js:53-74 | ["7B", "7b"] stages 7B twice |
| Plan.ShardFiles | llama.js:140-142 | the loop lists one file per shard |
| Plan.ShardFilesAt | llama.js:140-142 | entry i of the shard list is shard i's file |
| Plan.WeightFiles | llama.js:139-142 | a variant has 2 + N weight files, the first `checklist.chk` and the second `params.json` |
| Plan.WeightFilesAt | llama.js:139-142 | after those two come the shard files in shard order |
| Plan.WeightFilesDistinct | llama.js:139-142 | no weight file is listed twice |
| Plan.PythonPath | llama.js:64-68 | the interpreter lies two levels inside `<root.home>/venv` (`Scripts/python.exe` on win32, `bin/python` elsewhere) |
| Plan.PythonPathText | llama.js:64-68 | the interpreter is `<root.home>/venv/Scripts/python.exe` on win32 and `<root.home>/venv/bin/python` elsewhere |
| Plan.SourcePathText | llama.js:157 | a weight file is copied from `/home/alexj/inbox/LLaMA/<model>/<file>` |
| Plan.ModelFileText | llama.js:158 | a variant's file lies at `<home>/models/<model>/<file>` |
| Plan.ModelPathText | llama.js:143 | a variant's directory is `<home>/models/<model>` |
| Plan.F16FileText | llama.js:102-105 | shard i's half-precision file is `<home>/models/<model>/ggml-model-f16.bin<suffix>` |
| Plan.Q4FileText | llama.js:106-109 | shard i's 4-bit file is `<home>/models/<model>/ggml-model-q4_0.bin<suffix>` |
| Plan.QuantizeDir | llama.js:116-119 | the directory quantize runs in: `<home>/build/Release` on win32, `<home>` elsewhere; its text is stated by QuantizeDirText |
| Plan.QuantizeDirText | llama.js:116-119 | quantize runs in `<home>/build/Release` on win32 and in `<home>` elsewhere |
| Plan.CopyActions | llama.js:146-160 | one copy per weight file |
| Plan.CopyActionsAt | llama.js:146-160 | copy k copies the k-th file from the source tree into the variant directory |
| Plan.FetchActions | llama.js:163-173 | one fetch per tokenizer file |
| Plan.TokenizerFetches | llama.js:162-173 | the tokenizer checklist is fetched first, then the tokenizer model |
| Plan.DownloadPlan | llama.js:126-174 | `download` causes exactly 5 + N effects: one mkdir, 2 + N copies, two fetches |
| Plan.DownloadPlanLayout | llama.js:139-173 | `download` creates the variant directory, then makes 2 + N copies in file order, then two fetches from `https://agi.gpt4.org/llama/LLaMA/<file>` into `<home>/models`, unconditionally |
| Plan.DownloadRunsNothing | llama.js:126-174 | `download` runs no command |
| Plan.ConvertCommandText | llama.js:85-88 | convert reads `<python> convert-pth-to-ggml.py models/<model>/ 1` |
| Plan.QuantizeCommandText | llama.js:120-123 | quantize reads `./quantize <f16 file> <q4_0 file> 2` |
| Plan.Quantized | llama.js:110 | the skip test: a shard is skipped when both its f16 and its q4_0 file exist; QuantizeIssuedIff states its effect |
| Plan.QuantizePlan | llama.js:93-125 | `quantize` runs at most N commands |
| Plan.Pending | llama.js:100-115 | the loop issues work for at most N shards |
| Plan.PendingSpec | llama.js:100-115 | the shards that are not skipped are exactly those not ruled out, each once and in increasing order |
| Plan.PendingShardsSpec | llama.js:100-115 | the pending shards are exactly the variant's shards whose two outputs are not both present, each once and in shard order |
| Plan.AllPending | llama.js:100-115 | with nothing skipped, every index is pending, in order |
| Plan.AllShardsPending | llama.js:100-115 | when no shard is finished, every shard is pending, in order |
| Plan.QuantizeBelowStep | llama.js:110-123 | one more loop iteration adds shard n's quantize command unless both its outputs exist |
| Plan.QuantizeActions | llama.js:120-123 | one command per pending shard |
| Plan.QuantizeActionsAt | llama.js:120-123 | command k quantizes the k-th pending shard |
| Plan.QuantizePlanAt | llama.js:100-124 | the quantize commands are those of the pending shards, in order |
| Plan.QuantizeActionInjective | llama.js:102-123 | commands for different shards differ |
| Plan.QuantizeIssuedIff | llama.js:110-123 | shard i's quantize command is issued exactly when i < N and its f16 and q4_0 files are not both present |
| Plan.QuantizeAllDone | llama.js:110-115 | when every shard's outputs exist, quantize runs nothing |
| Plan.QuantizeNoneDone | llama.js:100-123 | when no shard's outputs both exist, quantize runs exactly N commands, one per shard in shard order |
| Plan.QuantizeNoRepeats | llama.js:100-124 | no shard is quantized twice |
| Plan.QuantizePlanSound | llama.js:100-124 | every quantize command is for a shard of the variant whose outputs were not both present |
| Plan.ModelPlan | llama.js:74-91 | staging one variant causes between 6 + N and 6 + 2N effects: the download, one convert, and up to N quantize commands |
| Plan.ModelPlanOrder | llama.js:74-91 | for one variant: first the download, which runs nothing; then exactly one convert command; then only quantize commands for that variant's unfinished shards |
| Plan.StagePlan | llama.js:74-91 | the variants staged one after another in request order; StagePlanStep, StageBlocks and PrefixOfStage state its layout |
| Plan.AddPlan | llama.js:48-92 | `add` either fails, and then only with "The model name must be one of: 7B, 13B, 30B, and 65B", or causes its staging effects; AddFailsIffUnknownName states when it fails |
| Plan.StagePlanStep | llama.js:74-91 | staging one more variant appends that variant's effects |
| Plan.StageBlocks | llama.js:74-91 | each variant's effects form one contiguous block, right after the blocks of the variants requested before it |
| Plan.PrefixOfStage | llama.js:74-91 | the effects of the first k variants are a prefix of the effects of all of them |
| Build.IsPrompt | build.js:14 | a chunk matches `/^PS .*/` exactly when "PS " is a prefix of it; `.*` accepts any rest, even an empty one |
| Build.PromptCount | build.js:14-15 | at most one count per chunk |
| Build.KillFlags | build.js:12-21 | one kill decision per chunk |
| Build.PromptCountMonotone | build.js:14-15 | the counter never goes down while output arrives |
| Build.PromptCountPositive | build.js:14-15 | the count is positive exactly when some chunk begins with "PS " |
| Build.KillFlagsAt | build.js:14-19 | the decision on chunk k is: chunk k is a prompt and the counter, including it, is at least 2 |
| Build.KillsAfterFirstPrompt | build.js:14-19 | starting from 0, a kill is asked for exactly on prompts that follow an earlier prompt: never on the first, on every later one, and never on other output |
| Build.ResetSparesFirstPrompt | build.js:24-33 | without the reset, a prompt during configure would make the release stage's first prompt kill it; after the reset that prompt is spared |
| Build.PromptWatch.constructor | build.js:11 | the counter starts at 0 |
| Build.PromptWatch.Observe | build.js:12-21 | a prompt increments the counter and any other chunk leaves it unchanged; a kill is asked for exactly on a prompt that brings the counter to 2 or more |
| Build.PromptWatch.Reset | build.js:24 | the counter is set back to 0 |
| Build.ExecWatched | build.js:22 | a watched command is recorded once, and its kill decisions are KillFlags over its output, from the counter's value before it |
| Build.CMakePathText | build.js:3-4 | cmake is `<root.home>/venv/Scripts/cmake` |
| Build.MkdirCommandText | build.js:8 | the first command reads `mkdir build` |
| Build.RemoveCacheCommandText | build.js:9 | the second command reads `Remove-Item -path <cache file>` |
| Build.CMakeCachePathText | build.js:5 | the cache file is `<home>/build/CMakeCache.txt` |
| Build.ConfigureCommandText | build.js:22 | the configure stage reads `<cmake> ..` |
| Build.ReleaseCommandText | build.js:35-36 | the release stage reads `<cmake> --build . --config Release` |
| Build.Win32Plan | build.js:8-36 | the win32 build issues four commands and no other effect |
| Build.BuildWin32 | build.js:1-37 | runs mkdir and Remove-Item in home, then configure and release in `<home>/build`, in that order; each stage's kill decisions start from a zero counter, so configure output never counts toward killing the release stage |
| Build.BuildLinux | build.js:39-45 | runs exactly `make` in home, and fails with "running 'make' failed" exactly when it reports failure |
| Llama.WeightFileList | llama.js:139-142 | the pushed list equals the variant's weight files |
| Llama.LLaMA.constructor | llama.js:33-37 | the engine directory is `<root.home>/llama` |
| Llama.LLaMA.Make | llama.js:39-46 | on win32 the win32 build's commands are issued, elsewhere exactly one `make` in home |
| Llama.LLaMA.Add | llama.js:48-92 | with an unknown name, `add` fails with the fixed message and leaves the trace unchanged; otherwise it appends exactly the plan: each variant's download, convert and quantize, in request order |
| Llama.LLaMA.StageAll | llama.js:74-91 | the loop over the checked variants appends exactly their staging effects, one variant after another in request order |
| Llama.LLaMA.StageModel | llama.js:75-90 | one pass of the loop appends exactly that variant's download, its convert command, then its quantize commands |
| Llama.LLaMA.Quantize | llama.js:93-125 | appends exactly the quantize commands of the shards whose outputs are not both present |
| Llama.LLaMA.QuantizeShard | llama.js:101-123 | one pass of the quantize loop appends nothing when both of shard i's outputs exist, and otherwise exactly one `./quantize` command in `<home>/build/Release` on win32 or `<home>` elsewhere |
| Llama.LLaMA.Download | llama.js:126-174 | appends exactly the download plan: mkdir, the copies, the two tokenizer fetches |
| Llama.LLaMA.CopyWeights | llama.js:146-160 | the copy loop appends one Copy per file, in order, from `/home/alexj/inbox/LLaMA/<model>` into the variant directory, with no existence check |
| Llama.LLaMA.FetchTokenizer | llama.js:162-173 | the fetch loop appends the two tokenizer fetches, checklist first, with no existence check |

## Left out

- Child processes are not spawned. Whether a command succeeds and what it
  prints are oracles fixed in the `Host`. `proc.kill()` is modelled as the
  kill flag returned for a chunk, and its effect on the running process (and
  thus on later output) is not modelled.
- Llama.LLaMA.Add: every copy and every fetch is taken to succeed. In the
  installer `fs.copyFileSync` throws when the source file under
  `/home/alexj/inbox/LLaMA` is missing, and `root.down` may reject. Either
  ends `add` part-way, after a partial trace, and the later variants are
  never staged. The model's `Add` does not capture that failure path.
- The network and the file system are not modelled: downloads, copies and
  `mkdir -p` are trace entries only. The User-Agent header of the tokenizer
  download is left out, and so is the ignored `mkdir` error.
- `path.join` and `path.resolve` are modelled as appending one name to a
  directory. Normalisation and resolution against the working directory are
  left out. `PathText` writes paths with "/".
- build.js calls `path.join` and `path.resolve` without importing `path`.
  The model treats these joins abstractly and does not reproduce the error
  the missing import would raise.
- `make()` starts the build without awaiting it. The model covers only
  which build runs, not the concurrency or the lost outcome.
- Logging, the usage banner printed on an invalid name, and the skip
  messages are left out.
- Plan.ToUpper: models `toUpperCase` for ASCII letters only. Other
  characters are left as they are, but real `toUpperCase` maps some
  non-ASCII letters; no such name is accepted either way.
- `os.platform()` is a constructor parameter (`Win32` or `Other`), not read
  from the system.
- The unused imports (terminal-kit, isomorphic-git, the downloader, http) and
  the unused `this.url` are left out. So are the unused `python_path` of
  `download` and the unused `outputFile` of `add`.
- `fileExists` is one fixed oracle for a whole `add` call. Files that convert
  or quantize write during the call are therefore not seen by a later
  existence check in the same call. For example, when a variant is requested
  twice, the second quantize sees the same files as the first.
- `build_linux` takes the `root` object and the engine directory rather than
  the `LLaMA` object, so the `Build` module does not depend on the `Llama`
  module.
