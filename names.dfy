/** The fixed pieces of text the installer writes into paths, URLs and command
    lines. They are kept symbolic so that reasoning about plans compares
    names rather than characters; `Spell` writes each one out exactly. */
module Names {

  datatype Name =
    | Text(text: string)        // text from outside (root.home) or a short word
    | LlamaDir                  // the engine's directory under root.home
    | ModelsDir                 // the directory holding every variant
    | VenvDir                   // the installer's virtual environment
    | ScriptsDir                // its executables on win32
    | BinDir                    // its executables elsewhere
    | PythonExe                 // its interpreter on win32
    | PythonBin                 // its interpreter elsewhere
    | BuildDir                  // the engine's cmake build directory
    | ReleaseDir                // the release output inside it
    | CMakeCache                // cmake's cache file
    | CMakeTool                 // cmake, as installed in the environment
    | InboxDir                  // the local directory the weights are copied from
    | ChecklistFile             // a variant's checksum list
    | ParamsFile                // a variant's hyper-parameters
    | ShardFile(i: nat)         // shard i of a variant's original weights
    | TokenizerChecklistFile    // checksums of the shared tokenizer
    | TokenizerModelFile        // the shared tokenizer
    | TokenizerUrl(file: Name)  // where a tokenizer file is downloaded from
    | F16Weights(i: nat)        // shard i converted to half precision
    | Q4Weights(i: nat)         // shard i quantized to 4 bits
    | ConvertScript             // the engine's conversion script
    | ModelArg(model: string)   // the convert script's argument for a variant
    | QuantizeTool              // the engine's quantize executable
    | RemoveItem                // the PowerShell command deleting a file
    | PathFlag                  // its option naming the file
    | BuildFlag                 // cmake's option to build a configured tree
    | ConfigFlag                // cmake's option choosing the configuration

  function Digit(d: nat): (c: char)
    requires d < 10
    ensures '0' <= c <= '9'
  {
    ('0' as int + d) as char
  }

  /** The decimal form of `n`, as a template literal `${n}` writes it. */
  function DecimalDigits(n: nat): (r: string)
    ensures |r| >= 1
    ensures forall i :: 0 <= i < |r| ==> '0' <= r[i] <= '9'
  {
    if n < 10 then [Digit(n)] else DecimalDigits(n / 10) + [Digit(n % 10)]
  }

  /** The number a string of decimal digits denotes. */
  function Value(s: string): nat
    requires forall i :: 0 <= i < |s| ==> '0' <= s[i] <= '9'
  {
    if s == [] then 0 else 10 * Value(s[..|s| - 1]) + (s[|s| - 1] as int - '0' as int)
  }

  /** The digits denote `n`, and a positive number has no leading zero. */
  lemma {:induction false} DecimalDigitsValue(n: nat)
    ensures Value(DecimalDigits(n)) == n
    ensures n > 0 ==> DecimalDigits(n)[0] != '0'
  {
    if n >= 10 {
      var d := DecimalDigits(n);
      DecimalDigitsValue(n / 10);
      assert d[..|d| - 1] == DecimalDigits(n / 10);
      assert d[0] == DecimalDigits(n / 10)[0];
    }
  }

  /** Different numbers are written differently. */
  lemma {:induction false} DecimalDigitsInjective(a: nat, b: nat)
    ensures DecimalDigits(a) == DecimalDigits(b) ==> a == b
  {
    if DecimalDigits(a) == DecimalDigits(b) {
      var da, db := DecimalDigits(a), DecimalDigits(b);
      if a >= 10 && b >= 10 {
        assert da[..|da| - 1] == DecimalDigits(a / 10);
        assert db[..|db| - 1] == DecimalDigits(b / 10);
        DecimalDigitsInjective(a / 10, b / 10);
        assert Digit(a % 10) == da[|da| - 1] == db[|db| - 1] == Digit(b % 10);
      }
    }
  }

  /** The file-name suffix of shard `i` of the converted weights: none for
      the first shard, a dot and the shard number for the others. */
  function ShardSuffix(i: nat): (r: string)
    ensures r == "" <==> i == 0
    ensures i > 0 ==> r[0] == '.' && r[1..] == DecimalDigits(i)
  {
    if i == 0 then "" else "." + DecimalDigits(i)
  }

  /** Different shards get different suffixes. */
  lemma ShardSuffixInjective(i: nat, j: nat)
    ensures ShardSuffix(i) == ShardSuffix(j) ==> i == j
  {
    if ShardSuffix(i) == ShardSuffix(j) && i > 0 && j > 0 {
      DecimalDigitsInjective(i, j);
    }
  }

  /** Four shards carry the suffixes "", ".1", ".2", ".3". */
  lemma FirstFourSuffixes()
    ensures [ShardSuffix(0), ShardSuffix(1), ShardSuffix(2), ShardSuffix(3)] == ["", ".1", ".2", ".3"]
  {
    assert DecimalDigits(1) == "1" && DecimalDigits(2) == "2" && DecimalDigits(3) == "3";
    assert ShardSuffix(1) == ".1";
    assert ShardSuffix(2) == ".2";
    assert ShardSuffix(3) == ".3";
  }

  /** The exact text of a name. */
  function Spell(n: Name): string
  {
    match n
    case Text(text) => text
    case LlamaDir => "llama"
    case ModelsDir => "models"
    case VenvDir => "venv"
    case ScriptsDir => "Scripts"
    case BinDir => "bin"
    case PythonExe => "python.exe"
    case PythonBin => "python"
    case BuildDir => "build"
    case ReleaseDir => "Release"
    case CMakeCache => "CMakeCache.txt"
    case CMakeTool => "cmake"
    case InboxDir => "/home/alexj/inbox/LLaMA"
    case ChecklistFile => "checklist.chk"
    case ParamsFile => "params.json"
    case ShardFile(i) => "consolidated.0" + DecimalDigits(i) + ".pth"
    case TokenizerChecklistFile => "tokenizer_checklist.chk"
    case TokenizerModelFile => "tokenizer.model"
    case TokenizerUrl(file) => "https://agi.gpt4.org/llama/LLaMA/" + Spell(file)
    case F16Weights(i) => "ggml-model-f16.bin" + ShardSuffix(i)
    case Q4Weights(i) => "ggml-model-q4_0.bin" + ShardSuffix(i)
    case ConvertScript => "convert-pth-to-ggml.py"
    case ModelArg(model) => "models/" + model + "/"
    case QuantizeTool => "./quantize"
    case RemoveItem => "Remove-Item"
    case PathFlag => "-path"
    case BuildFlag => "--build"
    case ConfigFlag => "--config"
  }

  /** The shard files are numbered with a leading zero: the first is
      `consolidated.00.pth`, the eighth `consolidated.07.pth`. */
  lemma ShardFileNames()
    ensures Spell(ShardFile(0)) == "consolidated.00.pth"
    ensures Spell(ShardFile(7)) == "consolidated.07.pth"
  {
    assert DecimalDigits(0) == "0" && DecimalDigits(7) == "7";
  }

  /** A common prefix can be cancelled. */
  lemma CancelPrefix(a: string, s: string, t: string)
    ensures a + s == a + t ==> s == t
  {
    if a + s == a + t {
      assert s == (a + s)[|a|..];
      assert t == (a + t)[|a|..];
    }
  }

  /** The converted and quantized files of different shards are spelled
      differently, so writing one shard's output never overwrites another's. */
  lemma WeightsSpellingInjective(i: nat, j: nat)
    requires i != j
    ensures Spell(F16Weights(i)) != Spell(F16Weights(j))
    ensures Spell(Q4Weights(i)) != Spell(Q4Weights(j))
  {
    CancelPrefix("ggml-model-f16.bin", ShardSuffix(i), ShardSuffix(j));
    CancelPrefix("ggml-model-q4_0.bin", ShardSuffix(i), ShardSuffix(j));
    ShardSuffixInjective(i, j);
  }
}
