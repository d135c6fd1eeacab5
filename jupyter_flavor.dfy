/**
 * The notebook helper that checks which JupyterHub image ("flavour") a
 * notebook runs in: `get_current_flavor`, `check_flavor` and
 * `get_flavor_info`, over the table of known flavours.
 *
 * The flavour file `~/.jupyter_flavor` is an input: its text, or None when
 * it does not exist. The printed notices are not modelled; the raised
 * exceptions are the `Err` side of a `Result`.
 */
module JupyterFlavor {

  import opened Wrappers
  import opened Strings
  import Paths

  /** `FLAVOR_DESCRIPTIONS` */
  const FlavorDescriptions: map<string, string> := map[
    "ml-gpu" := "Base ML/GPU environment (PyTorch, transformers, all service clients)",
    "agent-dev" := "Agent Development (LangChain, CrewAI, FAISS + ml-gpu)",
    "fine-tuning" := "Fine-Tuning Lab (Unsloth, QLoRA, PEFT, TRL + ml-gpu)"
  ]

  /** `FLAVOR_FILE` for a given home directory. */
  function FlavorFile(home: string): string {
    Paths.Join(home, ".jupyter_flavor")
  }

  /** The two exceptions the helper raises, with their `str()`. */
  datatype FlavorError = FileNotFound(message: string) | EnvironmentError(message: string)

  const MissingFilePrefix := "Jupyter flavor file not found at "
  const MissingFileSuffix := ". Are you running in a Thinkube JupyterHub environment?"

  function MissingFileMessage(home: string): string {
    MissingFilePrefix + FlavorFile(home) + MissingFileSuffix
  }

  /** `get_current_flavor`: the file's text without surrounding whitespace. */
  function GetCurrentFlavor(home: string, content: Option<string>): (r: Result<string, FlavorError>)
    ensures content.None? ==> r == Err(FileNotFound(MissingFileMessage(home)))
    ensures content.Some? ==> r.Ok? && IsStripOf(content.value, r.value)
  {
    if content.None? then Err(FileNotFound(MissingFileMessage(home)))
    else
      StripIsStripOf(content.value);
      Ok(Strip(content.value))
  }

  /** `FLAVOR_DESCRIPTIONS.get(name, fallback)` */
  function Describe(name: string, fallback: string): string {
    if name in FlavorDescriptions then FlavorDescriptions[name] else fallback
  }

  /** `'=' * 70` */
  const Rule: string := "======================================================================"

  const MismatchTitle := "\U{274C} Environment Mismatch!"
  const RequiresLabel := "This notebook requires: "
  const RunningLabel := "Currently running in:   "
  const RequiredLabel := "Required: "
  const CurrentLabel := "Current:  "
  const SwitchLine := "Please switch to the correct JupyterHub image:"
  const StopStep := "  1. Stop this server (File \U{2192} Hub Control Panel \U{2192} Stop My Server)"
  const SelectPrefix := "  2. Select '"
  const SelectSuffix := "' image from the dropdown"
  const StartStep := "  3. Start the server and reopen this notebook"

  function MismatchHeader(): string {
    "\n" + Rule + "\n" + MismatchTitle + "\n" + Rule + "\n"
  }

  function RequiresLine(required: string): string {
    RequiresLabel + required + "\n"
  }

  function RunningLine(current: string): string {
    RunningLabel + current + "\n"
  }

  function RequiredLine(required: string): string {
    RequiredLabel + Describe(required, "Unknown") + "\n"
  }

  function CurrentLine(current: string): string {
    CurrentLabel + Describe(current, "Unknown") + "\n"
  }

  function SwitchInstructions(required: string): string {
    SwitchLine + "\n" + StopStep + "\n" + SelectPrefix + required + SelectSuffix + "\n" + StartStep + "\n" + Rule + "\n"
  }

  /** `error_msg` of lines 80-95. */
  function MismatchMessage(required: string, current: string): string {
    MismatchHeader() + RequiresLine(required) + RunningLine(current) + "\n"
    + RequiredLine(required) + CurrentLine(current) + "\n"
    + SwitchInstructions(required)
  }

  /**
   * The mismatch message names the required and the current flavour, each
   * with its description or 'Unknown' when the table has none.
   */
  lemma MismatchMessageNamesBoth(required: string, current: string)
    ensures var msg := MismatchMessage(required, current);
      && Contains(msg, RequiresLine(required))
      && Contains(msg, RunningLine(current))
      && Contains(msg, RequiredLine(required))
      && Contains(msg, CurrentLine(current))
  {
    ContainsEachLine(MismatchHeader(), RequiresLine(required), RunningLine(current), "\n",
                     RequiredLine(required), CurrentLine(current), SwitchInstructions(required));
  }

  lemma ContainsEachLine(h: string, a: string, b: string, n: string, c: string, d: string, e: string)
    ensures var s := h + a + b + n + c + d + n + e;
      Contains(s, a) && Contains(s, b) && Contains(s, c) && Contains(s, d)
  {
    var s := h + a + b + n + c + d + n + e;
    var i := |h|;
    var j := i + |a|;
    var k := j + |b| + |n|;
    var l := k + |c|;
    assert s[i..i + |a|] == a && OccursAt(s, a, i);
    assert s[j..j + |b|] == b && OccursAt(s, b, j);
    assert s[k..k + |c|] == c && OccursAt(s, c, k);
    assert s[l..l + |d|] == d && OccursAt(s, d, l);
  }

  /** A name the table does not know is described as `fallback`. */
  lemma DescribeFallback(name: string, fallback: string)
    ensures name in FlavorDescriptions ==> Describe(name, fallback) == FlavorDescriptions[name]
    ensures name !in FlavorDescriptions ==> Describe(name, fallback) == fallback
    ensures name !in {"ml-gpu", "agent-dev", "fine-tuning"} ==> Describe(name, fallback) == fallback
  {
  }

  /**
   * `check_flavor`: Ok(true) on a match; on a mismatch or a missing file,
   * EnvironmentError in strict mode and Ok(false) otherwise.
   */
  function CheckFlavor(home: string, content: Option<string>, required: string, strict: bool): (r: Result<bool, FlavorError>)
    ensures r == Ok(true) <==> GetCurrentFlavor(home, content) == Ok(required)
    ensures r.Err? <==> strict && GetCurrentFlavor(home, content) != Ok(required)
    ensures r.Err? ==> r.error.EnvironmentError?
    ensures content.None? && r.Err? ==> r.error.message == MissingFileMessage(home)
    ensures content.Some? && r.Err? ==> r.error.message == MismatchMessage(required, Strip(content.value))
  {
    match GetCurrentFlavor(home, content)
    case Err(e) => if strict then Err(EnvironmentError(e.message)) else Ok(false)
    case Ok(current) =>
      if current == required then Ok(true)
      else if strict then Err(EnvironmentError(MismatchMessage(required, current)))
      else Ok(false)
  }

  /** The file's trailing newline does not spoil a match. */
  lemma TrailingNewlineIgnored(home: string, flavor: string, strict: bool)
    requires Trimmed(flavor)
    ensures CheckFlavor(home, Some(flavor + "\n"), flavor, strict) == Ok(true)
  {
    var s := flavor + "\n";
    assert s[0..|flavor|] == flavor;
    assert s[..0] == [] && s[|flavor|..] == "\n";
    assert Padded(s, flavor, 0);
    StripOfUnique(s, flavor);
  }

  /** The dictionary `get_flavor_info` returns. */
  datatype FlavorInfo = FlavorInfo(current: Option<string>, currentDescription: string, availableFlavors: map<string, string>)

  /** `get_flavor_info`: a missing file gives no current flavour rather than an error. */
  function GetFlavorInfo(home: string, content: Option<string>): (info: FlavorInfo)
    ensures content.None? <==> info.current.None?
    ensures info.current.Some? ==> GetCurrentFlavor(home, content) == Ok(info.current.value)
    ensures info.current.Some? && info.current.value in FlavorDescriptions ==>
      info.currentDescription == FlavorDescriptions[info.current.value]
    ensures info.current.None? || info.current.value !in FlavorDescriptions ==>
      info.currentDescription == "Not in Thinkube environment"
    ensures info.availableFlavors == FlavorDescriptions
    ensures info.availableFlavors.Keys == {"ml-gpu", "agent-dev", "fine-tuning"}
  {
    var current := match GetCurrentFlavor(home, content)
      case Ok(name) => Some(name)
      case Err(_) => None;
    var description := if current.Some? then Describe(current.value, "Not in Thinkube environment")
                       else "Not in Thinkube environment";
    FlavorInfo(current, description, FlavorDescriptions)
  }
}
