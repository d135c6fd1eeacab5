# Thinkube: playbook executor, notebook environment loader, flavour check and model-registration helpers

This project models four pieces of the Thinkube platform in Dafny and proves
properties of the models.

- **The installer's playbook executor** (`AnsibleExecutor`). It resolves a playbook path against
  `~/thinkube` and, in order, checks that the playbook and `run_ansible.sh` exist. It then builds the
  command and the child's environment and launches the script. Finally it classifies how the process
  ended (exit code, timeout of `communicate()`, an unexpected exception) into a `PlaybookResult`,
  reporting progress to an optional callback. `format_result_for_api` passes stdout and stderr on only
  for an ERROR result.
  - The pure function `Execute` describes a whole call: its result, the progress events in order, and
    what it asks of the operating system (spawn, terminate, kill).
  - The `Executor` class performs the call step by step and is proved to do what `Execute` says. So is
    the loop that builds the command.
- **The notebook kernel's environment loader** (`EnvLoader`). It parses shell environment files.
  - Each line is stripped. Blank lines and `#` comments are skipped, and one leading `export ` is dropped.
  - `set -gx KEY VALUE` is split at the first whitespace run, and the value loses its `"` and then its `'`.
  - Other lines are cut at the first `=`. Both sides are stripped and one pair of surrounding quotes is
    removed.
  - A later line wins over an earlier one, and the result is a dictionary.

  `load_thinkube_environment` applies `.thinkube_env`, `service-env.sh` and `.secrets.env` over the
  process environment, in that order, and adds up the sizes of the three dictionaries. The parser is a
  function on the file's lines and the loop that fills the dictionary is a method. The process
  environment is an object whose map the loader updates.
- **The JupyterHub flavour check** (`JupyterFlavor`). It reads `~/.jupyter_flavor`, whose text is an input
  that is absent when the file does not exist.
  - `get_current_flavor` returns the file's text without its surrounding whitespace.
  - `check_flavor` returns True on a match. On a mismatch or a missing file it raises EnvironmentError in
    strict mode and returns False otherwise.
  - `get_flavor_info` reports the current flavour and its description.
- **Request shaping in the notebook model library** (`ThinkubeModels`):
  - the MLflow name of a model (`/` becomes `-`);
  - the latest registered version (the first of the greatest);
  - the quantization gate (FP8, NVFP4 or BF16, otherwise ValueError);
  - the description, headers and payload of the registration request;
  - the control-plane URL (trailing slashes removed, or the in-cluster default);
  - the order in which an access token is looked for: `THINKUBE_CONTROL_TOKEN`, then the trimmed token
    file, then Keycloak when both its URL and secret are set;
  - the staging directory.

  `RegisterFinetunedModel` lists the effects of `register_finetuned_model` in order: quantize, create
  the staging directory, save, ask Keycloak, post. An unsupported format is an error with no effect at all.

Shared pieces:
- `Strings` holds Python's `strip()`, `strip(c)`, `rstrip(c)` and `split(None, 1)`, using `str.isspace()`'s
  set of whitespace characters.
- `Paths` holds `pathlib`'s `/`: an absolute right side replaces the left, and an empty one adds nothing.
- `Wrappers` holds `Option` and `Result`. A raised exception is the `Err` side of a `Result`.

The model follows the code as written:
- Only SUCCESS and ERROR are ever produced. There is no timed-out or cancelled status, and a timeout is an
  ERROR with the message "Playbook execution timed out".
- No output is kept on the timeout path.
- A timeout of process creation is not classified as a timeout. `process` is unbound at that point, so
  `process.terminate()` and then `process.kill()` raise, and the generic handler reports "Unexpected
  error during playbook execution".

## Model

| member | source | states |
|---|---|---|
| AnsibleExecutor.StatusOfValue | installer/backend/app/services/ansible_executor.py:19-24 | Looking up a `.value` gives the member with that value, and the only one. |
| AnsibleExecutor.ResolvePlaybookPath | installer/backend/app/services/ansible_executor.py:82-84 | An absolute playbook path is kept. A relative one becomes `root/path`. An absolute root gives an absolute path. |
| AnsibleExecutor.ValidationFailure | installer/backend/app/services/ansible_executor.py:86-99 | No failure exactly when both files exist. A missing playbook is reported before the script check. A failing result is ERROR, with no duration and no return code. |
| AnsibleExecutor.ExtraVarArgsShape | installer/backend/app/services/ansible_executor.py:105-107 | The extra arguments number two per variable. Position 2i is `--extra-vars` and 2i+1 is `key=value` of the i-th variable, in insertion order. |
| AnsibleExecutor.CommandLineShape | installer/backend/app/services/ansible_executor.py:102-107 | The command is `[script, playbook]` followed by the `--extra-vars` pairs, with length 2 + 2n. It is exactly the two base items when there are no extra variables. |
| AnsibleExecutor.BuildCommand | installer/backend/app/services/ansible_executor.py:102-107 | The loop that extends `cmd` builds exactly that command. |
| AnsibleExecutor.ChildEnvironment | installer/backend/app/services/ansible_executor.py:110-112 | Every overlay key maps to its overlay value. Every inherited key absent from the overlay keeps its value. The keys are the union, so none is dropped. |
| AnsibleExecutor.MergeEnvironment | installer/backend/app/services/ansible_executor.py:110-112 | Copying the environment and updating it with a non-empty overlay gives that child environment. |
| AnsibleExecutor.Execute | installer/backend/app/services/ansible_executor.py:80-218 | The status is SUCCESS or ERROR. There are no events without a callback and no events before a launch. A launched call with a callback sends two events, starting with the RUNNING one. |
| AnsibleExecutor.FormatResultForApi | installer/backend/app/services/ansible_executor.py:220-230 | The status string names the result's status. Message, details, return code and duration are copied. stdout and stderr are present only for ERROR. |
| AnsibleExecutor.MissingPlaybook | installer/backend/app/services/ansible_executor.py:86-91 | A missing playbook gives ERROR "Playbook not found" with no event and no process request. |
| AnsibleExecutor.MissingScript | installer/backend/app/services/ansible_executor.py:93-99 | A missing script, once the playbook exists, gives ERROR "Ansible script not found" with no event and no process request. |
| AnsibleExecutor.LaunchRequest | installer/backend/app/services/ansible_executor.py:127-137 | Once both exist, the first request spawns the built command with the merged environment in the thinkube root. |
| AnsibleExecutor.ExitClassification | installer/backend/app/services/ansible_executor.py:150-178 | After a decoded exit, SUCCESS holds exactly when the return code is 0. Output, return code and elapsed duration are kept. A success's details are "All tasks completed without errors"; a failure's are stderr, or "Unknown error occurred" when stderr is empty. The closing event is "Playbook execution completed" at 100% with the result's status. |
| AnsibleExecutor.TimeoutClassification | installer/backend/app/services/ansible_executor.py:180-201 | A `communicate()` timeout gives ERROR "Playbook execution timed out", "Execution exceeded {timeout} seconds", the elapsed duration and no output or return code. The closing event is an ERROR "Playbook execution timed out" with no percentage. It is followed by terminate, and by kill only if the graceful stop raised. |
| AnsibleExecutor.KillOnlyAfterFailedTerminate | installer/backend/app/services/ansible_executor.py:183-187 | Kill is requested exactly when the process was launched, `communicate()` timed out and terminate or its 5-second wait raised. |
| AnsibleExecutor.CreationTimeoutIsUnexpected | installer/backend/app/services/ansible_executor.py:180-218 | A creation timeout ends in the generic handler, with the UnboundLocalError text as details and no request after the spawn. |
| AnsibleExecutor.ProgressSequence | installer/backend/app/services/ansible_executor.py:117-211 | With a callback, a launched call sends the RUNNING 0% "Initializing" event and then one closing event with the result's status; a decoded exit's closing event carries 100%. Without a callback there are none. |
| AnsibleExecutor.UnexpectedClassification | installer/backend/app/services/ansible_executor.py:127-218 | A failed process creation, an undecodable stdout or stderr, or a kill that raises after a timeout all end in the generic handler: ERROR "Unexpected error during playbook execution" with the exception text as details, no output or return code, the elapsed duration, and the error event as the last event. |
| AnsibleExecutor.DefaultTimeoutText | installer/backend/app/services/ansible_executor.py:62 | The default timeout of 300 seconds is reported as "Execution exceeded 300 seconds". |
| AnsibleExecutor.DefaultArguments | installer/backend/app/services/ansible_executor.py:56-62 | A call with only a playbook path spawns `[script, playbook]` with the inherited environment, and a `communicate()` timeout reports the 300-second default. |
| AnsibleExecutor.SuccessOutputRedacted | installer/backend/app/services/ansible_executor.py:228-229 | A successful run keeps its stdout in the result, but the API view has status "success" and no stdout or stderr. |
| AnsibleExecutor.ProgressRecorder.Notify | installer/backend/app/services/ansible_executor.py:61 | The callback receives each event once, appended after the earlier ones. |
| AnsibleExecutor.Executor.constructor | installer/backend/app/services/ansible_executor.py:52-54 | The root is `~/thinkube` and the script is `scripts/run_ansible.sh` under it. |
| AnsibleExecutor.Executor.ExecutePlaybook | installer/backend/app/services/ansible_executor.py:56-218 | The step-by-step call returns the result and makes the requests `Execute` describes. The callback receives exactly `Execute`'s events. |
| AnsibleExecutor.Executor.AwaitProcess | installer/backend/app/services/ansible_executor.py:127-218 | Waiting on the process and classifying its end gives the result, the closing event and the terminate/kill requests of the supervision. |
| EnvLoader.Unquote | ansible/40_thinkube/core/harbor/base-images/templates/00-thinkube-env.py:55-58 | An unquoted value is unchanged. A value quoted with `"…"` or `'…'` is that quote, the result, and the same quote again. A lone quote becomes empty. |
| EnvLoader.UnquoteQuoted | ansible/40_thinkube/core/harbor/base-images/templates/00-thinkube-env.py:55-58 | Quoting a text and unquoting it gives the text back. |
| EnvLoader.ParseStatement | ansible/40_thinkube/core/harbor/base-images/templates/00-thinkube-env.py:39-60 | Every key a statement sets has no surrounding whitespace. |
| EnvLoader.ParseLine | ansible/40_thinkube/core/harbor/base-images/templates/00-thinkube-env.py:29-60 | A key a line sets is trimmed. A blank line sets nothing. |
| EnvLoader.ParseEnvFile | ansible/40_thinkube/core/harbor/base-images/templates/00-thinkube-env.py:19-65 | The loop over the lines builds the dictionary the lines describe; a missing file gives the empty one. |
| EnvLoader.IgnoredLine | ansible/40_thinkube/core/harbor/base-images/templates/00-thinkube-env.py:31-33 | A blank or comment line sets nothing, and appended at the end of a file it adds nothing. |
| EnvLoader.IgnoredAnywhere | ansible/40_thinkube/core/harbor/base-images/templates/00-thinkube-env.py:28-33 | A blank or comment line adds nothing wherever it stands in a file: removing it from between any two parts leaves the dictionary unchanged. |
| EnvLoader.AppendLine | ansible/40_thinkube/core/harbor/base-images/templates/00-thinkube-env.py:28-60 | A line appended to a file is applied after all earlier lines. |
| EnvLoader.ExportPrefixDropped | ansible/40_thinkube/core/harbor/base-images/templates/00-thinkube-env.py:35-37 | `export ` before a trimmed non-comment line that does not itself start with `export ` changes nothing the line gives. |
| EnvLoader.FishLine | ansible/40_thinkube/core/harbor/base-images/templates/00-thinkube-env.py:39-47 | `set -gx <spaces>KEY<spaces>VALUE` (any further whitespace after `set -gx `) sets KEY to VALUE without surrounding `"` and then `'`. |
| EnvLoader.FishLineWithoutValue | ansible/40_thinkube/core/harbor/base-images/templates/00-thinkube-env.py:40-47 | `set -gx` with a single word, after any whitespace, adds nothing, even if the word holds `=`. |
| EnvLoader.AssignmentLine | ansible/40_thinkube/core/harbor/base-images/templates/00-thinkube-env.py:49-60 | `KEY = VALUE`, with any whitespace around the `=`, is cut at the first `=`, so later `=` stay in the value. The key and value lose that whitespace, and the value loses one pair of surrounding quotes. The only exception is the key `export` followed by whitespace, which the `export ` prefix rule takes first. |
| EnvLoader.NoAssignmentWithoutEquals | ansible/40_thinkube/core/harbor/base-images/templates/00-thinkube-env.py:49-51 | A line without `=` sets a key only in the `set -gx` form. |
| EnvLoader.LastEntryWins | ansible/40_thinkube/core/harbor/base-images/templates/00-thinkube-env.py:46-60 | A key takes the value of the last entry that sets it. |
| EnvLoader.CollectedKeys | ansible/40_thinkube/core/harbor/base-images/templates/00-thinkube-env.py:46-60 | The dictionary holds a key exactly when some entry sets it. |
| EnvLoader.LastOccurrenceWins | ansible/40_thinkube/core/harbor/base-images/templates/00-thinkube-env.py:28-60 | When a key repeats within a file, its last occurrence wins. |
| EnvLoader.ParsedKeys | ansible/40_thinkube/core/harbor/base-images/templates/00-thinkube-env.py:28-60 | A file defines exactly the keys some line of it defines. |
| EnvLoader.LayeredPrecedence | ansible/40_thinkube/core/harbor/base-images/templates/00-thinkube-env.py:74-95 | Afterwards every process variable and every file key is set. Each takes its value from the secrets file, else the service file, else the core file, else the inherited environment. |
| EnvLoader.LoadedCountBound | ansible/40_thinkube/core/harbor/base-images/templates/00-thinkube-env.py:74-95 | `loaded_count` is never below the number of distinct keys loaded. |
| EnvLoader.RepeatedKeyCountedTwice | ansible/40_thinkube/core/harbor/base-images/templates/00-thinkube-env.py:74-95 | A key set in two files counts twice in `loaded_count`, yet only one variable is set, to the later file's value. |
| EnvLoader.ProcessEnvironment.Update | ansible/40_thinkube/core/harbor/base-images/templates/00-thinkube-env.py:77 | `os.environ.update(m)`: every key of m takes its value from m and the other variables are kept. |
| EnvLoader.LoadThinkubeEnvironment | ansible/40_thinkube/core/harbor/base-images/templates/00-thinkube-env.py:68-101 | The environment becomes the three files layered over the old one, in order. The count is the sum of the three dictionary sizes. |
| EnvLoader.LoadFile | ansible/40_thinkube/core/harbor/base-images/templates/00-thinkube-env.py:74-79 | An existing file is parsed, applied over the environment and counted. A missing one changes nothing. |
| JupyterFlavor.GetCurrentFlavor | ansible/40_thinkube/core/harbor-images/base-images/files/check_jupyter_flavor.py:44-50 | A missing file raises FileNotFoundError with the "not found at ~/.jupyter_flavor" message. Otherwise the result is the file's text without surrounding whitespace. |
| JupyterFlavor.CheckFlavor | ansible/40_thinkube/core/harbor-images/base-images/files/check_jupyter_flavor.py:53-101 | True exactly when the current flavour equals the required one. An error exactly in strict mode on a mismatch or a missing file, always EnvironmentError. Its message is the missing-file text or the mismatch message. |
| JupyterFlavor.MismatchMessageNamesBoth | ansible/40_thinkube/core/harbor-images/base-images/files/check_jupyter_flavor.py:80-95 | The mismatch message contains the required and the current flavour, each with its description line. |
| JupyterFlavor.DescribeFallback | ansible/40_thinkube/core/harbor-images/base-images/files/check_jupyter_flavor.py:87-88 | A name outside the three-entry table is described by the fallback ('Unknown'). |
| JupyterFlavor.TrailingNewlineIgnored | ansible/40_thinkube/core/harbor-images/base-images/files/check_jupyter_flavor.py:50-78 | A flavour file holding the name and a newline matches that name. |
| JupyterFlavor.GetFlavorInfo | ansible/40_thinkube/core/harbor-images/base-images/files/check_jupyter_flavor.py:104-120 | current is None exactly when the file is missing. current_description is the table entry or 'Not in Thinkube environment'. available_flavors is the whole three-entry table. |
| ThinkubeModels.MlflowModelName | ansible/40_thinkube/core/harbor-images/base-images/files/thinkube_models.py:108 | The name has the model id's length and no '/'. Each '/' became '-' and every other character is kept. |
| ThinkubeModels.NameWithoutSlashUnchanged | ansible/40_thinkube/core/harbor-images/base-images/files/thinkube_models.py:108 | An id without '/' is its own registry name. |
| ThinkubeModels.MlflowModelNameIdempotent | ansible/40_thinkube/core/harbor-images/base-images/files/thinkube_models.py:108 | Mangling a registry name again changes nothing. |
| ThinkubeModels.MlflowModelNameConcat | ansible/40_thinkube/core/harbor-images/base-images/files/thinkube_models.py:108 | Mangling works per character, so it distributes over concatenation. |
| ThinkubeModels.SlashAndDashCollide | ansible/40_thinkube/core/harbor-images/base-images/files/thinkube_models.py:108 | `owner/model` and `owner-model` get the same registry name. |
| ThinkubeModels.LatestIndex | ansible/40_thinkube/core/harbor-images/base-images/files/thinkube_models.py:145 | `max` with the version key picks an entry whose version is not exceeded by any other, and every earlier entry has a smaller version. |
| ThinkubeModels.SelectLatestVersion | ansible/40_thinkube/core/harbor-images/base-images/files/thinkube_models.py:137-146 | An empty list raises ValueError "Model '{name}' not found in MLflow registry. …". Otherwise the result is one of the versions and has the greatest version number. |
| ThinkubeModels.FirstGreatestChosen | ansible/40_thinkube/core/harbor-images/base-images/files/thinkube_models.py:145 | Among entries sharing the greatest version, the first one listed is the one loaded. |
| ThinkubeModels.ParseQuantization | ansible/40_thinkube/core/harbor-images/base-images/files/thinkube_models.py:479-489 | An accepted format is spelt as the argument. The gate fails exactly when the argument is not FP8, NVFP4 or BF16, with "Unsupported quantization format: {q}. Use 'FP8', 'NVFP4', or 'BF16'". |
| ThinkubeModels.QuantizationRoundTrip | ansible/40_thinkube/core/harbor-images/base-images/files/thinkube_models.py:38 | Each of the three formats passes the gate under its own name. |
| ThinkubeModels.FullDescription | ansible/40_thinkube/core/harbor-images/base-images/files/thinkube_models.py:518-520 | The description starts with the given one if truthy, else with "Fine-tuned from {base_model}". It is exactly that for BF16, and otherwise that followed by " ({quantization})". |
| ThinkubeModels.EmptyDescriptionFallsBack | ansible/40_thinkube/core/harbor-images/base-images/files/thinkube_models.py:519 | An empty description counts as none. |
| ThinkubeModels.RegistrationHeaders | ansible/40_thinkube/core/harbor-images/base-images/files/thinkube_models.py:513-515 | The content type is JSON. Authorization is present exactly when the token is truthy, and then it is "Bearer {token}". There are no other headers. |
| ThinkubeModels.BuildRegistrationHeaders | ansible/40_thinkube/core/harbor-images/base-images/files/thinkube_models.py:513-515 | Building the dictionary step by step gives exactly those headers. |
| ThinkubeModels.GetThinkubeControlUrl | ansible/40_thinkube/core/harbor-images/base-images/files/thinkube_models.py:201-209 | A set, non-empty THINKUBE_CONTROL_URL gives a prefix of it that does not end in '/', after which only '/' was removed. Otherwise the in-cluster URL. |
| Strings.TrimEndCharOfRun | ansible/40_thinkube/core/harbor-images/base-images/files/thinkube_models.py:207 | `rstrip(c)` removes exactly a trailing run of `c` from a text not ending in `c`. |
| ThinkubeModels.TrailingSlashesIgnored | ansible/40_thinkube/core/harbor-images/base-images/files/thinkube_models.py:206-207 | However many slashes end a configured URL, the address is the URL without them. |
| ThinkubeModels.KeycloakRequestFor | ansible/40_thinkube/core/harbor-images/base-images/files/thinkube_models.py:225-241 | A request exists exactly when KEYCLOAK_URL and KEYCLOAK_CLIENT_SECRET are both non-empty. It goes to "{url}/realms/{realm}/protocol/openid-connect/token", with KEYCLOAK_REALM or the default realm `thinkube`, and carries the configured or default client id and the secret. |
| ThinkubeModels.AuthToken | ansible/40_thinkube/core/harbor-images/base-images/files/thinkube_models.py:212-248 | A non-empty environment token is returned first, without Keycloak. Else an existing token file gives its stripped text. Keycloak is asked exactly when neither applies and its URL and secret are set, and then its answer is the token. Otherwise there is no token. |
| ThinkubeModels.GetAuthToken | ansible/40_thinkube/core/harbor-images/base-images/files/thinkube_models.py:212-248 | The sequence of early returns returns that token and sends that Keycloak request. |
| ThinkubeModels.GetStagingPath | ansible/40_thinkube/core/harbor-images/base-images/files/thinkube_models.py:639-651 | No name or an empty name gives the staging root. A relative name gives "{root}/{name}". An absolute name is taken as it is, as `pathlib` does. |
| ThinkubeModels.StagingSteps | ansible/40_thinkube/core/harbor-images/base-images/files/thinkube_models.py:478-507 | Staging is three steps for BF16 and four otherwise (the quantization step), and none of them contacts Keycloak or posts the registration. |
| ThinkubeModels.LoginSteps | ansible/40_thinkube/core/harbor-images/base-images/files/thinkube_models.py:229-245 | There is one Keycloak step exactly when the token lookup sent a request. |
| ThinkubeModels.RegisterFinetunedModel | ansible/40_thinkube/core/harbor-images/base-images/files/thinkube_models.py:470-540 | An unsupported format is exactly the error case, with the gate's ValueError and no step at all. Otherwise the last step is the registration request. |
| ThinkubeModels.RegistrationRequestContents | ansible/40_thinkube/core/harbor-images/base-images/files/thinkube_models.py:509-540 | The request's `name` and `source_path` are the model name. `base_model`, `task`, `server_type` and `quantization` are the arguments, and the description is the full one. The headers are exactly the JSON content type plus, for a truthy token, its Bearer authorization. The request goes to the control plane's register endpoint. |
| ThinkubeModels.SavedWhereRegistered | ansible/40_thinkube/core/harbor-images/base-images/files/thinkube_models.py:491-524 | Quantization comes first exactly when the format is not BF16. The staging directory of the payload's `source_path` is created and the model saved there before the request is posted. |
| ThinkubeModels.DefaultRegistration | ansible/40_thinkube/core/harbor-images/base-images/files/thinkube_models.py:413-540 | With the default task, server type and quantization, registration succeeds, quantizes to FP8 first, saves a ModelOpt checkpoint, and posts task "text-generation", server type "tensorrt-llm", quantization "FP8" and the description "Fine-tuned from {base_model} (FP8)". |
| ThinkubeModels.KeycloakOnlyAsLastResort | ansible/40_thinkube/core/harbor-images/base-images/files/thinkube_models.py:510-511 | A registration contacts Keycloak exactly when there is no environment token or token file and Keycloak's URL and secret are set. |
| Strings.Strip | ansible/40_thinkube/core/harbor/base-images/templates/00-thinkube-env.py:29 | `strip()` leaves no whitespace at either end, keeps an already trimmed text, and is empty exactly for an all-whitespace text. |
| Strings.StripIsStripOf | ansible/40_thinkube/core/harbor-images/base-images/files/check_jupyter_flavor.py:50 | `strip()` gives the text with only whitespace removed around it. |
| Strings.StripOfUnique | ansible/40_thinkube/core/harbor-images/base-images/files/check_jupyter_flavor.py:50 | Any trimmed text that sits in the input between whitespace runs is what `strip()` returns. |
| Strings.StripChar | ansible/40_thinkube/core/harbor/base-images/templates/00-thinkube-env.py:45 | `strip(c)` gives the text with only runs of `c` removed around it, and leaves no `c` at either end. It keeps a text not starting or ending in `c`, and is empty exactly for a text made only of `c`. |
| Strings.StripCharOfUnique | ansible/40_thinkube/core/harbor/base-images/templates/00-thinkube-env.py:45 | Any text without `c` at its ends that sits in the input between runs of `c` is what `strip(c)` returns. |
| Strings.SplitLocatesParts | ansible/40_thinkube/core/harbor/base-images/templates/00-thinkube-env.py:41 | A single part is the text's word with only whitespace around it. Two parts are the first word, then whitespace, then the rest, with only whitespace before the word and nothing after the rest. |
| Strings.SplitAtUnique | ansible/40_thinkube/core/harbor/base-images/templates/00-thinkube-env.py:41 | Any word and rest laid out that way in a text are the two parts `split(None, 1)` returns. |
| Strings.PaddedWordUnique | ansible/40_thinkube/core/harbor/base-images/templates/00-thinkube-env.py:41 | A single word with only whitespace around it is split into that word alone. |
| Strings.SplitWhitespaceOnce | ansible/40_thinkube/core/harbor/base-images/templates/00-thinkube-env.py:41 | `split(None, 1)` gives at most two non-empty parts. The first has no whitespace and the second does not start with whitespace. There are none exactly for an all-whitespace text. |
| Strings.FirstIndex | ansible/40_thinkube/core/harbor/base-images/templates/00-thinkube-env.py:50-51 | The first `=` is found exactly when there is one, and no `=` comes before it. |
| Strings.TrimEndChar | ansible/40_thinkube/core/harbor-images/base-images/files/thinkube_models.py:207 | `rstrip(c)` gives a prefix not ending in `c`, after which only `c` was removed. |

## Left out

- Asynchronous process supervision is not modelled. This covers `create_subprocess_exec`, `communicate`, `wait_for` and the real terminate/kill, which are concurrency and OS interaction. How the process ended is an input (`ProcessOutcome`), and the executor's requests to the OS are an output.
- Wall-clock time is an input. `time.time()` differences are given as one `real` elapsed value, not as floating point.
- The results of the two validation failures carry no duration, as in the code.
- Logging and every `print` are not modelled.
- The module-level `ansible_executor` singleton (ansible_executor.py line 234) is not modelled.
- A progress callback that raises is not modelled. The model's callback only records events.
- The executor's file-system checks are membership in a set of existing paths.
- `Path.home()` is an input, assumed normalised (no trailing '/' and not "/"); `pathlib`'s own normalisation of joined paths is not modelled.
- Reading files is not modelled. A file is its text, or its sequence of lines, or None when absent.
- The loader keeps partial results on a read error (00-thinkube-env.py lines 62-65). That exception path is not modelled.
- `os.environ` rejects empty keys and keys holding `=` with a `ValueError` from `putenv`. The model's environment map accepts them.
- Errors when reading the flavour file, other than its absence, are not modelled.
- The `__main__` block of check_jupyter_flavor.py is not modelled.
- The HTTP and Keycloak calls of thinkube_models.py are not modelled. The Keycloak answer is an input (None for any failure), and the registration request is a step in a list.
- Model loading and quantization/calibration are not modelled. Neither are export and save, `wait_for_registration` with its polling loop, `list_registered_models`, `get_mlflow_config` and `get_mlflow_token`. These are foreign libraries, network calls and timing.
- `extra_vars` is a dictionary of arbitrary values formatted with an f-string in the source. The model takes its keys and values already as strings, so the formatting of non-string values is not modelled.
- `int(v['version'])` is not modelled. A version is given already as an integer.
- The defaults of `calib_data`, `num_calib_samples` and `wait` are not modelled, since calibration and waiting are not modelled.
- Everything `register_finetuned_model` does after posting is not modelled (the reply, `raise_for_status`, waiting).
- installer/frontend/src-tauri/src/lib.rs is not part of this model. It is UI start-up code.
- The UnboundLocalError text follows the wording of Python 3.11 and later.
