# Fine-tuning run control and deployment-readiness verdict, in Dafny

This project models the two scripts at the centre of the repository.

- **The LoRA fine-tuning script** (`ai_models_training/finetune_model.py`).
  - Each training example becomes an instruction prompt. The `### Input:` section appears only when the input is non-empty.
  - The fine-tuned model directory is named `{model}_ft_{version}`. Its documentation file has the same name plus `.md`.
  - `main` and `load_training_data` form a fail-fast ladder that ends in an exit code:
    - 1 for a usage error, a missing model, or missing training data;
    - 0 when the user declines to train without CUDA;
    - 130 on Ctrl-C;
    - 1 with a crash report for any other exception;
    - 0 on completion.
- **The deployment compatibility test** (`test_compability.py`).
  - Seven checks each return `True`, `False` or the string `"undetermined"`.
  - The summary gives each check a status, counts the results and derives one of three verdicts: ready, ready with minor issues, or critical requirements missing.
  - The exit code depends only on the three critical checks: Docker, Docker Compose and the project structure.

Everything outside the scripts becomes an input:
- subprocess return codes and exceptions;
- socket `connect_ex` results;
- `shutil.disk_usage`;
- `Path.exists`;
- `torch.cuda.is_available()`;
- the user's answer to the CUDA question;
- which external step raises.

Modules:

- `Wrappers` (`wrappers.dfy`): the `Option` type.
- `FinetuneFormat` (`finetune_format.dfy`): `format_instruction`, the output and documentation names, and `Path(...).name`.
- `FinetuneRun` (`finetune_run.dfy`): `load_training_data`, `main` and the exception handlers. The keys of `OUTPUT_CONFIG` are a parameter (see Findings).
- `CompatChecks` (`compat_checks.dfy`): the seven checks. The port scan and the project-structure scan are loops, modelled as methods with invariants.
- `CompatSummary` (`compat_summary.dfy`): status classification, counts, verdict, exit code and the summary lines of `main`.

## Notes on the source

- The fine-tuned model's name is only the last component of the model path (`Path(model_path).name`). Two different model paths that end in the same directory name write to the same output directory and documentation file. `FinetuneRun.OutputNameCollision` states this.
- `test_docker_compose` does not always fall back to the legacy `docker-compose`. It does so only when `docker compose version` *exits* non-zero. If that call *raises* (for example because the `docker` program is missing), the `except` branch returns `False` at once, and the legacy command is never run.
- The comment on the verdict says "Allow curl to fail". The rule itself accepts any single check that is not exactly `True`. `CompatSummary.Summarize` states the rule as written.

## Model

| member | source | states |
|---|---|---|
| `FinetuneFormat.FormatInstruction` | ai_models_training/finetune_model.py:196-207 | The result has exactly one key, "text". The text starts with `### Instruction:\n` followed by the instruction and ends with `### Response:\n` followed by the output. A missing field reads as "". |
| `FinetuneFormat.PromptTemplate` | ai_models_training/finetune_model.py:202-205 | With a non-empty input the text is the instruction header and instruction, a blank line, the input header and input, a blank line, then the response header and output. With an empty or missing input the input section and its blank line are absent. The header constants are the f-string's literal pieces. |
| `FinetuneFormat.EmptyExamplePrompt` | ai_models_training/finetune_model.py:198-205 | An example with none of the three fields formats as the bare template with empty instruction and response. |
| `FinetuneFormat.InputSectionIffNonEmpty` | ai_models_training/finetune_model.py:202-205 | Right after the instruction the text continues with `\n\n### Input:\n` if and only if the input is non-empty. |
| `FinetuneFormat.PromptFieldsRecoverable` | ai_models_training/finetune_model.py:203-205 | The instruction, the input (when non-empty) and the output can each be read back from the text at the position the template gives it. |
| `FinetuneFormat.OutputName` | ai_models_training/finetune_model.py:274 | The output name is `model_name + "_ft_" + version`. Stripping `_ft_{version}` gives back the model name (round trip), and the length adds up. |
| `FinetuneFormat.OutputNameInjective` | ai_models_training/finetune_model.py:274-275 | Two different model names fine-tuned to the same version never share an output name. |
| `FinetuneFormat.DocFilename` | ai_models_training/finetune_model.py:399 | The documentation filename, built separately in the source, equals the output name plus ".md". |
| `FinetuneFormat.TrimTrailingSlashes` | ai_models_training/finetune_model.py:435 | Only trailing '/' characters are removed. The result is a prefix of the path and does not end in '/'. |
| `FinetuneFormat.LastComponent` | ai_models_training/finetune_model.py:435 | The result contains no '/', is a suffix of the path, and is preceded by a '/' whenever it is not the whole path. |
| `FinetuneFormat.BaseName` | ai_models_training/finetune_model.py:435 | The model name taken from the path contains no '/'. |
| `FinetuneFormat.LastComponentOfJoin` | ai_models_training/finetune_model.py:435 | The last component of `dir/name` is `name` when `name` has no '/'. |
| `FinetuneFormat.BaseNameOfJoin` | ai_models_training/finetune_model.py:435 | `Path(dir + "/" + name).name` is `name` for a non-empty `name` without '/'. |
| `FinetuneRun.ExitCode` | ai_models_training/finetune_model.py:411-453 | Exit 130 exactly for an interrupt, 0 exactly for a completed or declined run, 1 for every other outcome. |
| `FinetuneRun.StepRaises` | ai_models_training/finetune_model.py:131-139 | A step raises exactly when its external work fails or one of its OUTPUT_CONFIG lookups misses a key ("models_dir" in check_system and train_model at line 275, "documentation_dir" in check_system and generate_documentation at line 400). Without an external failure only a KeyError is raised. It names a key that the step looks up and the configuration lacks. An external failure is raised when the lookups before it succeed, so check_system's fault comes before its "documentation_dir" lookup. check_system's "models_dir" lookup comes before it creates any directory. train_model's "models_dir" lookup comes before it trains, and generate_documentation's "documentation_dir" lookup before it writes, so a missing key wins over their external failure. With both keys configured a step raises exactly its external failure. |
| `FinetuneRun.ContinueAnswers` | ai_models_training/finetune_model.py:430-432 | `answer.lower() == "y"` holds exactly for the answers "y" and "Y". |
| `FinetuneRun.Handle` | ai_models_training/finetune_model.py:447-453 | KeyboardInterrupt becomes the 130 outcome. Every other exception becomes a crash, with a report exactly when the crash-report directory is configured. |
| `FinetuneRun.FirstRaise` | ai_models_training/finetune_model.py:437-441 | Nothing is raised if and only if no step raises. Otherwise the result is what the first raising step raises: every step before it raises nothing. |
| `FinetuneRun.LoadTrainingData` | ai_models_training/finetune_model.py:174-194 | Loading proceeds if and only if the data directory is configured and exists, holds a .jsonl file, and loading does not raise. A missing directory and an empty directory give their own exit-1 outcomes. A missing "training_data_dir" key crashes with its KeyError. An exception from loading the dataset goes to the handlers: Ctrl-C gives the 130 outcome, anything else a crash with that exception. |
| `FinetuneRun.Pipeline` | ai_models_training/finetune_model.py:434-441 | An exit outcome of load_training_data is the outcome. After loading, the first pipeline step that raises decides the outcome through the handlers. The run completes exactly when loading and every step succeed, and its outputs are named after the model name and "v1". |
| `FinetuneRun.Main` | ai_models_training/finetune_model.py:411-453 | The outcome is a usage error exactly when the argument count is wrong, and "model not found" exactly when the one argument names a missing path. An exception from check_system becomes what the handlers make of it. At the CUDA question, Ctrl-C gives the 130 outcome, end of input crashes with EOFError, and any line other than "y"/"Y" declines. Once the run reaches load_training_data, its exit outcome is the run's outcome. After loading, the first pipeline step that raises decides the outcome through the handlers. A crash is never an interrupt, and its report is written exactly when the crash-report directory is configured. A run completes exactly when every check and step passes, and its outputs are named after the model path's last component and "v1". |
| `FinetuneRun.AsWrittenAlwaysCrashes` | ai_models_training/finetune_model.py:131-140 | With OUTPUT_CONFIG as written, no run completes and the CUDA question is never reached. Every run that passes the argument and path checks crashes with exit 1 or is interrupted. Without another fault it crashes with `KeyError('documentation_dir')`. |
| `FinetuneRun.OutputNameCollision` | ai_models_training/finetune_model.py:274-275 | Two model paths in different directories that end in the same name get the same model name and the same output name. |
| `FinetuneRun.CorrectedCompletes` | ai_models_training/finetune_model.py:411-445 | With the documentation directory configured, a run with CUDA, training data and no failing step completes with exit 0 and the expected names. |
| `CompatChecks.Docker` | test_compability.py:48-77 | True if and only if `docker --version` and `docker info` both exit 0. Otherwise False, including on timeout or exception. |
| `CompatChecks.DockerCompose` | test_compability.py:80-106 | The legacy command is tried exactly when `docker compose version` exits non-zero. The result is True if and only if v2 exits 0 or the tried legacy command exits 0. Otherwise it is False. |
| `CompatChecks.VersionProbe` | test_compability.py:109-145 | The git and curl checks are True if and only if `--version` exits 0, and False otherwise. |
| `CompatChecks.DiskSpace` | test_compability.py:185-207 | True if and only if the measurement succeeds, whatever the free space. False if it raises. The warning is logged exactly when free space is below 10 GiB. |
| `CompatChecks.Decimal` | test_compability.py:169-172 | `str(n)` is a non-empty string of decimal digits that denotes n, and it starts with '0' only for 0. |
| `CompatChecks.FirstSocketError` | test_compability.py:162-170 | This is the index of the first port whose probe raises, or the number of ports. Every earlier probe returned a code. |
| `CompatChecks.InUseMembers` | test_compability.py:160-171 | A port is listed in `ports_in_use` if and only if it is checked and `connect_ex` returned 0. |
| `CompatChecks.InUseAppend` | test_compability.py:160-171 | `ports_in_use` follows check order. Checking two lists in turn lists the first list's ports first. |
| `CompatChecks.PortLines` | test_compability.py:162-172 | One log line per checked port. Its contents are given by `PortLinesInOrder`. |
| `CompatChecks.PortLinesInOrder` | test_compability.py:162-172 | Line i reports port i, as in use when its probe connected and as available otherwise. |
| `CompatChecks.PortAvailability` | test_compability.py:148-182 | False if and only if some probe raises. True if and only if every probe returned a non-zero code. Otherwise "undetermined". `ports_in_use` is the in-use ports in check order. The log is `PortLog`: the header, one line per port, then the verdict line. After a raise the lines stop before that port and end with the error line. |
| `CompatChecks.PathLines` | test_compability.py:225-231 | One log line per required path. |
| `CompatChecks.PathLinesInOrder` | test_compability.py:225-231 | Line i reports path i, either as found or as missing with its description. |
| `CompatChecks.ProjectStructure` | test_compability.py:210-238 | True if and only if every required path exists. The log is the header, one line per path in declaration order, then the passed or failed line. |
| `CompatSummary.ClassifyCheckValue` | test_compability.py:280-286 | For the values the checks return, PASSED is shown exactly for True, UNDETERMINED exactly for "undetermined", and FAILED exactly for False. |
| `CompatSummary.ClassifyOtherString` | test_compability.py:281-289 | A non-empty string other than "undetermined" is shown as PASSED but is not counted by `r is True`. |
| `CompatSummary.CountsPartition` | test_compability.py:289-292 | passed + undetermined never exceeds the number of checks, so the failed count is never negative. passed plus the number of checks that are not exactly True equals the total. |
| `CompatSummary.StatusCountsAgree` | test_compability.py:280-292 | For check values, the number of PASSED, UNDETERMINED and FAILED statuses equals the passed, undetermined and failed counts in the "Total:" line. |
| `CompatSummary.Summarize` | test_compability.py:289-308 | The counts sum to the total, and failed is at least 0. The exit code is 0 if and only if the critical checks are truthy. The verdict is SUCCESS iff the critical checks pass and at most one check is not exactly True. It is WARNING iff they pass and more checks are not True. It is FAILED iff they do not pass. |
| `CompatSummary.StatusTable` | test_compability.py:280-287 | One status line per check, in the order the checks ran. |
| `CompatSummary.RunChecks` | test_compability.py:265-273 | The seven results carry their names in order, and each value is that check's result. |
| `CompatSummary.RunChecksValues` | test_compability.py:265-273 | Every check returns True, False or "undetermined". |
| `CompatSummary.LookupFirst` | test_compability.py:296 | `test_results.get(name, default)` finds the entry with that name. |
| `CompatSummary.CriticalOfRun` | test_compability.py:295-296 | For the fixed results table, the critical checks pass if and only if Docker, Docker Compose and Project Structure are truthy. |
| `CompatSummary.SummaryReport` | test_compability.py:275-308 | The exit code and verdict are those of `Summarize`. The report is the status table, the Total line and the verdict's lines. |
| `CompatSummary.CompatibilityTest` | test_compability.py:241-318 | Each of the seven results is its check's value on the probes. Exit 0 if and only if Docker, Docker Compose (v2 or legacy) and every required path pass. The exit code is 0 or 1. The verdict is SUCCESS, WARNING or FAILED by the rule of `Summarize`. The report is the status table, the Total line and the verdict's lines. |

## Left out

- Model and tokenizer loading, LoRA wrapping, tokenization, `Trainer.train` and `save_pretrained` (ai_models_training/finetune_model.py:209-310) use external ML libraries with floating-point numerics. Each is a step that either succeeds or raises a given exception.
- Applying `format_instruction` to a whole dataset with `dataset.map` is a library call. Only the per-example function is modelled.
- Some files are written but their contents are not modelled: the crash report, the missing-license log, `finetuning_config.json`, and the markdown documentation (ai_models_training/finetune_model.py:92-168, 318-335, 344-405). This is I/O. The model records only whether a crash report is written, and the names of the output directory and documentation file.
- `copy_license_or_log` is file I/O and is not modelled. It reads `crash_reports_dir`, which is configured in both key sets.
- Failures while the crash report itself is written are not modelled. The process exits with 1 in that case as well.
- KeyboardInterrupt is modelled at the CUDA prompt and in the steps that may raise. Its arrival during the header prints or the argument checks is not modelled.
- The `Logger` class and its file handle (test_compability.py:31-45) are I/O. The checks that are loops return their log lines as values instead.
- Log messages are left out for these:
  - the Docker, Docker Compose, git, curl and disk checks, which print version strings or formatted GB values;
  - the header, timestamp and "Log saved" lines of the test's `main`.
- The report of `CompatSummary.CompatibilityTest` omits some lines, all of them fixed text or I/O:
  - the "TEST SUMMARY" banner (test_compability.py:276-278);
  - the closing "Completed:" and "=" lines (test_compability.py:310-311);
  - the port and project-structure lines. `CompatChecks.PortAvailability` and `CompatChecks.ProjectStructure` compute these, but `main` writes them through the logger before the summary.
- Environment and `.env` loading, `datetime.now()` and `print_*` console output are not modelled.
- The float GB conversion of disk usage is not modelled. `CompatChecks.DiskSpace` compares free bytes with 10 × 1024³ bytes.
- `FinetuneRun.ContinueAnswers`: `str.lower()` is modelled on ASCII letters only. No other Unicode character lowercases to "y", so the continue/decline decision is the same.
- `FinetuneFormat.BaseName`: pathlib's removal of `.` components and Windows separators is not modelled.
- Python values other than booleans and strings are not modelled as check results; the checks never return them.
- `FinetuneFormat.FormatInstruction`: the model assumes every example field is a string. Through `dataset.map` (ai_models_training/finetune_model.py:212) every example carries every column of the dataset, so a field missing from one .jsonl line, or a JSON `null`, arrives as `None`: `.get(key, "")` then returns `None` and the f-string writes "None". That case is not modelled; a missing key is modelled as the empty string, as `.get` gives it for a plain dict.
- The quantization pipeline and its reduction ratio, the append-only ledger, the serving-config resolver and the bootstrap orchestrator are not part of this model. None of them is implemented in the modelled files.

## Findings

| source | as written | input that shows it | evidently intended | confidence | as-written member | corrected member |
|---|---|---|---|---|---|---|
| ai_models_training/finetune_model.py:58-62, 139, 400 | `OUTPUT_CONFIG` has no "documentation_dir" key, but `check_system` and `generate_documentation` look it up. Every run that gets past the argument and path checks raises KeyError in `check_system`, writes a crash report and exits with 1. It never asks about CUDA and never trains. | `finetune_model.py Models/some-model` with an existing model path | `OUTPUT_CONFIG` has a "documentation_dir" entry, and a run with CUDA and training data completes with exit 0 | high (not executed) | `FinetuneRun.AsWrittenAlwaysCrashes` | `FinetuneRun.CorrectedCompletes` |

The rest of the model (`FinetuneRun.Run`) uses the corrected key set `FinetuneRun.OutputConfig`.
