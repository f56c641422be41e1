/**
  Run control of the fine-tuning script (`main` and `load_training_data` in
  ai_models_training/finetune_model.py): the fail-fast checks, the CUDA
  confirmation, the steps that may raise, and the exit code of each path.

  The outside world is an Observations value: the command-line arguments,
  what the file system and the GPU report, the user's answer, and which of
  the external steps (directory creation, dataset loading, model loading,
  training, writing files) raises. The keys of the OUTPUT_CONFIG dictionary
  are a parameter, because the script as written reads a key its dictionary
  does not have.
 */
module FinetuneRun {
  import opened Wrappers
  import opened FinetuneFormat

  /** The training data version, FINETUNING_CONFIG["version"]. */
  const Version := "v1"

  /** The keys OUTPUT_CONFIG has as written. */
  const OutputConfigAsWritten: set<string> := {"models_dir", "training_data_dir", "crash_reports_dir"}

  /** OUTPUT_CONFIG with the "documentation_dir" key that the script reads. */
  const OutputConfig: set<string> := OutputConfigAsWritten + {"documentation_dir"}

  /** What a step may raise: Ctrl-C, a failed dictionary lookup, or any other Exception. */
  datatype Exc = KeyboardInterrupt | KeyError(key: string) | Error(name: string)

  /** The steps of the pipeline whose external work may raise. */
  datatype Step = CheckSystem | LoadDataset | SetupModel | PrepareDataset | Train | Document

  /** What `input("Continue anyway? (y/n): ")` gave: a line, end of input, or Ctrl-C. */
  datatype Answer = Line(text: string) | EndOfInput | Interrupt

  datatype Observations = Observations(
    args: seq<string>,       // sys.argv without the script name
    modelPathExists: bool,   // os.path.exists(model_path)
    cudaAvailable: bool,     // torch.cuda.is_available()
    answer: Answer,          // asked only when CUDA is unavailable
    dataDirExists: bool,     // "training data/<version>" exists
    jsonlFiles: nat,         // number of *.jsonl files in it
    faults: map<Step, Exc>   // the exception a step's external work raises, if any
  )

  /** How one run of `main` ends. */
  datatype Outcome =
    | UsageError                             // wrong number of arguments
    | ModelNotFound                          // the model path does not exist
    | Declined                               // no CUDA and the user did not answer "y"
    | DataDirMissing                         // no training data directory for the version
    | NoJsonlFiles                           // the directory holds no .jsonl file
    | Interrupted                            // KeyboardInterrupt
    | Crashed(error: Exc, reportWritten: bool) // any other Exception
    | Completed(outputName: string, docName: string)

  /** The process exit status of each outcome. */
  function ExitCode(o: Outcome): (r: int)
    ensures r == 130 <==> o == Interrupted
    ensures r == 0 <==> o.Completed? || o == Declined
    ensures r == 1 <==> !(o.Completed? || o == Declined || o == Interrupted)
  {
    match o
    case UsageError => 1
    case ModelNotFound => 1
    case Declined => 0
    case DataDirMissing => 1
    case NoJsonlFiles => 1
    case Interrupted => 130
    case Crashed(_, _) => 1
    case Completed(_, _) => 0
  }

  function LowerChar(c: char): char {
    if 'A' <= c <= 'Z' then (c as int - 'A' as int + 'a' as int) as char else c
  }

  /** `str.lower()` on ASCII letters. */
  function Lower(s: string): (r: string)
    ensures |r| == |s|
  {
    seq(|s|, i requires 0 <= i < |s| => LowerChar(s[i]))
  }

  /** The run goes on after the CUDA warning exactly for the answers "y" and "Y". */
  lemma ContinueAnswers(s: string)
    ensures Lower(s) == "y" <==> s == "y" || s == "Y"
  {
  }

  /** The exception the handlers of `main` turn into an outcome. */
  function Handle(e: Exc, config: set<string>): (o: Outcome)
    ensures e.KeyboardInterrupt? <==> o == Interrupted
    ensures !e.KeyboardInterrupt? ==> o == Crashed(e, "crash_reports_dir" in config)
  {
    if e.KeyboardInterrupt? then Interrupted
    else Crashed(e, "crash_reports_dir" in config)
  }

  /**
    What a step raises, config lookups included, in the order the step
    performs them: check_system looks up "models_dir", creates it, then
    looks up "documentation_dir"; train_model looks up "models_dir" before
    training; generate_documentation looks up "documentation_dir" before
    writing. (The CUDA queries at the start of check_system are not
    modelled as raising.)
   */
  function StepRaises(step: Step, obs: Observations, config: set<string>): (r: Option<Exc>)
    // a step raises exactly when its external work fails or one of its lookups misses
    ensures r.None? <==>
      && step !in obs.faults
      && ((step == CheckSystem || step == Train) ==> "models_dir" in config)
      && ((step == CheckSystem || step == Document) ==> "documentation_dir" in config)
    // a step whose external work succeeds can only fail a lookup, and the key
    // it names is one the step looks up and the configuration lacks
    ensures r.Some? && step !in obs.faults ==>
      && r.value.KeyError?
      && r.value.key !in config
      && (step == Train ==> r.value.key == "models_dir")
      && (step == Document ==> r.value.key == "documentation_dir")
      && (step == CheckSystem ==> r.value.key == "models_dir" || r.value.key == "documentation_dir")
    // a step whose lookups before its external work succeed raises what that work raises
    ensures
      (step in obs.faults
       && ((step == CheckSystem || step == Train) ==> "models_dir" in config)
       && (step == Document ==> "documentation_dir" in config)) ==>
      r == Some(obs.faults[step])
    // check_system's "models_dir" lookup comes before it creates any directory
    ensures step == CheckSystem && "models_dir" !in config ==> r == Some(KeyError("models_dir"))
    // train_model looks up "models_dir" before it trains, and generate_documentation
    // looks up "documentation_dir" before it writes
    ensures step == Train && "models_dir" !in config ==> r == Some(KeyError("models_dir"))
    ensures step == Document && "documentation_dir" !in config ==> r == Some(KeyError("documentation_dir"))
    // with every key configured, a step raises exactly what its external work raises
    ensures "models_dir" in config && "documentation_dir" in config ==>
      r == (if step in obs.faults then Some(obs.faults[step]) else None)
  {
    var fault := if step in obs.faults then Some(obs.faults[step]) else None;
    match step
    case CheckSystem =>
      if "models_dir" !in config then Some(KeyError("models_dir"))
      else if fault.Some? then fault
      else if "documentation_dir" !in config then Some(KeyError("documentation_dir"))
      else None
    case Train =>
      if "models_dir" !in config then Some(KeyError("models_dir")) else fault
    case Document =>
      if "documentation_dir" !in config then Some(KeyError("documentation_dir")) else fault
    case _ => fault
  }

  /** The first of `steps` that raises, and what it raises. */
  function FirstRaise(steps: seq<Step>, obs: Observations, config: set<string>): (r: Option<Exc>)
    ensures r.None? <==> forall k :: 0 <= k < |steps| ==> StepRaises(steps[k], obs, config).None?
    ensures r.Some? ==>
      exists k :: 0 <= k < |steps| && StepRaises(steps[k], obs, config) == r
        && forall j :: 0 <= j < k ==> StepRaises(steps[j], obs, config).None?
  {
    if steps == [] then None
    else if StepRaises(steps[0], obs, config).Some? then StepRaises(steps[0], obs, config)
    else
      var r := FirstRaise(steps[1..], obs, config);
      assert forall k :: 1 <= k < |steps| ==> steps[k] == steps[1..][k - 1];
      if r.Some? then
        var k :| 0 <= k < |steps[1..]| && StepRaises(steps[1..][k], obs, config) == r
          && forall j :: 0 <= j < k ==> StepRaises(steps[1..][j], obs, config).None?;
        assert StepRaises(steps[k + 1], obs, config) == r;
        r
      else r
  }

  /** The steps after load_training_data, in the order `main` runs them. */
  const PipelineSteps: seq<Step> := [SetupModel, PrepareDataset, Train, Document]

  /**
    `load_training_data`: looks up the data directory, exits with 1 when
    the version directory is missing or holds no .jsonl file, and then
    loads the dataset, which may raise. None means the data was loaded.
   */
  function LoadTrainingData(obs: Observations, config: set<string>): (r: Option<Outcome>)
    ensures r.None? <==>
      && "training_data_dir" in config && obs.dataDirExists && obs.jsonlFiles > 0
      && StepRaises(LoadDataset, obs, config).None?
    ensures r == Some(DataDirMissing) <==> "training_data_dir" in config && !obs.dataDirExists
    ensures r == Some(NoJsonlFiles) <==>
      "training_data_dir" in config && obs.dataDirExists && obs.jsonlFiles == 0
    ensures r.Some? ==> ExitCode(r.value) == 1 || r.value == Interrupted
    // the data directory lookup and the dataset loading go to main's handlers
    ensures "training_data_dir" !in config ==>
      r == Some(Crashed(KeyError("training_data_dir"), "crash_reports_dir" in config))
    ensures
      ("training_data_dir" in config && obs.dataDirExists && obs.jsonlFiles > 0
       && StepRaises(LoadDataset, obs, config).Some?) ==>
      r == Some(Handle(StepRaises(LoadDataset, obs, config).value, config))
  {
    if "training_data_dir" !in config then Some(Handle(KeyError("training_data_dir"), config))
    else if !obs.dataDirExists then Some(DataDirMissing)
    else if obs.jsonlFiles == 0 then Some(NoJsonlFiles)
    else match StepRaises(LoadDataset, obs, config)
      case Some(e) => Some(Handle(e, config))
      case None => None
  }

  /** The run passed the argument and model path checks and check_system. */
  predicate PassedSystemCheck(obs: Observations, config: set<string>) {
    |obs.args| == 1 && obs.modelPathExists && StepRaises(CheckSystem, obs, config).None?
  }

  /** The run got past the CUDA question: CUDA is there or the user answered "y". */
  predicate Confirmed(obs: Observations) {
    obs.cudaAvailable || (obs.answer.Line? && Lower(obs.answer.text) == "y")
  }

  /** The run got as far as load_training_data. */
  predicate ReachesLoad(obs: Observations, config: set<string>) {
    PassedSystemCheck(obs, config) && Confirmed(obs)
  }

  /**
    The part of `main` after the CUDA question: load_training_data, then
    the pipeline steps in order, the first exception going to the handlers.
   */
  function Pipeline(obs: Observations, config: set<string>, modelName: string): (o: Outcome)
    ensures o != UsageError && o != ModelNotFound && o != Declined
    ensures LoadTrainingData(obs, config).Some? ==> o == LoadTrainingData(obs, config).value
    ensures o == DataDirMissing <==> LoadTrainingData(obs, config) == Some(DataDirMissing)
    ensures o == NoJsonlFiles <==> LoadTrainingData(obs, config) == Some(NoJsonlFiles)
    ensures LoadTrainingData(obs, config).None? && FirstRaise(PipelineSteps, obs, config).Some? ==>
      o == Handle(FirstRaise(PipelineSteps, obs, config).value, config)
    ensures o.Crashed? ==>
      !o.error.KeyboardInterrupt? && o.reportWritten == ("crash_reports_dir" in config)
    ensures o.Completed? <==>
      LoadTrainingData(obs, config).None? && FirstRaise(PipelineSteps, obs, config).None?
    ensures o.Completed? ==>
      o.outputName == OutputName(modelName, Version) && o.docName == DocFilename(modelName, Version)
  {
    match LoadTrainingData(obs, config)
    case Some(o) => o
    case None =>
      match FirstRaise(PipelineSteps, obs, config)
      case Some(e) => Handle(e, config)
      case None => Completed(OutputName(modelName, Version), DocFilename(modelName, Version))
  }

  /**
    `main`: the fail-fast ladder. `sys.exit` inside the `try` raises
    SystemExit, which neither handler catches, so the early exits keep
    their own codes; KeyboardInterrupt exits with 130 and every other
    Exception writes a crash report and exits with 1.
   */
  function Main(obs: Observations, config: set<string>): (o: Outcome)
    // argument and path checks come first, with exit status 1
    ensures o == UsageError <==> |obs.args| != 1
    ensures o == ModelNotFound <==> |obs.args| == 1 && !obs.modelPathExists
    // check_system raises into the handlers
    ensures |obs.args| == 1 && obs.modelPathExists && StepRaises(CheckSystem, obs, config).Some? ==>
      o == Handle(StepRaises(CheckSystem, obs, config).value, config)
    // the CUDA question: Ctrl-C exits with 130, end of input crashes with EOFError
    ensures PassedSystemCheck(obs, config) && !obs.cudaAvailable && obs.answer.Interrupt? ==>
      o == Interrupted
    ensures PassedSystemCheck(obs, config) && !obs.cudaAvailable && obs.answer.EndOfInput? ==>
      o == Crashed(Error("EOFError"), "crash_reports_dir" in config)
    ensures o == Declined <==>
      PassedSystemCheck(obs, config) && !obs.cudaAvailable && obs.answer.Line?
      && Lower(obs.answer.text) != "y"
    // load_training_data
    ensures o == DataDirMissing <==> ReachesLoad(obs, config) && LoadTrainingData(obs, config) == Some(DataDirMissing)
    ensures o == NoJsonlFiles <==> ReachesLoad(obs, config) && LoadTrainingData(obs, config) == Some(NoJsonlFiles)
    ensures ReachesLoad(obs, config) && LoadTrainingData(obs, config).Some? ==>
      o == LoadTrainingData(obs, config).value
    // the first pipeline step that raises decides the outcome
    ensures
      (ReachesLoad(obs, config) && LoadTrainingData(obs, config).None?
       && FirstRaise(PipelineSteps, obs, config).Some?) ==>
      o == Handle(FirstRaise(PipelineSteps, obs, config).value, config)
    // a crash is never an interrupt, and its report is written when the directory is configured
    ensures o.Crashed? ==>
      !o.error.KeyboardInterrupt? && o.reportWritten == ("crash_reports_dir" in config)
    // a completed run passed every check and names its outputs after the model
    ensures o.Completed? <==>
      ReachesLoad(obs, config) && LoadTrainingData(obs, config).None?
      && FirstRaise(PipelineSteps, obs, config).None?
    ensures o.Completed? ==>
      o.outputName == OutputName(BaseName(obs.args[0]), Version)
      && o.docName == DocFilename(BaseName(obs.args[0]), Version)
  {
    if |obs.args| != 1 then UsageError
    else if !obs.modelPathExists then ModelNotFound
    else if StepRaises(CheckSystem, obs, config).Some? then
      Handle(StepRaises(CheckSystem, obs, config).value, config)
    else if !obs.cudaAvailable && obs.answer.Interrupt? then Handle(KeyboardInterrupt, config)
    else if !obs.cudaAvailable && obs.answer.EndOfInput? then Handle(Error("EOFError"), config)
    else if !obs.cudaAvailable && Lower(obs.answer.text) != "y" then Declined
    else Pipeline(obs, config, BaseName(obs.args[0]))
  }

  /** The script's behaviour with the documentation directory configured. */
  function Run(obs: Observations): Outcome {
    Main(obs, OutputConfig)
  }

  /**
    As written, OUTPUT_CONFIG has no "documentation_dir", so check_system
    raises KeyError on every run that gets past the argument and path
    checks: no run ever trains, the CUDA question is never asked, and the
    process exits with 1 after writing a crash report.
   */
  lemma AsWrittenAlwaysCrashes(obs: Observations)
    ensures !Main(obs, OutputConfigAsWritten).Completed?
    ensures Main(obs, OutputConfigAsWritten) != Declined
    ensures |obs.args| == 1 && obs.modelPathExists ==>
      var o := Main(obs, OutputConfigAsWritten);
      o == Interrupted || (o.Crashed? && o.reportWritten && ExitCode(o) == 1)
    ensures |obs.args| == 1 && obs.modelPathExists && CheckSystem !in obs.faults ==>
      Main(obs, OutputConfigAsWritten) == Crashed(KeyError("documentation_dir"), true)
  {
  }

  /**
    The model name is the path's last component, so two different model
    paths that end in the same directory name get the same output name.
   */
  lemma OutputNameCollision(dir1: string, dir2: string, name: string)
    requires name != [] && '/' !in name
    ensures BaseName(dir1 + "/" + name) == BaseName(dir2 + "/" + name) == name
    ensures OutputName(BaseName(dir1 + "/" + name), Version) == OutputName(BaseName(dir2 + "/" + name), Version)
  {
    BaseNameOfJoin(dir1, name);
    BaseNameOfJoin(dir2, name);
  }

  /** With the key added, a run with CUDA, training data and no failing step completes. */
  lemma CorrectedCompletes(modelPath: string, jsonlFiles: nat)
    requires jsonlFiles > 0
    ensures var obs := Observations([modelPath], true, true, EndOfInput, true, jsonlFiles, map[]);
      Run(obs) == Completed(OutputName(BaseName(modelPath), Version), DocFilename(BaseName(modelPath), Version))
      && ExitCode(Run(obs)) == 0
  {
  }
}
