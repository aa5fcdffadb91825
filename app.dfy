/**
 * The application component: the selected files and the four state cells
 * (`isLoading`, `loadingMessage`, `error`, `pptxBlob`) that `handleGenerate`
 * and `handleFileChange` update.
 *
 * `handleGenerate` is modelled as one uninterrupted run: the awaits of the
 * three stages are calls on the services below, which stand for everything
 * outside the component (file readers, the model service, the slide-deck
 * library).
 */
module App {
  import opened JsRuntime
  import opened Types
  import opened GeminiService
  import opened FileParser
  import opened PresentationService

  const NoFilesMessage := "Please upload at least one DOCX or XLSX file."
  const ParsingMessage := "Parsing and reading your files..."
  const AnalyzingMessage := "Analyzing content with AI..."
  const BuildingMessage := "Building your presentation..."
  const UnknownErrorMessage := "An unknown error occurred. Please try again."

  /** The three stages of a generation, in the order they run. */
  datatype Stage = Parsing | Generating | Building

  const AllStages := [Parsing, Generating, Building]

  /** The loading message shown while a stage runs. */
  function StageMessage(stage: Stage): string
  {
    match stage
    case Parsing => ParsingMessage
    case Generating => AnalyzingMessage
    case Building => BuildingMessage
  }

  /** Everything the three stages call on. */
  datatype Services = Services(
    readers: Readers,
    stringify: SheetData -> string,
    model: ModelService,
    parse: ResponseParser,
    jitter: nat -> Jitter,
    renderer: Renderer)

  /** How a run of the stages ended, and which stages it started. */
  datatype Pipeline = Pipeline(outcome: Result<Blob, Thrown>, stages: seq<Stage>)

  /** The `try` block: parse, then generate, then build; the first failure ends the run. */
  function RunStages(files: seq<File>, env: Services): (p: Pipeline)
    ensures 1 <= |p.stages| <= 3 && p.stages == AllStages[..|p.stages|]
    ensures p.outcome.Ok? ==> p.stages == AllStages
  {
    match ParseResult(files, env.readers)
    case Err(e) => Pipeline(Err(e), [Parsing])
    case Ok(parsed) =>
      var generated := Run(AttemptFor(parsed, env), DefaultMaxRetries, env.jitter);
      match generated.result
      case Err(e) => Pipeline(Err(e), [Parsing, Generating])
      case Ok(slides) => Pipeline(Render(slides, env.renderer), AllStages)
  }

  /** The text the `catch` block stores: an `Error`'s message, a fixed text for anything else thrown. */
  function ErrorText(e: Thrown): string
  {
    if e.Error? then e.text else UnknownErrorMessage
  }

  /** The loading messages a run shows: one per stage it starts, then the reset of the `finally` block. */
  function Shown(stages: seq<Stage>): (r: seq<string>)
    ensures |r| == |stages| + 1 && r[|stages|] == ""
    ensures forall i :: 0 <= i < |stages| ==> r[i] == StageMessage(stages[i])
  {
    StageMessages(stages) + [""]
  }

  function StageMessages(stages: seq<Stage>): (r: seq<string>)
    ensures |r| == |stages|
    ensures forall i :: 0 <= i < |stages| ==> r[i] == StageMessage(stages[i])
  {
    seq(|stages|, i requires 0 <= i < |stages| => StageMessage(stages[i]))
  }

  lemma StageMessagesSnoc(stages: seq<Stage>, stage: Stage)
    ensures StageMessages(stages + [stage]) == StageMessages(stages) + [StageMessage(stage)]
  {
  }

  /** The cells `handleGenerate` leaves, the loading messages it showed, and the stages it ran. */
  datatype Cells = Cells(isLoading: bool, loadingMessage: string, error: Option<string>, pptxBlob: Option<Blob>)
  datatype GenerateRun = GenerateRun(cells: Cells, shown: seq<string>, stages: seq<Stage>)

  /** `handleGenerate` as a function of the files, the cells before it, and the services. */
  function Generate(files: seq<File>, before: Cells, env: Services): GenerateRun
  {
    if |files| == 0 then
      GenerateRun(before.(error := Some(NoFilesMessage)), [], [])
    else
      var p := RunStages(files, env);
      var cells := match p.outcome
        case Ok(blob) => Cells(false, "", None, Some(blob))
        case Err(e) => Cells(false, "", Some(ErrorText(e)), None);
      GenerateRun(cells, Shown(p.stages), p.stages)
  }

  /** With no files, only `error` changes: no stage runs and no loading message is shown. */
  lemma NoFilesOnlySetsError(files: seq<File>, before: Cells, env: Services)
    requires |files| == 0
    ensures var g := Generate(files, before, env);
      && g.cells.error == Some(NoFilesMessage)
      && g.cells.isLoading == before.isLoading
      && g.cells.loadingMessage == before.loadingMessage
      && g.cells.pptxBlob == before.pptxBlob
      && g.stages == [] && g.shown == []
  {
  }

  /**
   * With files, the stages run in order, each after its loading message; the
   * run ends with nothing loading whatever its outcome.
   */
  lemma StagesInOrder(files: seq<File>, before: Cells, env: Services)
    requires |files| > 0
    ensures var g := Generate(files, before, env);
      && 1 <= |g.stages| <= 3
      && g.stages == AllStages[..|g.stages|]
      && g.shown == Shown(g.stages)
      && !g.cells.isLoading && g.cells.loadingMessage == ""
  {
  }

  /** On success the blob is the renderer's and there is no error; on failure the error is the thrown value's text and there is no blob. */
  lemma OutcomeCells(files: seq<File>, before: Cells, env: Services)
    requires |files| > 0
    ensures var p := RunStages(files, env);
      var g := Generate(files, before, env);
      && (p.outcome.Ok? <==> g.cells.pptxBlob.Some?)
      && (p.outcome.Ok? ==> g.cells.pptxBlob == Some(p.outcome.value) && g.cells.error.None? && g.stages == AllStages)
      && (p.outcome.Err? ==> g.cells.error == Some(ErrorText(p.outcome.error)) && g.cells.pptxBlob.None?)
  {
  }

  /** The invariant of the component: never both an error and a blob, and a blob only for a non-empty selection. */
  predicate Consistent(files: seq<File>, cells: Cells)
  {
    && !(cells.error.Some? && cells.pptxBlob.Some?)
    && (cells.pptxBlob.Some? ==> |files| > 0)
  }

  /** `handleGenerate` keeps the invariant. */
  lemma {:induction false} GenerateKeepsConsistent(files: seq<File>, before: Cells, env: Services)
    requires Consistent(files, before)
    ensures Consistent(files, Generate(files, before, env).cells)
  {
    if |files| == 0 {
      assert before.pptxBlob.None?;
    }
  }

  /** A failure to read the files stops the run before the model is asked. */
  lemma ParseFailureStops(files: seq<File>, before: Cells, env: Services)
    requires |files| > 0 && ParseResult(files, env.readers).Err?
    ensures var g := Generate(files, before, env);
      && g.stages == [Parsing]
      && g.shown == [ParsingMessage, ""]
      && g.cells.error == Some(ErrorText(ParseResult(files, env.readers).error))
  {
    var g := Generate(files, before, env);
    assert g.stages == [Parsing];
  }

  /** The attempt function the generation stage retries, for the parsed files. */
  function AttemptFor(parsed: Parsed, env: Services): nat -> Result<seq<Slide>, Thrown>
  {
    Attempt(parsed.docxContent, parsed.xlsxData, parsed.researchRequested, env.stringify, env.model, env.parse)
  }

  /**
   * When every attempt of the model call is rate-limited, the user sees the
   * retry policy's final message, which names the number of attempts and
   * ends with the last rate-limit message.
   */
  lemma QuotaExhaustedMessage(files: seq<File>, before: Cells, env: Services)
    requires |files| > 0 && ParseResult(files, env.readers).Ok?
    requires RateLimitedBefore(AttemptFor(ParseResult(files, env.readers).value, env), DefaultMaxRetries)
    ensures var fn := AttemptFor(ParseResult(files, env.readers).value, env);
      var last := fn(DefaultMaxRetries - 1).error;
      && Generate(files, before, env).cells.error == Some(ExhaustedMessage(DefaultMaxRetries, Some(last)))
      && Generate(files, before, env).stages == [Parsing, Generating]
      && EndsWith(Generate(files, before, env).cells.error.value, last.Message().value)
  {
    var fn := AttemptFor(ParseResult(files, env.readers).value, env);
    ExhaustsAfterMaxRetries(fn, DefaultMaxRetries, env.jitter);
    assert fn(DefaultMaxRetries - 1).Err? && IsRateLimited(fn(DefaultMaxRetries - 1).error);
    ExhaustedMessageShape(DefaultMaxRetries, fn(DefaultMaxRetries - 1).error);
  }

  /** A model response that does not parse is reported at once with the fixed parse-failure text. */
  lemma UnparseableResponseReported(files: seq<File>, before: Cells, env: Services)
    requires |files| > 0 && ParseResult(files, env.readers).Ok?
    requires var parsed := ParseResult(files, env.readers).value;
      var response := env.model(ModelName, GeneratePrompt(parsed.docxContent, parsed.xlsxData, env.stringify),
                                BuildConfig(parsed.researchRequested), 0);
      response.Ok? && (response.value.None? || env.parse(response.value.value).None?)
    ensures Generate(files, before, env).cells.error == Some(ParseFailureMessage)
    ensures Generate(files, before, env).stages == [Parsing, Generating]
  {
    var parsed := ParseResult(files, env.readers).value;
    ParseFailureNotRetried(parsed.docxContent, parsed.xlsxData, parsed.researchRequested,
                           env.stringify, env.model, env.parse, env.jitter);
  }

  /** The component's state. */
  class AppState {
    var files: seq<File>
    var isLoading: bool
    var loadingMessage: string
    var error: Option<string>
    var pptxBlob: Option<Blob>
    /** The loading messages set during the latest `handleGenerate`, in order. */
    ghost var shown: seq<string>
    /** The stages the latest `handleGenerate` started, in order. */
    ghost var stagesRun: seq<Stage>

    function CellValues(): Cells
      reads this
    {
      Cells(isLoading, loadingMessage, error, pptxBlob)
    }

    ghost predicate Valid()
      reads this
    {
      Consistent(files, CellValues())
    }

    /** The initial state: no files, nothing loading, no error, no blob. */
    constructor ()
      ensures files == [] && !isLoading && loadingMessage == "" && error.None? && pptxBlob.None?
      ensures Valid()
    {
      files := [];
      isLoading := false;
      loadingMessage := "";
      error := None;
      pptxBlob := None;
      shown := [];
      stagesRun := [];
    }

    /** `handleFileChange`: the new selection replaces the files, and both the blob and the error are cleared. */
    method HandleFileChange(selectedFiles: seq<File>)
      modifies this
      ensures files == selectedFiles && pptxBlob.None? && error.None?
      ensures isLoading == old(isLoading) && loadingMessage == old(loadingMessage)
      ensures shown == old(shown) && stagesRun == old(stagesRun)
      ensures Valid()
    {
      files := selectedFiles;
      pptxBlob := None;
      error := None;
    }

    /** `setLoadingMessage`, recorded in `shown`. */
    method SetLoadingMessage(message: string)
      modifies this
      ensures loadingMessage == message && shown == old(shown) + [message]
      ensures files == old(files) && isLoading == old(isLoading) && error == old(error)
      ensures pptxBlob == old(pptxBlob) && stagesRun == old(stagesRun)
    {
      loadingMessage := message;
      shown := shown + [message];
    }

    /** `setLoadingMessage` with the message of `stage`, just before the stage starts. */
    method EnterStage(stage: Stage)
      requires shown == StageMessages(stagesRun)
      modifies this
      ensures stagesRun == old(stagesRun) + [stage] && shown == StageMessages(stagesRun)
      ensures loadingMessage == StageMessage(stage)
      ensures files == old(files) && isLoading == old(isLoading) && error == old(error) && pptxBlob == old(pptxBlob)
    {
      SetLoadingMessage(StageMessage(stage));
      StageMessagesSnoc(stagesRun, stage);
      stagesRun := stagesRun + [stage];
    }

    /**
     * The `try` block: each stage after its loading message, the blob stored
     * on success; the value thrown by the failing stage, if any, is returned.
     */
    method TryStages(env: Services) returns (thrown: Option<Thrown>)
      requires shown == [] && stagesRun == []
      modifies this
      ensures var p := RunStages(files, env);
        && stagesRun == p.stages
        && shown == StageMessages(p.stages)
        && (p.outcome.Ok? ==> thrown.None? && pptxBlob == Some(p.outcome.value))
        && (p.outcome.Err? ==> thrown == Some(p.outcome.error) && pptxBlob == old(pptxBlob))
      ensures files == old(files) && isLoading == old(isLoading) && error == old(error)
    {
      EnterStage(Parsing);
      var parsed := ParseFiles(files, env.readers);
      if parsed.Err? {
        assert RunStages(files, env) == Pipeline(Err(parsed.error), [Parsing]);
        return Some(parsed.error);
      }
      var content := parsed.value;
      EnterStage(Generating);
      var structure, calls, delays :=
        GeneratePresentationContent(content.docxContent, content.xlsxData, content.researchRequested,
                                    env.stringify, env.model, env.parse, env.jitter);
      if structure.Err? {
        assert RunStages(files, env) == Pipeline(Err(structure.error), [Parsing, Generating]);
        return Some(structure.error);
      }
      EnterStage(Building);
      var blob := CreatePresentation(structure.value, env.renderer);
      assert RunStages(files, env) == Pipeline(blob, AllStages);
      if blob.Err? {
        return Some(blob.error);
      }
      pptxBlob := Some(blob.value);
      return None;
    }

    /** `handleGenerate`: the empty-selection guard, the three stages, the `catch` and the `finally`. */
    method HandleGenerate(env: Services)
      requires Valid()
      modifies this
      ensures files == old(files)
      ensures var g := Generate(old(files), old(CellValues()), env);
        && CellValues() == g.cells
        && (|old(files)| > 0 ==> shown == g.shown && stagesRun == g.stages)
        && (|old(files)| == 0 ==> shown == old(shown) && stagesRun == old(stagesRun))
      ensures Valid()
    {
      if |files| == 0 {
        error := Some(NoFilesMessage);
        GenerateKeepsConsistent(files, old(CellValues()), env);
        return;
      }
      isLoading := true;
      error := None;
      pptxBlob := None;
      shown := [];
      stagesRun := [];
      var thrown := TryStages(env);
      if thrown.Some? {
        error := Some(ErrorText(thrown.value));
      }
      isLoading := false;
      SetLoadingMessage("");
      GenerateKeepsConsistent(files, old(CellValues()), env);
    }
  }
}
