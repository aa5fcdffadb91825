/**
 * The generation service: the prompt sent to the model, the request
 * configuration, the wrapping of an unparseable response, and the retry
 * policy around each call.
 *
 * The network call to the model service and `JSON.parse` are outside the
 * model: they are parameters (oracles). `fn`, the action `withRetry`
 * repeats, is the function from the call number (0 for the first call) to
 * the outcome of that call. The random jitter of the back-off is a
 * parameter bounded to [0, 1000) ms, and delays are whole milliseconds.
 */
module GeminiService {
  import opened JsRuntime
  import opened Types

  // ---------------------------------------------------------------------
  // Error classification

  /**
   * A failure is rate-limited when it has a (non-empty) message that
   * mentions the HTTP status 429 or the service's RESOURCE_EXHAUSTED code.
   */
  predicate IsRateLimited(e: Thrown)
  {
    match e.Message()
    case None => false
    case Some(m) => m != "" && (Includes(m, "429") || Includes(m, "RESOURCE_EXHAUSTED"))
  }

  /** The classification holds exactly when the message has one of the two markers at some position. */
  lemma RateLimitedIff(e: Thrown)
    ensures IsRateLimited(e) <==>
      e.Message().Some? &&
      ((exists i :: OccursAt(e.Message().value, "429", i)) ||
       (exists i :: OccursAt(e.Message().value, "RESOURCE_EXHAUSTED", i)))
  {
    if e.Message().Some? {
      var m := e.Message().value;
      IncludesIff(m, "429");
      IncludesIff(m, "RESOURCE_EXHAUSTED");
    }
  }

  // ---------------------------------------------------------------------
  // The retry policy

  /** The default attempt ceiling of `withRetry`. */
  const DefaultMaxRetries := 5

  const BackoffBaseMs := 1500
  const JitterBoundMs := 1000

  /** The random part of a back-off delay, in whole milliseconds. */
  type Jitter = j: nat | j < 1000

  function Pow2(n: nat): (r: nat)
    ensures r >= 1
  {
    if n == 0 then 1 else 2 * Pow2(n - 1)
  }

  /** The delay before retry number `n` (the attempt count after the n-th rate-limited failure). */
  function BackoffDelay(n: nat, jitter: Jitter): (d: nat)
    ensures Pow2(n) * BackoffBaseMs <= d < Pow2(n) * BackoffBaseMs + JitterBoundMs
  {
    Pow2(n) * BackoffBaseMs + jitter
  }

  /** `lastError?.message` as a template literal prints it. */
  function LastErrorText(lastError: Option<Thrown>): string
  {
    match lastError
    case None => "undefined"
    case Some(e) => match e.Message() case None => "undefined" case Some(m) => m
  }

  const ExhaustedPrefix := "API call failed after "
  const ExhaustedMiddle :=
    " attempts. The service is likely busy or you've exceeded your usage quota. Please check your billing details and API plan, then try again later. Original error: "

  /** The message of the error thrown once the attempts are used up. */
  function ExhaustedMessage(maxRetries: int, lastError: Option<Thrown>): string
  {
    ExhaustedPrefix + IntToString(maxRetries) + ExhaustedMiddle + LastErrorText(lastError)
  }

  /** What one run of `withRetry` does: its outcome, how often it called `fn`, and the sleeps between calls. */
  datatype RetryRun<T> = RetryRun(result: Result<T, Thrown>, calls: nat, delays: seq<nat>)

  /**
   * The run of `withRetry` from the loop head with `attempt` rate-limited
   * failures behind it, the last one being `lastError`.
   */
  function RunFrom<T>(fn: nat -> Result<T, Thrown>, maxRetries: int, jitter: nat -> Jitter,
                      attempt: nat, lastError: Option<Thrown>): RetryRun<T>
    decreases maxRetries - attempt
  {
    if attempt >= maxRetries then
      RetryRun(Err(Error(ExhaustedMessage(maxRetries, lastError))), attempt, [])
    else match fn(attempt)
      case Ok(v) => RetryRun(Ok(v), attempt + 1, [])
      case Err(e) =>
        if !IsRateLimited(e) then RetryRun(Err(e), attempt + 1, [])
        else
          var next := attempt + 1;
          var rest := RunFrom(fn, maxRetries, jitter, next, Some(e));
          if next < maxRetries then rest.(delays := [BackoffDelay(next, jitter(next))] + rest.delays)
          else rest
  }

  /** The run of `withRetry(fn, maxRetries)`. */
  function Run<T>(fn: nat -> Result<T, Thrown>, maxRetries: int, jitter: nat -> Jitter): RetryRun<T>
  {
    RunFrom(fn, maxRetries, jitter, 0, None)
  }

  /**
   * `withRetry`: call `fn` until it succeeds, fails with a failure that is
   * not rate-limited, or has failed rate-limited `maxRetries` times; sleep
   * with exponential back-off between rate-limited attempts.
   * Returns the outcome, the number of calls of `fn` and the delays slept.
   */
  method WithRetry<T>(fn: nat -> Result<T, Thrown>, maxRetries: int, jitter: nat -> Jitter)
    returns (result: Result<T, Thrown>, calls: nat, delays: seq<nat>)
    ensures RetryRun(result, calls, delays) == Run(fn, maxRetries, jitter)
  {
    var attempt: nat := 0;
    var lastError: Option<Thrown> := None;
    calls, delays := 0, [];
    while attempt < maxRetries
      invariant calls == attempt
      invariant Run(fn, maxRetries, jitter) ==
        var rest := RunFrom(fn, maxRetries, jitter, attempt, lastError); rest.(delays := delays + rest.delays)
      decreases maxRetries - attempt
    {
      var outcome := fn(attempt);
      calls := calls + 1;
      match outcome {
        case Ok(v) =>
          return Ok(v), calls, delays;
        case Err(e) =>
          lastError := Some(e);
          if IsRateLimited(e) {
            attempt := attempt + 1;
            if attempt < maxRetries {
              delays := delays + [BackoffDelay(attempt, jitter(attempt))];
            }
          } else {
            return Err(e), calls, delays;
          }
      }
    }
    return Err(Error(ExhaustedMessage(maxRetries, lastError))), calls, delays;
  }

  // ---------------------------------------------------------------------
  // Properties of the retry policy

  /** The first `k` calls of `fn` fail with rate-limited errors. */
  predicate RateLimitedBefore<T>(fn: nat -> Result<T, Thrown>, k: nat)
  {
    forall i: nat :: i < k ==> fn(i).Err? && IsRateLimited(fn(i).error)
  }

  /**
   * After `k` rate-limited failures below the ceiling, the first success is
   * returned: `fn` was called exactly k+1 times and slept k times.
   */
  lemma {:induction false} ReturnsFirstSuccess<T>(fn: nat -> Result<T, Thrown>, maxRetries: int, jitter: nat -> Jitter,
                                                  a: nat, lastError: Option<Thrown>, k: nat)
    requires a <= k < maxRetries
    requires forall i: nat :: a <= i < k ==> fn(i).Err? && IsRateLimited(fn(i).error)
    requires fn(k).Ok?
    ensures RunFrom(fn, maxRetries, jitter, a, lastError).result == Ok(fn(k).value)
    ensures RunFrom(fn, maxRetries, jitter, a, lastError).calls == k + 1
    ensures |RunFrom(fn, maxRetries, jitter, a, lastError).delays| == k - a
    decreases k - a
  {
    if a < k {
      ReturnsFirstSuccess(fn, maxRetries, jitter, a + 1, Some(fn(a).error), k);
    }
  }

  /** `withRetry` returns the first success and never calls `fn` after it. */
  lemma SuccessAfterRateLimits<T>(fn: nat -> Result<T, Thrown>, maxRetries: int, jitter: nat -> Jitter, k: nat)
    requires k < maxRetries && RateLimitedBefore(fn, k) && fn(k).Ok?
    ensures Run(fn, maxRetries, jitter).result == Ok(fn(k).value)
    ensures Run(fn, maxRetries, jitter).calls == k + 1
    ensures |Run(fn, maxRetries, jitter).delays| == k
  {
    ReturnsFirstSuccess(fn, maxRetries, jitter, 0, None, k);
  }

  lemma {:induction false} RethrowsFrom<T>(fn: nat -> Result<T, Thrown>, maxRetries: int, jitter: nat -> Jitter,
                                           a: nat, lastError: Option<Thrown>, k: nat)
    requires a <= k < maxRetries
    requires forall i: nat :: a <= i < k ==> fn(i).Err? && IsRateLimited(fn(i).error)
    requires fn(k).Err? && !IsRateLimited(fn(k).error)
    ensures RunFrom(fn, maxRetries, jitter, a, lastError).result == fn(k)
    ensures RunFrom(fn, maxRetries, jitter, a, lastError).calls == k + 1
    ensures |RunFrom(fn, maxRetries, jitter, a, lastError).delays| == k - a
    decreases k - a
  {
    if a < k {
      RethrowsFrom(fn, maxRetries, jitter, a + 1, Some(fn(a).error), k);
    }
  }

  /**
   * A failure that is not rate-limited (no message, or a message with
   * neither marker) is rethrown unchanged, at once: no further call and no
   * further sleep.
   */
  lemma NonRetryableRethrown<T>(fn: nat -> Result<T, Thrown>, maxRetries: int, jitter: nat -> Jitter, k: nat)
    requires k < maxRetries && RateLimitedBefore(fn, k)
    requires fn(k).Err? && !IsRateLimited(fn(k).error)
    ensures Run(fn, maxRetries, jitter).result == fn(k)
    ensures Run(fn, maxRetries, jitter).calls == k + 1
    ensures |Run(fn, maxRetries, jitter).delays| == k
  {
    RethrowsFrom(fn, maxRetries, jitter, 0, None, k);
  }

  lemma {:induction false} ExhaustsFrom<T>(fn: nat -> Result<T, Thrown>, maxRetries: int, jitter: nat -> Jitter,
                                           a: nat, lastError: Option<Thrown>)
    requires 0 <= a < maxRetries
    requires forall i: nat :: a <= i < maxRetries ==> fn(i).Err? && IsRateLimited(fn(i).error)
    ensures RunFrom(fn, maxRetries, jitter, a, lastError).result ==
      Err(Error(ExhaustedMessage(maxRetries, Some(fn(maxRetries - 1).error))))
    ensures RunFrom(fn, maxRetries, jitter, a, lastError).calls == maxRetries
    ensures |RunFrom(fn, maxRetries, jitter, a, lastError).delays| == maxRetries - 1 - a
    decreases maxRetries - a
  {
    if a + 1 < maxRetries {
      ExhaustsFrom(fn, maxRetries, jitter, a + 1, Some(fn(a).error));
    }
  }

  /**
   * After `maxRetries` rate-limited failures in a row, `withRetry` throws
   * the "exhausted" error carrying the last failure's message; `fn` was
   * called `maxRetries` times and there was no sleep after the last one.
   */
  lemma ExhaustsAfterMaxRetries<T>(fn: nat -> Result<T, Thrown>, maxRetries: nat, jitter: nat -> Jitter)
    requires maxRetries > 0 && RateLimitedBefore(fn, maxRetries)
    ensures Run(fn, maxRetries, jitter).result == Err(Error(ExhaustedMessage(maxRetries, Some(fn(maxRetries - 1).error))))
    ensures Run(fn, maxRetries, jitter).calls == maxRetries
    ensures |Run(fn, maxRetries, jitter).delays| == maxRetries - 1
  {
    ExhaustsFrom(fn, maxRetries, jitter, 0, None);
  }

  /** With a ceiling of zero or less, `fn` is never called and the message reports an undefined original error. */
  lemma NoCallsWithoutAttempts<T>(fn: nat -> Result<T, Thrown>, maxRetries: int, jitter: nat -> Jitter)
    requires maxRetries <= 0
    ensures Run(fn, maxRetries, jitter) == RetryRun(Err(Error(ExhaustedMessage(maxRetries, None))), 0, [])
    ensures StartsWith(ExhaustedMessage(maxRetries, None), ExhaustedPrefix + "-")
      || ExhaustedMessage(maxRetries, None) == ExhaustedPrefix + "0" + ExhaustedMiddle + "undefined"
  {
  }

  lemma {:induction false} CallsBoundedFrom<T>(fn: nat -> Result<T, Thrown>, maxRetries: int, jitter: nat -> Jitter,
                                               a: nat, lastError: Option<Thrown>)
    requires a <= maxRetries
    ensures a <= RunFrom(fn, maxRetries, jitter, a, lastError).calls <= maxRetries
    ensures var r := RunFrom(fn, maxRetries, jitter, a, lastError);
      r.calls > a ==> |r.delays| == r.calls - 1 - a
    ensures var r := RunFrom(fn, maxRetries, jitter, a, lastError);
      r.calls == a ==> r.delays == []
    ensures var r := RunFrom(fn, maxRetries, jitter, a, lastError);
      forall n :: 0 <= n < |r.delays| ==> r.delays[n] == BackoffDelay(a + n + 1, jitter(a + n + 1))
    decreases maxRetries - a
  {
    if a < maxRetries && fn(a).Err? && IsRateLimited(fn(a).error) {
      CallsBoundedFrom(fn, maxRetries, jitter, a + 1, Some(fn(a).error));
    }
  }

  /**
   * Whatever `fn` does: it is called at most `maxRetries` times (never when
   * the ceiling is not positive), there is one sleep between consecutive
   * calls and none after the last, and the n-th sleep (from 0) is the
   * back-off for retry n+1, so it lies in [2^(n+1)*1500, 2^(n+1)*1500 + 1000) ms.
   */
  lemma CallsAndDelaysBounded<T>(fn: nat -> Result<T, Thrown>, maxRetries: int, jitter: nat -> Jitter)
    ensures var r := Run(fn, maxRetries, jitter);
      && r.calls <= (if maxRetries < 0 then 0 else maxRetries)
      && (r.calls == 0 <==> maxRetries <= 0)
      && |r.delays| == (if r.calls == 0 then 0 else r.calls - 1)
      && forall n :: 0 <= n < |r.delays| ==>
           Pow2(n + 1) * BackoffBaseMs <= r.delays[n] < Pow2(n + 1) * BackoffBaseMs + JitterBoundMs
  {
    if maxRetries > 0 {
      CallsBoundedFrom(fn, maxRetries, jitter, 0, None);
    }
  }

  /**
   * The "exhausted" message names the ceiling and ends with the last
   * failure's message; when that failure was rate-limited, so is the
   * exhausted error (it quotes the marker).
   */
  lemma ExhaustedMessageShape(maxRetries: int, e: Thrown)
    requires e.Message().Some?
    ensures StartsWith(ExhaustedMessage(maxRetries, Some(e)), ExhaustedPrefix + IntToString(maxRetries) + ExhaustedMiddle)
    ensures EndsWith(ExhaustedMessage(maxRetries, Some(e)), e.Message().value)
    ensures IsRateLimited(e) ==> IsRateLimited(Error(ExhaustedMessage(maxRetries, Some(e))))
  {
    var m := e.Message().value;
    var head := ExhaustedPrefix + IntToString(maxRetries) + ExhaustedMiddle;
    assert ExhaustedMessage(maxRetries, Some(e)) == head + m;
    if IsRateLimited(e) {
      if Includes(m, "429") {
        IncludesInContext(head, m, "", "429");
        assert head + m + "" == head + m;
      } else {
        IncludesInContext(head, m, "", "RESOURCE_EXHAUSTED");
        assert head + m + "" == head + m;
      }
    }
  }

  // ---------------------------------------------------------------------
  // The prompt

  const PromptIntro :=
    "\nYou are an expert presentation creator. Your task is to analyze the provided text content and data to create a compelling and engaging presentation structure.\n"
    + "The final output MUST be a JSON array of slide objects that strictly adheres to the provided schema.\n\n"
    + "**Content Provided:**\n---\n"

  const ContentClose := "\n---\n"

  const PromptInstructions :=
    "\n\n**Instructions:**\n"
    + "1. Read and understand all the provided text and data.\n"
    + "2. Synthesize the information to create a logical flow for a presentation. The presentation should have a title slide, an introduction, several body slides based on the content, and a conclusion/summary slide.\n"
    + "3. For each slide, provide a concise `title` and detailed `content` points (as an array of strings).\n"
    + "4. For slides discussing the provided spreadsheet data, create a `chart` object. Specify the chart `type` ('bar', 'pie', or 'line'), the `data` for the chart, and a `title` for the chart. The chart data should be an array of objects with `name`, `labels`, and `values` properties, directly derived from the spreadsheet data.\n"
    + "5. If the text contains phrases like \"research more on...\" or \"find information about...\", use your online research capabilities to find relevant, up-to-date information and incorporate it into the slide content. Cite the sources in the `speakerNotes`.\n"
    + "6. Provide concise `speakerNotes` for each slide to guide the presenter.\n"
    + "\nGenerate the JSON output based on this analysis.\n"

  const DataBlockHeader :=
    "\n**Data Provided:**\n---\n"
    + "Here is a summary of the data from the uploaded spreadsheets. Use this to generate data-driven insights and charts.\n"

  const DataBlockClose := "\n---\n"

  /**
   * The data block of the prompt: the serialized sheets framed by a header,
   * or the empty string when there is no sheet. `stringify` stands for
   * `JSON.stringify(xlsxData, null, 2)`.
   */
  function DataSummary(xlsxData: SheetData, stringify: SheetData -> string): string
  {
    if |xlsxData| > 0 then DataBlockHeader + stringify(xlsxData) + DataBlockClose else ""
  }

  /** `generatePrompt`: the instruction string sent to the model. */
  function GeneratePrompt(docxContent: string, xlsxData: SheetData, stringify: SheetData -> string): string
  {
    PromptIntro + docxContent + ContentClose + DataSummary(xlsxData, stringify) + PromptInstructions
  }

  /** The prompt opens with the introduction and the document text, verbatim, and always carries the instructions. */
  lemma PromptEmbedsContent(docxContent: string, xlsxData: SheetData, stringify: SheetData -> string)
    ensures StartsWith(GeneratePrompt(docxContent, xlsxData, stringify), PromptIntro + docxContent)
    ensures Includes(GeneratePrompt(docxContent, xlsxData, stringify), docxContent)
    ensures EndsWith(GeneratePrompt(docxContent, xlsxData, stringify), PromptInstructions)
  {
    var p := GeneratePrompt(docxContent, xlsxData, stringify);
    var rest := ContentClose + DataSummary(xlsxData, stringify) + PromptInstructions;
    assert p == PromptIntro + docxContent + rest;
    IncludesEmbedded(PromptIntro, docxContent, rest);
  }

  /**
   * The data block appears exactly when there is at least one sheet: then
   * the prompt holds the serialized sheets, framed; otherwise the prompt is
   * no longer than the text and the fixed parts, and the serializer is
   * never consulted.
   */
  lemma PromptDataBlockIffSheets(docxContent: string, xlsxData: SheetData, stringify: SheetData -> string,
                                 other: SheetData -> string)
    ensures var fixedLength := |PromptIntro| + |docxContent| + |ContentClose| + |PromptInstructions|;
      |xlsxData| > 0 <==> |GeneratePrompt(docxContent, xlsxData, stringify)| > fixedLength
    ensures |xlsxData| > 0 ==>
      Includes(GeneratePrompt(docxContent, xlsxData, stringify), DataBlockHeader + stringify(xlsxData) + DataBlockClose)
    ensures |xlsxData| == 0 ==>
      GeneratePrompt(docxContent, xlsxData, stringify) == GeneratePrompt(docxContent, xlsxData, other)
  {
    if |xlsxData| > 0 {
      var block := DataBlockHeader + stringify(xlsxData) + DataBlockClose;
      var p := GeneratePrompt(docxContent, xlsxData, stringify);
      assert p == (PromptIntro + docxContent + ContentClose) + block + PromptInstructions;
      IncludesEmbedded(PromptIntro + docxContent + ContentClose, block, PromptInstructions);
    }
  }

  // ---------------------------------------------------------------------
  // The request and the response

  const ModelName := "gemini-2.5-flash"

  /**
   * The message thrown for an unparseable response: "AI failed to generate a
   * valid presentation structure. Please try again.", written as a
   * concatenation of short pieces so that the verifier can tell which
   * characters it contains.
   */
  const ParseFailureMessage := "AI failed " + "to generate " + "a valid " + "presentation " + "structure. " + "Please try " + "again."

  /** The tools the request can enable. */
  datatype Tool = GoogleSearch

  /** The request configuration: a JSON response following the presentation schema, and optionally tools. */
  datatype GenerationConfig = GenerationConfig(responseMimeType: string, responseSchema: Schema, tools: Option<seq<Tool>>)

  /** The configuration of `generatePresentationContent`: the search tool exactly when research was requested. */
  function BuildConfig(researchRequested: bool): (c: GenerationConfig)
    ensures c.tools.Some? <==> researchRequested
    ensures c.tools.Some? ==> c.tools.value == [GoogleSearch]
    ensures c.responseMimeType == "application/json" && c.responseSchema == PresentationSchema
  {
    GenerationConfig("application/json", PresentationSchema, if researchRequested then Some([GoogleSearch]) else None)
  }

  /**
   * The model service: given the model name, the prompt, the configuration
   * and the call number, it returns the response text (None when the
   * response has no text) or throws.
   */
  type ModelService = (string, string, GenerationConfig, nat) -> Result<Option<string>, Thrown>

  /** `JSON.parse` of the trimmed response text, cast to `Slide[]`; None when it throws. */
  type ResponseParser = string -> Option<seq<Slide>>

  /** The action `generatePresentationContent` hands to `withRetry`: its outcome on the i-th call. */
  function Attempt(docxContent: string, xlsxData: SheetData, researchRequested: bool, stringify: SheetData -> string,
                   model: ModelService, parse: ResponseParser): nat -> Result<seq<Slide>, Thrown>
  {
    var prompt := GeneratePrompt(docxContent, xlsxData, stringify);
    var config := BuildConfig(researchRequested);
    (i: nat) =>
      match model(ModelName, prompt, config, i)
      case Err(e) => Err(e)
      case Ok(None) => Err(Error(ParseFailureMessage))
      case Ok(Some(text)) =>
        match parse(text)
        case None => Err(Error(ParseFailureMessage))
        case Some(slides) => Ok(slides)
  }

  /** `generatePresentationContent`: one attempt per call, under the default retry policy. */
  method GeneratePresentationContent(docxContent: string, xlsxData: SheetData, researchRequested: bool,
                                     stringify: SheetData -> string, model: ModelService, parse: ResponseParser,
                                     jitter: nat -> Jitter)
    returns (result: Result<seq<Slide>, Thrown>, calls: nat, delays: seq<nat>)
    ensures RetryRun(result, calls, delays) ==
      Run(Attempt(docxContent, xlsxData, researchRequested, stringify, model, parse), DefaultMaxRetries, jitter)
  {
    result, calls, delays := WithRetry(Attempt(docxContent, xlsxData, researchRequested, stringify, model, parse),
                                       DefaultMaxRetries, jitter);
  }

  /** The parse-failure error is outside the rate-limit classification. */
  lemma ParseFailureNotRateLimited()
    ensures !IsRateLimited(Error(ParseFailureMessage))
  {
    var m := ParseFailureMessage;
    assert '4' !in m && 'R' !in m;
    NoOccurrenceWithoutFirstChar(m, "429");
    NoOccurrenceWithoutFirstChar(m, "RESOURCE_EXHAUSTED");
  }

  /**
   * An unparseable response fails the generation with the parse-failure
   * message at once: one call, no sleep, no retry.
   */
  lemma ParseFailureNotRetried(docxContent: string, xlsxData: SheetData, researchRequested: bool,
                               stringify: SheetData -> string, model: ModelService, parse: ResponseParser,
                               jitter: nat -> Jitter)
    requires var response := model(ModelName, GeneratePrompt(docxContent, xlsxData, stringify), BuildConfig(researchRequested), 0);
      response.Ok? && (response.value.None? || parse(response.value.value).None?)
    ensures Run(Attempt(docxContent, xlsxData, researchRequested, stringify, model, parse), DefaultMaxRetries, jitter)
      == RetryRun(Err(Error(ParseFailureMessage)), 1, [])
  {
    ParseFailureNotRateLimited();
    var fn := Attempt(docxContent, xlsxData, researchRequested, stringify, model, parse);
    assert fn(0) == Err(Error(ParseFailureMessage));
    NonRetryableRethrown(fn, DefaultMaxRetries, jitter, 0);
  }
}
