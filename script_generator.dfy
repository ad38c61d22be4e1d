/**
 * The script generator screen: loading the template and tone catalogues, choosing
 * a template, a tone and an optional prompt, the generation request, the simulated
 * progress bar, the success and failure paths, "Generate Another Version" and the
 * choice of what to render.
 *
 * Timers are events: `Tick` is one firing of a live progress interval (the random
 * increment is its argument), `SettleElapsed` the 500 ms timeout after a success.
 */
module ScriptGenerator {
  import opened Wrappers
  import opened Text
  import opened Models
  import ApiClient

  const ConfigFailed := "Failed to load configuration data. Please try again."
  const GenerationFailed := "Failed to generate content. Please try again."

  // ---------------------------------------------------------------- progress

  /** One firing of the progress interval: a value of 90 or more is kept, anything
      lower grows by the random step. */
  function TickRule(prev: real, step: real): real {
    if prev >= 90.0 then prev else prev + step
  }

  predicate ValidStep(step: real) { 0.0 <= step < 20.0 }

  /** The progress after a sequence of firings. */
  function Ticks(start: real, steps: seq<real>): real
    decreases |steps|
  {
    if steps == [] then start else Ticks(TickRule(start, steps[0]), steps[1..])
  }

  /** One firing never lowers the progress, leaves 90 or more untouched, and keeps a
      value below 110 below 110. */
  lemma TickProperties(prev: real, step: real)
    requires ValidStep(step)
    ensures TickRule(prev, step) >= prev
    ensures prev >= 90.0 ==> TickRule(prev, step) == prev
    ensures prev < 110.0 ==> TickRule(prev, step) < 110.0
  {
  }

  /** Over any run of firings from a value below 110 the progress never decreases and
      stays below 110; once it reaches 90 it is frozen. */
  lemma {:induction false} TicksBounded(start: real, steps: seq<real>)
    requires forall k :: 0 <= k < |steps| ==> ValidStep(steps[k])
    requires start < 110.0
    ensures start <= Ticks(start, steps) < 110.0
    ensures start >= 90.0 ==> Ticks(start, steps) == start
    decreases |steps|
  {
    if steps != [] {
      TickProperties(start, steps[0]);
      TicksBounded(TickRule(start, steps[0]), steps[1..]);
    }
  }

  /** The bar can pass 100 before the answer arrives: five steps of 17 reach 85, and
      one more step of 19 gives 104. */
  lemma ProgressCanPassHundred()
    ensures Ticks(0.0, [17.0, 17.0, 17.0, 17.0, 17.0, 19.0]) == 104.0
  {
    var s := [17.0, 17.0, 17.0, 17.0, 17.0, 19.0];
    assert s[1..] == [17.0, 17.0, 17.0, 17.0, 19.0];
    assert s[1..][1..] == [17.0, 17.0, 17.0, 19.0];
    assert s[1..][1..][1..] == [17.0, 17.0, 19.0];
    assert s[1..][1..][1..][1..] == [17.0, 19.0];
    assert s[1..][1..][1..][1..][1..] == [19.0];
    assert Ticks(85.0, [19.0]) == Ticks(104.0, []);
  }

  // ---------------------------------------------------------------- request

  /** The two selections are made: the early-return test of `generateContent`. */
  predicate SelectionsMade(template: string, tone: string) {
    template != "" && tone != ""
  }

  /** The generate button is disabled without both selections or while generating. */
  predicate GenerateDisabled(template: string, tone: string, generating: bool) {
    template == "" || tone == "" || generating
  }

  /** An enabled button always passes the early-return test. */
  lemma EnabledButtonPassesGate(template: string, tone: string, generating: bool)
    ensures !GenerateDisabled(template, tone, generating) ==> SelectionsMade(template, tone)
    ensures !GenerateDisabled(template, tone, generating) <==> SelectionsMade(template, tone) && !generating
  {
  }

  /** The body of the generation request; `now` is `Date.now()`. */
  function RequestFor(trend: Trend, template: string, tone: string, prompt: string, now: int)
    : (r: ContentGenerationRequest)
    ensures r.trendId == trend.id && r.templateId == template && r.tone == tone
    ensures r.customPrompt.None? <==> JsTrim(prompt) == ""
    ensures r.customPrompt.Some? ==> r.customPrompt.value == JsTrim(prompt) && r.customPrompt.value != ""
    ensures r.sessionId.Some? && StartsWith(r.sessionId.value, "script_gen_")
  {
    var session := "script_gen_" + IntToString(now);
    assert session[..|"script_gen_"|] == "script_gen_";
    ContentGenerationRequest(trend.id, template, tone,
      if JsTrim(prompt) != "" then Some(JsTrim(prompt)) else None, Some(session))
  }

  /** `err.message || default`. */
  function FailureMessage(message: string): (m: string)
    ensures m != ""
    ensures message != "" ==> m == message
  {
    if message != "" then message else GenerationFailed
  }

  // ---------------------------------------------------------------- screen

  /** The 500 ms timeout armed by a successful answer, holding the answer's `data`. */
  datatype Settle = NoSettle | SettleWith(data: Option<ApiClient.Generated>)

  datatype GeneratorView =
    | LoadingConfig
    | FullError(message: string)
    | ResultView(content: GeneratedContent)
    | Form(generating: bool, progress: real, inlineError: Option<string>, generateEnabled: bool)

  class Generator {
    const trend: Trend
    var contentTemplates: seq<ContentTemplate>
    var toneOptions: seq<ToneOption>
    var selectedTemplate: string
    var selectedTone: string
    var customPrompt: string
    var isGenerating: bool
    var generatedContent: Option<GeneratedContent>
    var progress: real
    var error: Option<string>
    var loadingData: bool
    /** Progress intervals still firing; a failed generation never clears its own. */
    var intervals: nat
    var settle: Settle

    /** An error, when set, is a non-empty message, so it is always truthy. */
    predicate Valid()
      reads this
    {
      error.None? || error.value != ""
    }

    constructor (trend: Trend)
      ensures this.trend == trend
      ensures contentTemplates == [] && toneOptions == []
      ensures selectedTemplate == "" && selectedTone == "" && customPrompt == ""
      ensures !isGenerating && generatedContent == None && progress == 0.0
      ensures error == None && loadingData && intervals == 0 && settle == NoSettle
      ensures Valid()
    {
      this.trend := trend;
      contentTemplates := [];
      toneOptions := [];
      selectedTemplate := "";
      selectedTone := "";
      customPrompt := "";
      isGenerating := false;
      generatedContent := None;
      progress := 0.0;
      error := None;
      loadingData := true;
      intervals := 0;
      settle := NoSettle;
    }

    /** The first half of `loadInitialData` (on mount and from "Try Again"). */
    method BeginLoadConfig()
      modifies this
      ensures loadingData && error == None
      ensures contentTemplates == old(contentTemplates) && toneOptions == old(toneOptions)
      ensures selectedTemplate == old(selectedTemplate) && selectedTone == old(selectedTone)
      ensures customPrompt == old(customPrompt) && isGenerating == old(isGenerating)
      ensures generatedContent == old(generatedContent) && progress == old(progress)
      ensures intervals == old(intervals) && settle == old(settle)
      ensures Valid()
    {
      loadingData := true;
      error := None;
    }

    /** Both catalogues answered (`Promise.all`): both lists are set, or, when either
        request failed, the fixed message is set and the lists are kept. */
    method CompleteLoadConfig(templates: Result<seq<ContentTemplate>>, tones: Result<seq<ToneOption>>)
      modifies this
      ensures templates.Ok? && tones.Ok? ==>
                contentTemplates == templates.value && toneOptions == tones.value && error == old(error)
      ensures !(templates.Ok? && tones.Ok?) ==>
                contentTemplates == old(contentTemplates) && toneOptions == old(toneOptions)
                && error == Some(ConfigFailed)
      ensures !loadingData
      ensures selectedTemplate == old(selectedTemplate) && selectedTone == old(selectedTone)
      ensures customPrompt == old(customPrompt) && isGenerating == old(isGenerating)
      ensures generatedContent == old(generatedContent) && progress == old(progress)
      ensures intervals == old(intervals) && settle == old(settle)
      ensures old(Valid()) ==> Valid()
    {
      if templates.Ok? && tones.Ok? {
        contentTemplates := templates.value;
        toneOptions := tones.value;
      } else {
        error := Some(ConfigFailed);
      }
      loadingData := false;
    }

    method SelectTemplate(id: string)
      modifies this
      ensures selectedTemplate == id
      ensures selectedTone == old(selectedTone) && customPrompt == old(customPrompt)
      ensures isGenerating == old(isGenerating) && generatedContent == old(generatedContent)
      ensures error == old(error) && progress == old(progress) && loadingData == old(loadingData)
      ensures intervals == old(intervals) && settle == old(settle)
      ensures contentTemplates == old(contentTemplates) && toneOptions == old(toneOptions)
    {
      selectedTemplate := id;
    }

    method SelectTone(id: string)
      modifies this
      ensures selectedTone == id
      ensures selectedTemplate == old(selectedTemplate) && customPrompt == old(customPrompt)
      ensures isGenerating == old(isGenerating) && generatedContent == old(generatedContent)
      ensures error == old(error) && progress == old(progress) && loadingData == old(loadingData)
      ensures intervals == old(intervals) && settle == old(settle)
      ensures contentTemplates == old(contentTemplates) && toneOptions == old(toneOptions)
    {
      selectedTone := id;
    }

    method SetCustomPrompt(s: string)
      modifies this
      ensures customPrompt == s
      ensures selectedTemplate == old(selectedTemplate) && selectedTone == old(selectedTone)
      ensures isGenerating == old(isGenerating) && generatedContent == old(generatedContent)
      ensures error == old(error) && progress == old(progress) && loadingData == old(loadingData)
      ensures intervals == old(intervals) && settle == old(settle)
      ensures contentTemplates == old(contentTemplates) && toneOptions == old(toneOptions)
    {
      customPrompt := s;
    }

    /** `generateContent` up to the request: without both selections nothing happens;
        otherwise generation starts at 0 with the error cleared, one more interval
        fires, and the request is issued. */
    method GenerateClicked(now: int) returns (request: Option<ContentGenerationRequest>)
      modifies this
      ensures !SelectionsMade(old(selectedTemplate), old(selectedTone)) ==>
                request == None && isGenerating == old(isGenerating) && progress == old(progress)
                && error == old(error) && intervals == old(intervals)
      ensures SelectionsMade(old(selectedTemplate), old(selectedTone)) ==>
                request == Some(RequestFor(trend, selectedTemplate, selectedTone, customPrompt, now))
                && isGenerating && progress == 0.0 && error == None && intervals == old(intervals) + 1
      ensures selectedTemplate == old(selectedTemplate) && selectedTone == old(selectedTone)
      ensures customPrompt == old(customPrompt) && generatedContent == old(generatedContent)
      ensures loadingData == old(loadingData) && settle == old(settle)
      ensures contentTemplates == old(contentTemplates) && toneOptions == old(toneOptions)
      ensures old(Valid()) ==> Valid()
    {
      if selectedTemplate == "" || selectedTone == "" {
        return None;
      }
      isGenerating := true;
      progress := 0.0;
      error := None;
      intervals := intervals + 1;
      request := Some(RequestFor(trend, selectedTemplate, selectedTone, customPrompt, now));
    }

    /** One firing of a live progress interval. */
    method Tick(step: real)
      requires intervals > 0 && ValidStep(step)
      modifies this
      ensures progress == TickRule(old(progress), step)
      ensures old(progress) <= progress
      ensures old(progress) < 110.0 ==> progress < 110.0
      ensures isGenerating == old(isGenerating) && error == old(error) && intervals == old(intervals)
      ensures generatedContent == old(generatedContent) && settle == old(settle)
      ensures selectedTemplate == old(selectedTemplate) && selectedTone == old(selectedTone)
      ensures customPrompt == old(customPrompt) && loadingData == old(loadingData)
      ensures contentTemplates == old(contentTemplates) && toneOptions == old(toneOptions)
    {
      TickProperties(progress, step);
      if progress < 90.0 {
        progress := progress + step;
      }
    }

    /** The answer to the generation request. A success clears this call's interval,
        shows 100 and arms the settle timeout; a failure shows the message (or the
        default), stops generating and resets the bar, and leaves the interval firing. */
    method CompleteGeneration(outcome: Result<Option<ApiClient.Generated>>)
      modifies this
      ensures outcome.Ok? ==>
                progress == 100.0 && settle == SettleWith(outcome.value)
                && intervals == (if old(intervals) > 0 then old(intervals) - 1 else 0)
                && isGenerating == old(isGenerating) && error == old(error)
      ensures outcome.Err? ==>
                error == Some(FailureMessage(outcome.message)) && !isGenerating && progress == 0.0
                && intervals == old(intervals) && settle == old(settle)
      ensures generatedContent == old(generatedContent)
      ensures selectedTemplate == old(selectedTemplate) && selectedTone == old(selectedTone)
      ensures customPrompt == old(customPrompt) && loadingData == old(loadingData)
      ensures contentTemplates == old(contentTemplates) && toneOptions == old(toneOptions)
      ensures old(Valid()) ==> Valid()
    {
      if outcome.Ok? {
        if intervals > 0 {
          intervals := intervals - 1;
        }
        progress := 100.0;
        settle := SettleWith(outcome.value);
      } else {
        error := Some(FailureMessage(outcome.message));
        isGenerating := false;
        progress := 0.0;
      }
    }

    /** The settle timeout fires: the content is stored and generation ends. When the
        answer's `data` was null, reading `content` throws inside the timeout and
        nothing else changes, so the screen stays generating. */
    method SettleElapsed()
      requires settle.SettleWith?
      modifies this
      ensures settle == NoSettle
      ensures old(settle).data.Some? ==>
                generatedContent == Some(old(settle).data.value.content) && !isGenerating
      ensures old(settle).data.None? ==>
                generatedContent == old(generatedContent) && isGenerating == old(isGenerating)
      ensures progress == old(progress) && error == old(error) && intervals == old(intervals)
      ensures selectedTemplate == old(selectedTemplate) && selectedTone == old(selectedTone)
      ensures customPrompt == old(customPrompt) && loadingData == old(loadingData)
      ensures contentTemplates == old(contentTemplates) && toneOptions == old(toneOptions)
    {
      var data := settle.data;
      settle := NoSettle;
      if data.Some? {
        generatedContent := Some(data.value.content);
        isGenerating := false;
      }
    }

    /** "Generate Another Version": back to an empty form. */
    method AnotherVersion()
      modifies this
      ensures generatedContent == None
      ensures selectedTemplate == "" && selectedTone == "" && customPrompt == ""
      ensures isGenerating == old(isGenerating) && progress == old(progress) && error == old(error)
      ensures loadingData == old(loadingData) && intervals == old(intervals) && settle == old(settle)
      ensures contentTemplates == old(contentTemplates) && toneOptions == old(toneOptions)
      ensures GenerateDisabled(selectedTemplate, selectedTone, isGenerating)
    {
      generatedContent := None;
      selectedTemplate := "";
      selectedTone := "";
      customPrompt := "";
    }

    /** What the screen renders, by precedence: the loading card, the full-page error
        when an error is set and there is no content, the result, the form. */
    function View(): (v: GeneratorView)
      reads this
      ensures v.LoadingConfig? <==> loadingData
      ensures v.FullError? <==> !loadingData && error.Some? && generatedContent.None?
      ensures v.FullError? ==> v.message == error.value
      ensures Valid() && v.FullError? ==> v.message != ""
      ensures v.ResultView? <==> !loadingData && generatedContent.Some?
      ensures v.ResultView? ==> v.content == generatedContent.value
      ensures v.Form? ==> v.inlineError == error && v.generating == isGenerating && v.progress == progress
      ensures v.Form? ==> (v.generateEnabled <==> !GenerateDisabled(selectedTemplate, selectedTone, isGenerating))
    {
      if loadingData then LoadingConfig
      else if error.Some? && generatedContent.None? then FullError(error.value)
      else if generatedContent.Some? then ResultView(generatedContent.value)
      else Form(isGenerating, progress, error,
                !GenerateDisabled(selectedTemplate, selectedTone, isGenerating))
    }
  }

  /** The form is shown only when no error is set, so its inline error block can never
      appear: every error lands on the full-page error view. */
  lemma InlineErrorUnreachable(g: Generator)
    ensures g.View().Form? ==> g.View().inlineError == None
  {
  }

  /** A failed generation after a successful configuration load shows the full-page
      error with the server's message, and its progress interval is still firing. */
  method FailedGenerationShowsFullError(trend: Trend, templates: seq<ContentTemplate>,
                                        tones: seq<ToneOption>, message: string)
    returns (v: GeneratorView, live: nat)
    requires message != ""
    ensures v == FullError(message)
    ensures live == 1
  {
    var g := new Generator(trend);
    g.CompleteLoadConfig(Ok(templates), Ok(tones));
    g.SelectTemplate("youtube-explainer");
    g.SelectTone("professional");
    var request := g.GenerateClicked(0);
    g.CompleteGeneration(Err(message));
    v := g.View();
    live := g.intervals;
  }
}
