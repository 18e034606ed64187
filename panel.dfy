/** The side panel's controller (content.js): the API key the content
    script holds, the template fetched by the last successful analysis, the
    Generate button's enabled flag, the status line, and every request the
    panel hands to the page's Slides client or to the completion endpoint. */
module Panel {
  import opened Wrappers
  import JsText
  import Slides
  import Plan
  import Reply
  import PresentationId

  /** The status line's class: `status`, `status info`, `status success`, `status error`. */
  datatype StatusClass = Plain | Info | Succeeded | Failed

  /** What the status line shows; `Class` and `Text` give the source's words. */
  datatype Status =
    | Empty
    | Analyzing
    | TemplateAnalyzed(slideCount: nat)
    | Generating
    | Applying
    | SlidesGenerated
    | ErrorShown(message: string)
  {
    function Class(): StatusClass {
      match this
      case Empty => Plain
      case Analyzing | Generating | Applying => Info
      case TemplateAnalyzed(_) | SlidesGenerated => Succeeded
      case ErrorShown(_) => Failed
    }

    function Text(): string {
      match this
      case Empty => ""
      case Analyzing => "Analyzing template..."
      case TemplateAnalyzed(n) => AnalyzedPrefix + JsText.DecimalString(n) + AnalyzedSuffix
      case Generating => "Generating slides with AI..."
      case Applying => "Applying to slides..."
      case SlidesGenerated => "\U{2713} Slides generated successfully! Refresh the page to see changes."
      case ErrorShown(message) => "Error: " + message
    }
  }

  /** The words around the slide count in the status after an analysis. */
  const AnalyzedPrefix: string := "\U{2713} Template analyzed: "
  const AnalyzedSuffix: string := " slides found"

  /** The status after an analysis is a success line whose words enclose
      the decimal text of the slide count, and that text reads back as the
      count. */
  lemma AnalyzedStatusReportsCount(n: nat)
    ensures TemplateAnalyzed(n).Class() == Succeeded
    ensures var t := TemplateAnalyzed(n).Text();
      |AnalyzedPrefix| + |AnalyzedSuffix| < |t| &&
      t[..|AnalyzedPrefix|] == AnalyzedPrefix && t[|t| - |AnalyzedSuffix|..] == AnalyzedSuffix &&
      var digits := t[|AnalyzedPrefix|..|t| - |AnalyzedSuffix|];
      (forall k :: 0 <= k < |digits| ==> '0' <= digits[k] <= '9') && JsText.DecimalValue(digits) == n
  {
    var d := JsText.DecimalString(n);
    var t := TemplateAnalyzed(n).Text();
    assert t == AnalyzedPrefix + d + AnalyzedSuffix;
    assert t[..|AnalyzedPrefix|] == AnalyzedPrefix;
    assert t[|t| - |AnalyzedSuffix|..] == AnalyzedSuffix;
    assert t[|AnalyzedPrefix|..|t| - |AnalyzedSuffix|] == d;
    JsText.DecimalRoundTrip(n);
  }

  /** The blocking prompts of `generateSlides`. */
  datatype Alert = EnterContent | SetApiKey {
    function Text(): string {
      match this
      case EnterContent => "Please enter your assignment content"
      case SetApiKey => "Please set your API key in the extension popup"
    }
  }

  /** The three option checkboxes; they are only echoed into the prompt. */
  datatype MappingOptions = MappingOptions(autoFormat: bool, preserveStyle: bool, smartMapping: bool)

  /** What one completion request is made of: the bearer token, and the
      template summary, assignment content and options the prompt embeds. */
  datatype CompletionRequest = CompletionRequest(
    apiKey: string, structure: seq<Slides.SlideSummary>, content: string, options: MappingOptions)

  /** A request leaving the panel. */
  datatype Outbound =
    | GetPresentation(presentationId: string)
    | Completion(request: CompletionRequest)
    | BatchUpdate(presentationId: string, requests: seq<Plan.Request>)

  /** The answers of the parties the panel talks to: the page's
      `presentations.get` and `presentations.batchUpdate` (failures carry the
      client's error message), the completion endpoint (the reply text, or
      the message of whatever failed on the way to
      `choices[0].message.content`), and `JSON.parse`. */
  datatype Host = Host(
    get: string -> Result<Slides.Presentation, string>,
    complete: CompletionRequest -> Result<string, string>,
    parse: string -> Result<Plan.UpdatePlan, string>,
    batchUpdate: (string, seq<Plan.Request>) -> Result<(), string>)

  const NoIdMessage: string := "Could not detect presentation ID"

  /** `!apiKey` is false: the key is neither `null`/`undefined` nor `''`. */
  predicate KeySet(apiKey: Option<string>) {
    apiKey.Some? && apiKey.value != ""
  }

  /** `!content.trim()` */
  predicate Blank(content: string) {
    JsText.Trim(content) == ""
  }

  /** The id as it is spliced into the injected script: `null` prints as `null`. */
  function IdText(url: string): string {
    var id := PresentationId.ExtractPresentationId(url);
    if id.Some? then id.value else "null"
  }

  /** An analysis on this page succeeds: an id is found and fetched. */
  predicate AnalyzeSucceeds(url: string, host: Host) {
    var id := PresentationId.ExtractPresentationId(url);
    id.Some? && host.get(id.value).Success?
  }

  /** The plan a generation yields once its guards have passed: the reply of
      the completion endpoint, through the span extractor and `JSON.parse`. */
  function PlanFor(request: CompletionRequest, host: Host): Result<Plan.UpdatePlan, string> {
    match host.complete(request)
    case Failure(e) => Failure(e)
    case Success(reply) => Reply.ParseReply(reply, host.parse)
  }

  /** The requests sent, on top of `before`, and the status left by a
      generation that passed its guards: one completion request, then, when
      a plan came back, one batch of that plan's requests; the status
      reports the first failure or the success. */
  function Generated(before: seq<Outbound>, request: CompletionRequest, url: string, host: Host): (seq<Outbound>, Status) {
    match PlanFor(request, host)
    case Failure(e) => (before + [Completion(request)], ErrorShown(e))
    case Success(plan) =>
      var requests := Plan.PlanRequests(plan);
      var sent := before + [Completion(request), BatchUpdate(IdText(url), requests)];
      match host.batchUpdate(IdText(url), requests)
      case Failure(e) => (sent, ErrorShown(e))
      case Success(_) => (sent, SlidesGenerated)
  }

  class ContentScript {
    /** The content script's `apiKey` global. */
    var apiKey: Option<string>
    /** `window.templateData`: the presentation fetched by the last analysis. */
    var templateData: Option<Slides.Presentation>
    /** `!generateBtn.disabled` */
    var generateEnabled: bool
    var status: Status
    /** Every request handed to the page's client or the completion endpoint, in order. */
    var sent: seq<Outbound>

    /** Generate is enabled only after an analysis stored a template. */
    ghost predicate Valid()
      reads this
    {
      generateEnabled ==> templateData.Some?
    }

    /** The content script is loaded: `sidePanel` and `apiKey` are `null`. */
    constructor ()
      ensures Valid()
      ensures apiKey == None && templateData == None && !generateEnabled
      ensures status == Empty && sent == []
    {
      apiKey := None;
      templateData := None;
      generateEnabled := false;
      status := Empty;
      sent := [];
    }

    /** The key read from storage at load time, or sent by the popup with the
      `updateApiKey` message. */
    method UpdateApiKey(key: Option<string>)
      requires Valid()
      modifies this
      ensures Valid()
      ensures apiKey == key
      ensures templateData == old(templateData) && generateEnabled == old(generateEnabled)
      ensures status == old(status) && sent == old(sent)
    {
      apiKey := key;
    }

    /** `openSidePanel`: a fresh panel, whose Generate button starts disabled. */
    method OpenSidePanel()
      requires Valid()
      modifies this
      ensures Valid()
      ensures !generateEnabled && status == Empty
      ensures apiKey == old(apiKey) && templateData == old(templateData) && sent == old(sent)
    {
      generateEnabled := false;
      status := Empty;
    }

    /** `analyzeTemplate`, with the page at `url`. */
    method AnalyzeTemplate(url: string, host: Host)
      requires Valid()
      modifies this
      ensures Valid()
      ensures apiKey == old(apiKey)
      ensures generateEnabled == (old(generateEnabled) || AnalyzeSucceeds(url, host))
      ensures !AnalyzeSucceeds(url, host) ==> templateData == old(templateData)
      ensures status.Class() == (if AnalyzeSucceeds(url, host) then Succeeded else Failed)
      ensures var id := PresentationId.ExtractPresentationId(url);
        if id.None? then
          sent == old(sent) && status == ErrorShown(NoIdMessage)
        else
          sent == old(sent) + [GetPresentation(id.value)] &&
          match host.get(id.value)
          case Failure(e) => status == ErrorShown(e)
          case Success(p) => templateData == Some(p) && status == TemplateAnalyzed(|p.slides|)
    {
      status := Analyzing;
      var presentationId := PresentationId.ExtractPresentationId(url);
      if presentationId.None? {
        status := ErrorShown(NoIdMessage);
        return;
      }
      sent := sent + [GetPresentation(presentationId.value)];
      var templateResult := host.get(presentationId.value);
      match templateResult {
        case Failure(e) =>
          status := ErrorShown(e);
        case Success(p) =>
          templateData := Some(p);
          generateEnabled := true;
          status := TemplateAnalyzed(|p.slides|);
      }
    }

    /** `generateSlides`, clicked with `content` in the text area and
      `options` ticked, on the page at `url`. A click on the disabled button
      never reaches the handler. `alert` is the blocking prompt shown, if any. */
    method GenerateSlides(content: string, options: MappingOptions, url: string, host: Host) returns (alert: Option<Alert>)
      requires Valid()
      modifies this
      ensures Valid()
      ensures apiKey == old(apiKey) && templateData == old(templateData) && generateEnabled == old(generateEnabled)
      ensures !generateEnabled ==> alert == None && status == old(status) && sent == old(sent)
      ensures generateEnabled && Blank(content) ==>
        alert == Some(EnterContent) && status == old(status) && sent == old(sent)
      ensures generateEnabled && !Blank(content) && !KeySet(apiKey) ==>
        alert == Some(SetApiKey) && status == old(status) && sent == old(sent)
      ensures generateEnabled && !Blank(content) && KeySet(apiKey) ==>
        var request := CompletionRequest(apiKey.value, Slides.TemplateSummary(templateData.value), content, options);
        alert == None && (sent, status) == Generated(old(sent), request, url, host)
    {
      if !generateEnabled {
        alert := None;
      } else if Blank(content) {
        alert := Some(EnterContent);
      } else if !KeySet(apiKey) {
        alert := Some(SetApiKey);
      } else {
        alert := None;
        status := Generating;
        MapAndApply(content, options, url, host);
      }
    }

    /** `analyzeContentWithAI` followed by `applyUpdatesToSlides`, errors
      caught at the end of `generateSlides`. */
    method MapAndApply(content: string, options: MappingOptions, url: string, host: Host)
      requires Valid() && templateData.Some? && KeySet(apiKey)
      modifies this`status, this`sent
      ensures (sent, status) ==
        Generated(old(sent), CompletionRequest(apiKey.value, Slides.TemplateSummary(templateData.value), content, options), url, host)
    {
      // analyzeContentWithAI
      var structure := Slides.SummariseTemplate(templateData.value);
      var request := CompletionRequest(apiKey.value, structure, content, options);
      sent := sent + [Completion(request)];
      var reply := host.complete(request);
      if reply.Failure? {
        status := ErrorShown(reply.error);
        return;
      }
      var plan := Reply.ParseReply(reply.value, host.parse);
      if plan.Failure? {
        status := ErrorShown(plan.error);
        return;
      }
      status := Applying;

      // applyUpdatesToSlides
      var presentationId := PresentationId.ExtractPresentationId(url);
      var requests := Plan.BuildRequests(plan.value);
      var idText := if presentationId.Some? then presentationId.value else "null";
      sent := sent + [BatchUpdate(idText, requests)];
      assert sent == old(sent) + [Completion(request), BatchUpdate(idText, requests)];
      var done := host.batchUpdate(idText, requests);
      if done.Failure? {
        status := ErrorShown(done.error);
        return;
      }
      status := SlidesGenerated;
    }
  }

  /** The one-slide template of the session below: element `e1`, empty. */
  function SessionTemplate(): Slides.Presentation {
    Slides.Presentation([Slides.Page(Some([Slides.PageElement("e1", Some(Slides.Shape(Some(Slides.TextContent([])))))]))])
  }

  /** The plan the model's reply in the session below denotes. */
  function SessionPlan(): Plan.UpdatePlan {
    Plan.UpdatePlan([Plan.SlideUpdate(1, [Plan.Update("e1", "Growth: 15%")])])
  }

  /** The model's JSON object. The outer braces are separate literals so that
      the verifier sees the first and last characters without indexing into
      one long literal. */
  const SessionJson: string := "{" + "\"slides\":[{\"slideNumber\":1,\"updates\":[{\"objectId\":\"e1\",\"text\":\"Growth: 15%\"}]}]" + "}"

  /** The plan of the session is applied as one delete-then-insert pair. */
  lemma SessionBatch()
    ensures Plan.PlanRequests(SessionPlan()) == [Plan.DeleteText("e1", Plan.All), Plan.InsertText("e1", "Growth: 15%", 0)]
  {
    assert Plan.AllUpdates(SessionPlan().slides) == [Plan.Update("e1", "Growth: 15%")];
  }

  /** A reply with prose before the object yields the object. */
  lemma SessionReply(parse: string -> Result<Plan.UpdatePlan, string>)
    requires parse(SessionJson) == Success(SessionPlan())
    ensures Reply.ParseReply("Here you go: " + SessionJson, parse) == Success(SessionPlan())
  {
    var json := SessionJson;
    assert json[0] == '{' && json[|json| - 1] == '}';
    Reply.SurroundingProseIgnored("Here you go: ", json, "");
    assert "Here you go: " + json + "" == "Here you go: " + json;
  }

  /** When the model answers with prose around the session's plan and the
      batch is accepted, a generation sends the completion request and then
      one batch with the delete-then-insert pair for `e1`. */
  lemma SessionGenerates(before: seq<Outbound>, request: CompletionRequest, url: string, host: Host)
    requires host.complete(request) == Success("Here you go: " + SessionJson)
    requires host.parse(SessionJson) == Success(SessionPlan())
    requires host.batchUpdate(IdText(url), [Plan.DeleteText("e1", Plan.All), Plan.InsertText("e1", "Growth: 15%", 0)]) == Success(())
    ensures Generated(before, request, url, host) ==
      (before + [Completion(request), BatchUpdate(IdText(url), [Plan.DeleteText("e1", Plan.All), Plan.InsertText("e1", "Growth: 15%", 0)])], SlidesGenerated)
  {
    SessionReply(host.parse);
    assert PlanFor(request, host) == Success(SessionPlan());
    SessionBatch();
  }

  /** A session on a presentation page: Generate does nothing before an
    analysis; after one, an assignment mapped onto the one-element template
    sends a delete-then-insert pair for that element. */
  method Session(url: string, key: string, content: string)
    requires PresentationId.ExtractPresentationId(url).Some?
    requires key != "" && !Blank(content)
  {
    var host := Host(
      _ => Success(SessionTemplate()),
      _ => Success("Here you go: " + SessionJson),
      text => if text == SessionJson then Success(SessionPlan()) else Failure("Unexpected token"),
      (_, _) => Success(()));
    var options := MappingOptions(true, true, true);

    var panel := new ContentScript();
    panel.UpdateApiKey(Some(key));
    panel.OpenSidePanel();
    var alert := panel.GenerateSlides(content, options, url, host);
    assert alert == None && panel.sent == [];

    panel.AnalyzeTemplate(url, host);
    assert panel.generateEnabled && panel.templateData == Some(SessionTemplate());

    var request := CompletionRequest(key, Slides.TemplateSummary(SessionTemplate()), content, options);
    SessionGenerates(panel.sent, request, url, host);
    alert := panel.GenerateSlides(content, options, url, host);
    assert alert == None;
    assert panel.sent[|panel.sent| - 1] == BatchUpdate(IdText(url), [Plan.DeleteText("e1", Plan.All), Plan.InsertText("e1", "Growth: 15%", 0)]);
    assert panel.status == SlidesGenerated;
  }
}
