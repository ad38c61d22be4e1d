/**
 * Post-processing of the AI service's generation call: the session id, the
 * extraction of a JSON payload from the model's reply, the defaults applied to a
 * parsed payload and the fallback script used whenever the reply cannot be used.
 *
 * `json.loads` together with the shape checks of the record types is the parameter
 * `parse`: `None` stands for a decode error or a payload of the wrong shape.
 */
module AiService {
  import opened Wrappers
  import opened Text
  import opened Models

  /** `request.session_id or f"content_gen_{trend.id}_{template_id}"`. */
  function SessionId(request: ContentGenerationRequest, trend: Trend): (id: string)
    ensures request.sessionId.Some? && request.sessionId.value != "" ==> id == request.sessionId.value
    ensures request.sessionId.None? || request.sessionId.value == "" ==>
              id == "content_gen_" + trend.id + "_" + request.templateId
  {
    match request.sessionId
    case Some(s) => if s != "" then s else "content_gen_" + trend.id + "_" + request.templateId
    case None => "content_gen_" + trend.id + "_" + request.templateId
  }

  // ---------------------------------------------------------------- payload extraction

  const Fence: string := "```json"
  const FenceEnd: string := "```"

  /** The payload of an already stripped reply: after the first "```json" up to the
      next "```" (by `find`, so a missing closing fence gives the end index -1 and the
      slice loses the last character), stripped; else the whole text when it starts
      with "{"; else none. */
  function PayloadOf(text: string): (r: Option<string>)
    ensures r.None? <==> !Contains(text, Fence) && !StartsWith(text, "{")
    ensures !Contains(text, Fence) && StartsWith(text, "{") ==> r == Some(text)
  {
    if Contains(text, Fence) then
      ContainsIffFound(text, Fence);
      var start := Find(text, Fence, 0) + |Fence|;
      Some(PyStrip(PySlice(text, start, Find(text, FenceEnd, start))))
    else if StartsWith(text, "{") then Some(text)
    else None
  }

  /** The payload of a reply, whose surrounding whitespace is stripped first. */
  function ExtractPayload(reply: string): Option<string> {
    PayloadOf(PyStrip(reply))
  }

  predicate NoBacktick(s: string) {
    forall k :: 0 <= k < |s| ==> s[k] != '`'
  }

  /** In a text whose prefix has no backtick, the first occurrence of a pattern that
      starts with a backtick and occurs right after the prefix is right after the prefix. */
  lemma FindAfter(text: string, from: nat, gap: string, pat: string)
    requires from + |gap| <= |text| && text[from..][..|gap|] == gap && NoBacktick(gap)
    requires pat != [] && pat[0] == '`'
    requires StartsWith(text[from + |gap|..], pat)
    ensures Find(text, pat, from) == from + |gap|
  {
    forall k | from <= k < from + |gap| ensures text[k] != '`' {
      assert text[k] == text[from..][..|gap|][k - from];
    }
  }

  /** A closed fence yields exactly the stripped text between the fences, when no
      backtick precedes the fence or occurs before the closing one. */
  lemma ClosedFencePayload(pre: string, body: string, post: string)
    requires NoBacktick(pre) && NoBacktick(body)
    ensures PayloadOf(pre + Fence + body + FenceEnd + post) == Some(PyStrip(body))
  {
    var text := pre + Fence + body + FenceEnd + post;
    assert text[0..][..|pre|] == pre;
    assert text[|pre|..][..|Fence|] == Fence;
    FindAfter(text, 0, pre, Fence);
    assert Contains(text, Fence) by {
      assert StartsWith(text[|pre|..], Fence);
    }
    var start := |pre| + |Fence|;
    assert text[start..][..|body|] == body;
    assert text[start + |body|..][..|FenceEnd|] == FenceEnd;
    FindAfter(text, start, body, FenceEnd);
    assert PySlice(text, start, start + |body|) == body;
  }

  /** Without a closing fence `find` gives -1 and the payload loses its last character. */
  lemma UnclosedFencePayload(pre: string, body: string)
    requires NoBacktick(pre) && NoBacktick(body) && body != []
    ensures PayloadOf(pre + Fence + body) == Some(PyStrip(body[..|body| - 1]))
  {
    var text := pre + Fence + body;
    assert text[0..][..|pre|] == pre;
    assert text[|pre|..][..|Fence|] == Fence;
    FindAfter(text, 0, pre, Fence);
    assert Contains(text, Fence) by {
      assert StartsWith(text[|pre|..], Fence);
    }
    var start := |pre| + |Fence|;
    assert PySlice(text, start, -1) == body[..|body| - 1];
  }

  // ---------------------------------------------------------------- parsed payload

  /** One outline item of a decoded payload; every key may be missing. */
  datatype ParsedSection = ParsedSection(section: Option<string>, duration: Option<string>,
                                         content: Option<seq<string>>)

  /** A decoded payload; every key may be missing. */
  datatype ParsedReply = ParsedReply(
    title: Option<string>, hook: Option<string>, outline: Option<seq<ParsedSection>>,
    keyPoints: Option<seq<string>>, seoKeywords: Option<seq<string>>,
    hashtags: Option<seq<string>>, estimatedViews: Option<string>, difficulty: Option<string>)

  /** An outline item with its defaults applied. */
  function SectionOf(p: ParsedSection): (s: ContentSection)
    ensures s.section == p.section.GetOr("") && s.duration == p.duration.GetOr("")
    ensures s.content == p.content.GetOr([])
  {
    ContentSection(p.section.GetOr(""), p.duration.GetOr(""), p.content.GetOr([]))
  }

  /** The outline with its defaults applied, item by item. */
  function SectionsOf(items: seq<ParsedSection>): (r: seq<ContentSection>)
    ensures |r| == |items|
    ensures forall i :: 0 <= i < |items| ==> r[i] == SectionOf(items[i])
  {
    if items == [] then [] else SectionsOf(items[..|items| - 1]) + [SectionOf(items[|items| - 1])]
  }

  /** The values the backend draws from uuid4 and the clock for a stored script. */
  datatype Stamp = Stamp(id: string, createdAt: int)

  /** The script of a decoded payload, with every missing field defaulted. */
  function ContentOf(p: ParsedReply, trend: Trend, request: ContentGenerationRequest,
                     userId: string, sessionId: string, st: Stamp): (c: GeneratedContent)
    ensures c.title == p.title.GetOr("Generated Content") && c.hook == p.hook.GetOr("")
    ensures c.estimatedViews == p.estimatedViews.GetOr("1K - 5K")
    ensures c.difficulty == p.difficulty.GetOr("Intermediate")
    ensures c.keyPoints == p.keyPoints.GetOr([]) && c.seoKeywords == p.seoKeywords.GetOr([])
    ensures c.hashtags == p.hashtags.GetOr([])
    ensures |c.outline| == |p.outline.GetOr([])|
    ensures forall i :: 0 <= i < |c.outline| ==> c.outline[i] == SectionOf(p.outline.GetOr([])[i])
  {
    GeneratedContent(st.id, userId, sessionId, trend.id, request.templateId, request.tone,
                     request.customPrompt, p.title.GetOr("Generated Content"), p.hook.GetOr(""),
                     SectionsOf(p.outline.GetOr([])), p.keyPoints.GetOr([]),
                     p.seoKeywords.GetOr([]), p.hashtags.GetOr([]),
                     p.estimatedViews.GetOr("1K - 5K"), p.difficulty.GetOr("Intermediate"),
                     st.createdAt)
  }

  // ---------------------------------------------------------------- fallback

  function FallbackOutline(topic: string): (o: seq<ContentSection>)
    ensures |o| == 3
    ensures forall i :: 0 <= i < 3 ==> |o[i].content| == 3
  {
    [ ContentSection("Introduction", "0:00 - 1:00",
        ["Introduce the topic: " + topic, "Hook the audience with a compelling opening",
         "Preview what they'll learn"]),
      ContentSection("Main Content", "1:00 - 8:00",
        ["Deep dive into the topic", "Provide valuable insights and examples",
         "Address common questions and concerns"]),
      ContentSection("Conclusion & Call to Action", "8:00 - 10:00",
        ["Summarize key takeaways", "Provide actionable next steps",
         "Encourage engagement and subscriptions"]) ]
  }

  /** The SEO keywords of the fallback: the first four hashtags, or all of them padded
      with "trending" and "content". */
  function FallbackKeywords(hashtags: seq<string>): (k: seq<string>)
    ensures |hashtags| >= 4 ==> k == hashtags[..4]
    ensures |hashtags| < 4 ==> |k| == |hashtags| + 2 && k[..|hashtags|] == hashtags
                               && k[|hashtags|..] == ["trending", "content"]
    ensures 2 <= |k| <= 5
  {
    if |hashtags| >= 4 then hashtags[..4] else hashtags + ["trending", "content"]
  }

  /** `_create_fallback_content`. */
  function FallbackContent(trend: Trend, request: ContentGenerationRequest, userId: string,
                           sessionId: string, st: Stamp): (c: GeneratedContent)
    ensures c.title == "Content Script: " + trend.topic
    ensures |c.outline| == 3 && |c.keyPoints| == 4
    ensures c.seoKeywords == FallbackKeywords(trend.hashtags)
    ensures c.hashtags == PyTake(trend.hashtags, 5)
    ensures c.estimatedViews == "2K - 8K" && c.difficulty == "Beginner-friendly"
  {
    GeneratedContent(
      st.id, userId, sessionId, trend.id, request.templateId, request.tone, request.customPrompt,
      "Content Script: " + trend.topic,
      "Did you know that " + trend.topic + " is trending right now? Here's what you need to know...",
      FallbackOutline(trend.topic),
      [trend.topic + " is gaining significant traction",
       "Understanding this trend can benefit your audience",
       "There are specific strategies to leverage this topic",
       "Timing is crucial for maximum impact"],
      FallbackKeywords(trend.hashtags),
      PyTake(trend.hashtags, 5),
      "2K - 8K", "Beginner-friendly", st.createdAt)
  }

  // ---------------------------------------------------------------- parse

  /** The script copies the trend id, template, tone, custom prompt, user and session
      from its inputs, whichever path built it. */
  predicate CopiesInputs(c: GeneratedContent, trend: Trend, request: ContentGenerationRequest,
                         userId: string, sessionId: string, st: Stamp) {
    && c.trendId == trend.id && c.templateId == request.templateId && c.tone == request.tone
    && c.customPrompt == request.customPrompt && c.userId == userId && c.sessionId == sessionId
    && c.id == st.id && c.createdAt == st.createdAt
  }

  /** `_parse_ai_response`: the decoded payload with defaults, or the fallback when no
      payload is found or it does not decode; it never fails. */
  function ParseResponse(reply: string, trend: Trend, request: ContentGenerationRequest,
                         userId: string, sessionId: string, st: Stamp,
                         parse: string -> Option<ParsedReply>): (c: GeneratedContent)
    ensures CopiesInputs(c, trend, request, userId, sessionId, st)
    ensures ExtractPayload(reply).None? ==> c == FallbackContent(trend, request, userId, sessionId, st)
    ensures ExtractPayload(reply).Some? && parse(ExtractPayload(reply).value).None? ==>
              c == FallbackContent(trend, request, userId, sessionId, st)
    ensures ExtractPayload(reply).Some? && parse(ExtractPayload(reply).value).Some? ==>
              c == ContentOf(parse(ExtractPayload(reply).value).value, trend, request, userId, sessionId, st)
  {
    match ExtractPayload(reply)
    case None => FallbackContent(trend, request, userId, sessionId, st)
    case Some(payload) =>
      match parse(payload)
      case None => FallbackContent(trend, request, userId, sessionId, st)
      case Some(p) => ContentOf(p, trend, request, userId, sessionId, st)
  }

  /** A reply that is neither fenced nor starts with "{" after stripping always gives
      the fallback, whatever the parser would make of it. */
  lemma ProseReplyFallsBack(reply: string, trend: Trend, request: ContentGenerationRequest,
                            userId: string, sessionId: string, st: Stamp,
                            parse: string -> Option<ParsedReply>)
    requires !Contains(PyStrip(reply), Fence) && !StartsWith(PyStrip(reply), "{")
    ensures ParseResponse(reply, trend, request, userId, sessionId, st, parse)
            == FallbackContent(trend, request, userId, sessionId, st)
  {
  }

  /** The outline loop of `_parse_ai_response`. */
  method BuildOutline(items: seq<ParsedSection>) returns (sections: seq<ContentSection>)
    ensures sections == SectionsOf(items)
  {
    sections := [];
    for k := 0 to |items|
      invariant sections == SectionsOf(items[..k])
    {
      assert items[..k + 1][..k] == items[..k];
      sections := sections + [SectionOf(items[k])];
    }
    assert items[..|items|] == items;
  }

  /** The extraction step of `_parse_ai_response`: strip, locate the fence by `find`
      and slice. */
  method ExtractJson(reply: string) returns (payload: Option<string>)
    ensures payload == ExtractPayload(reply)
  {
    var text := PyStrip(reply);
    if Contains(text, Fence) {
      ContainsIffFound(text, Fence);
      var start := Find(text, Fence, 0) + 7;
      var end := Find(text, FenceEnd, start);
      payload := Some(PyStrip(PySlice(text, start, end)));
    } else if StartsWith(text, "{") {
      payload := Some(text);
    } else {
      payload := None;
    }
  }

  /** `_parse_ai_response` as the backend runs it: extract, decode, and build the
      outline in a loop. */
  method ParseAiResponse(reply: string, trend: Trend, request: ContentGenerationRequest,
                         userId: string, sessionId: string, st: Stamp,
                         parse: string -> Option<ParsedReply>) returns (c: GeneratedContent)
    ensures c == ParseResponse(reply, trend, request, userId, sessionId, st, parse)
  {
    var payload := ExtractJson(reply);
    if payload.None? {
      return FallbackContent(trend, request, userId, sessionId, st);
    }
    var parsed := parse(payload.value);
    if parsed.None? {
      return FallbackContent(trend, request, userId, sessionId, st);
    }
    var p := parsed.value;
    var outline := BuildOutline(p.outline.GetOr([]));
    c := GeneratedContent(st.id, userId, sessionId, trend.id, request.templateId, request.tone,
                          request.customPrompt, p.title.GetOr("Generated Content"), p.hook.GetOr(""),
                          outline, p.keyPoints.GetOr([]), p.seoKeywords.GetOr([]),
                          p.hashtags.GetOr([]), p.estimatedViews.GetOr("1K - 5K"),
                          p.difficulty.GetOr("Intermediate"), st.createdAt);
  }

  /** `generate_content_script` around the model call: the call's outcome is the
      parameter `answer`; a failed call is re-raised with the prefix
      "Failed to generate content: ", an answer is always turned into a script. */
  function GenerateContentScript(trend: Trend, request: ContentGenerationRequest, userId: string,
                                 answer: Result<string>, st: Stamp,
                                 parse: string -> Option<ParsedReply>): (r: Result<GeneratedContent>)
    ensures r.Ok? <==> answer.Ok?
    ensures answer.Err? ==> r.message == "Failed to generate content: " + answer.message
    ensures r.Ok? ==> CopiesInputs(r.value, trend, request, userId, SessionId(request, trend), st)
  {
    match answer
    case Err(m) => Err("Failed to generate content: " + m)
    case Ok(text) => Ok(ParseResponse(text, trend, request, userId, SessionId(request, trend), st, parse))
  }
}
