/**
 * The fixed catalogues the backend serves: the five content templates and the six
 * tone options, and how their ids line up with the instruction tables of the
 * system message.
 */
module Catalog {
  import opened Models
  import SystemPrompt

  const ContentTemplates: seq<ContentTemplate> := [
    ContentTemplate("youtube-explainer", "YouTube Explainer", "10-15 minute deep dive video",
      ["Hook", "Problem Setup", "Main Content", "Examples", "Call to Action"],
      "12-15 minutes", "\U{1F4FA}"),
    ContentTemplate("blog-post", "Blog Post Deep Dive", "Comprehensive written analysis",
      ["Compelling Headline", "Introduction", "Main Points", "Case Studies", "Conclusion"],
      "1500-2000 words", "\U{1F4DD}"),
    ContentTemplate("social-thread", "Social Media Thread", "Twitter/LinkedIn thread format",
      ["Hook Tweet", "Problem Statement", "Key Points", "Examples", "CTA"],
      "8-12 tweets", "\U{1F9F5}"),
    ContentTemplate("podcast-guide", "Podcast Discussion Guide", "Structured talking points",
      ["Opening Hook", "Key Discussion Points", "Questions", "Takeaways"],
      "20-30 minutes", "\U{1F399}\U{FE0F}"),
    ContentTemplate("short-form", "Short-Form Video", "TikTok/Instagram Reels",
      ["Attention Grabber", "Quick Value", "Visual Hook", "CTA"],
      "30-60 seconds", "\U{1F4F1}")
  ]

  const ToneOptions: seq<ToneOption> := [
    ToneOption("professional", "Professional", "Authoritative and business-focused"),
    ToneOption("casual", "Casual", "Friendly and conversational"),
    ToneOption("humorous", "Humorous", "Light-hearted with jokes and wit"),
    ToneOption("educational", "Educational", "Teaching-focused and informative"),
    ToneOption("controversial", "Controversial", "Provocative and debate-inducing"),
    ToneOption("inspirational", "Inspirational", "Motivational and uplifting")
  ]

  /** The ids of a list of catalogue entries, in order. */
  function Ids<T>(ts: seq<T>, id: T -> string): (ids: seq<string>)
    ensures |ids| == |ts| && forall i :: 0 <= i < |ts| ==> ids[i] == id(ts[i])
  {
    if ts == [] then [] else [id(ts[0])] + Ids(ts[1..], id)
  }

  function TemplateId(t: ContentTemplate): string {
    t.id
  }

  function ToneId(t: ToneOption): string {
    t.id
  }

  predicate Distinct(ids: seq<string>) {
    forall i, j :: 0 <= i < j < |ids| ==> ids[i] != ids[j]
  }

  /** The template catalogue lists five templates with distinct ids, and each of them
      has its own instruction in the system message table, so that template's default
      is never used for a catalogued id. */
  lemma TemplateCatalogue()
    ensures |ContentTemplates| == 5
    ensures Ids(ContentTemplates, TemplateId) == ["youtube-explainer", "blog-post", "social-thread", "podcast-guide", "short-form"]
    ensures Distinct(Ids(ContentTemplates, TemplateId))
    ensures forall id :: id in Ids(ContentTemplates, TemplateId) <==> id in SystemPrompt.TemplateInstructions
  {
    var ids := Ids(ContentTemplates, TemplateId);
    assert ids == ["youtube-explainer", "blog-post", "social-thread", "podcast-guide", "short-form"];
    assert SystemPrompt.TemplateInstructions.Keys == set id | id in ids;
  }

  /** The tone catalogue lists six tones with distinct ids, exactly the tones the system
      message has instructions for. */
  lemma ToneCatalogue()
    ensures |ToneOptions| == 6
    ensures Ids(ToneOptions, ToneId) == ["professional", "casual", "humorous", "educational", "controversial", "inspirational"]
    ensures Distinct(Ids(ToneOptions, ToneId))
    ensures forall id :: id in Ids(ToneOptions, ToneId) <==> id in SystemPrompt.ToneInstructions
  {
    var ids := Ids(ToneOptions, ToneId);
    assert ids == ["professional", "casual", "humorous", "educational", "controversial", "inspirational"];
    assert SystemPrompt.ToneInstructions.Keys == set id | id in ids;
  }
}
