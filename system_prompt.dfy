/**
 * The system message the AI service sends with every generation request: the
 * instruction of the chosen content template and of the chosen tone, each with a
 * fixed default for an unknown id, inside a fixed frame.
 */
module SystemPrompt {

  const TemplateInstructions: map<string, string> := map[
    "youtube-explainer" := "You are an expert YouTube content creator specializing in 10-15 minute educational videos. Create detailed, engaging scripts with clear timestamps, hooks, and actionable content.",
    "blog-post" := "You are a professional content writer specializing in comprehensive blog posts. Create well-structured, SEO-optimized content with clear headings and valuable insights.",
    "social-thread" := "You are a social media expert creating viral Twitter/LinkedIn threads. Focus on concise, impactful points that drive engagement and sharing.",
    "podcast-guide" := "You are a podcast producer creating structured discussion guides. Focus on natural conversation flow, thought-provoking questions, and key talking points.",
    "short-form" := "You are a TikTok/Instagram Reels creator. Focus on hook-heavy, fast-paced content that captures attention in the first 3 seconds."
  ]

  const ToneInstructions: map<string, string> := map[
    "professional" := "Use authoritative, business-focused language with industry expertise.",
    "casual" := "Use friendly, conversational tone like talking to a friend.",
    "humorous" := "Include appropriate humor, wit, and light-hearted commentary.",
    "educational" := "Focus on teaching and explaining concepts clearly.",
    "controversial" := "Present provocative viewpoints while maintaining respect.",
    "inspirational" := "Use motivational and uplifting language that inspires action."
  ]

  const DefaultTemplate := "youtube-explainer"
  const DefaultTone := "professional"

  /** The template instruction: the table's entry, or the YouTube explainer's for an id
      the table does not know. */
  function BaseInstruction(templateId: string): (r: string)
    ensures templateId in TemplateInstructions ==> r == TemplateInstructions[templateId]
    ensures templateId !in TemplateInstructions ==> r == TemplateInstructions[DefaultTemplate]
    ensures r in TemplateInstructions.Values
  {
    if templateId in TemplateInstructions then TemplateInstructions[templateId]
    else TemplateInstructions[DefaultTemplate]
  }

  /** The tone instruction: the table's entry, or the professional one for an unknown tone. */
  function ToneInstruction(tone: string): (r: string)
    ensures tone in ToneInstructions ==> r == ToneInstructions[tone]
    ensures tone !in ToneInstructions ==> r == ToneInstructions[DefaultTone]
    ensures r in ToneInstructions.Values
  {
    if tone in ToneInstructions then ToneInstructions[tone] else ToneInstructions[DefaultTone]
  }

  /** The newline and eight spaces of indentation that open every line of the message. */
  const Indent: string := "\n        "

  /** The blank line and label between the two instructions. */
  const ToneLead: string := Indent + Indent + "Tone: "

  /** The text after the tone instruction. */
  const Closing: string :=
    Indent + Indent + "Always provide:"
    + Indent + "1. A compelling, clickable title"
    + Indent + "2. An attention-grabbing hook"
    + Indent + "3. Detailed content outline with timestamps (if applicable)"
    + Indent + "4. Key points to emphasize"
    + Indent + "5. SEO keywords and hashtags"
    + Indent + "6. Performance predictions"
    + Indent + Indent + "Format your response as a structured JSON object with all required fields."
    + Indent

  /** `_get_system_message`: the template instruction on the first line, then the tone
      instruction after "Tone: ", then the fixed list of what to provide. */
  function SystemMessage(templateId: string, tone: string): string {
    Indent + BaseInstruction(templateId) + ToneLead + ToneInstruction(tone) + Closing
  }

  lemma Pieces(x: string, b: string, y: string, t: string, z: string)
    ensures (x + b + y + t + z)[..|x|] == x
    ensures (x + b + y + t + z)[|x|..][..|b|] == b
    ensures (x + b + y + t + z)[|x| + |b| + |y|..][..|t|] == t
  {
    var m := x + b + y + t + z;
    assert m == x + (b + (y + (t + z)));
    assert m[|x|..] == b + (y + (t + z));
    assert m == (x + b + y) + (t + z);
    assert m[|x| + |b| + |y|..] == t + z;
  }

  /** The message opens with the template instruction and carries the tone instruction
      after a blank line and "Tone: ". */
  lemma SystemMessageLayout(templateId: string, tone: string)
    ensures var m := SystemMessage(templateId, tone);
            var b := BaseInstruction(templateId);
            var t := ToneInstruction(tone);
            && m[..|Indent|] == Indent
            && m[|Indent|..][..|b|] == b
            && m[|Indent| + |b| + |ToneLead|..][..|t|] == t
  {
    Pieces(Indent, BaseInstruction(templateId), ToneLead, ToneInstruction(tone), Closing);
  }

  /** An unknown template or tone gives the same message as the default one. */
  lemma SystemMessageDefaults(templateId: string, tone: string)
    ensures templateId !in TemplateInstructions ==>
              SystemMessage(templateId, tone) == SystemMessage(DefaultTemplate, tone)
    ensures tone !in ToneInstructions ==>
              SystemMessage(templateId, tone) == SystemMessage(templateId, DefaultTone)
  {
    assert DefaultTemplate in TemplateInstructions;
    assert DefaultTone in ToneInstructions;
  }
}
