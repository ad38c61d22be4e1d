/** The built-in table of trending topics the backend lists. */
module TopicTable {
  /** One row of the built-in topic table. */
  datatype TopicSeed = TopicSeed(topic: string, platform: string, category: string, baseScore: int)

  /** The topics every listing starts from, in table order. */
  const MockTopics: seq<TopicSeed> := [
    TopicSeed("AI-Powered Code Reviews", "twitter", "Technology", 87),
    TopicSeed("Micro-SaaS Success Stories", "youtube", "Business", 92),
    TopicSeed("Remote Work Productivity Hacks", "reddit", "Lifestyle", 78),
    TopicSeed("AI Image Generation Ethics", "tiktok", "Technology", 95),
    TopicSeed("Sustainable Fashion Trends 2025", "twitter", "Lifestyle", 83),
    TopicSeed("Cryptocurrency Market Recovery", "youtube", "Finance", 88),
    TopicSeed("Mental Health in Tech Industry", "reddit", "Health", 79),
    TopicSeed("Plant-Based Protein Innovation", "tiktok", "Food", 81)
  ]
}
