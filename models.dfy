/**
 * The backend's records (pydantic models) and their defaults. Identifiers drawn
 * from uuid4 and timestamps drawn from the clock are ordinary fields here; the
 * functions named `New...` supply every default the backend declares and take the
 * remaining fields as arguments.
 */
module Models {
  import opened Wrappers

  /** Engagement counters of one platform. `sentiment` and `engagement` are floats in
      the backend and `real` here. */
  datatype PlatformEngagement = PlatformEngagement(
    posts: int, mentions: int, sentiment: real, videos: int, totalViews: int,
    avgViews: int, upvotes: int, comments: int, engagement: real)

  /** A `PlatformEngagement` built with no arguments. */
  function NewPlatformEngagement(): (e: PlatformEngagement)
    ensures e.posts == 0 && e.mentions == 0 && e.videos == 0 && e.totalViews == 0
    ensures e.avgViews == 0 && e.upvotes == 0 && e.comments == 0
    ensures e.sentiment == 0.0 && e.engagement == 0.0
  {
    PlatformEngagement(0, 0, 0.0, 0, 0, 0, 0, 0, 0.0)
  }

  /** Engagement per platform: exactly the four platforms the service knows. */
  datatype TrendEngagement = TrendEngagement(
    twitter: PlatformEngagement, youtube: PlatformEngagement,
    reddit: PlatformEngagement, tiktok: PlatformEngagement)

  function NewTrendEngagement(): (e: TrendEngagement)
    ensures e.twitter == e.youtube == e.reddit == e.tiktok == NewPlatformEngagement()
  {
    var zero := NewPlatformEngagement();
    TrendEngagement(zero, zero, zero, zero)
  }

  /** A trending topic. `createdAt` and `updatedAt` are instants in milliseconds. */
  datatype Trend = Trend(
    id: string, topic: string, platform: string, hashtags: seq<string>,
    contentScore: int, trendVelocity: string, engagement: TrendEngagement,
    keyInsights: seq<string>, suggestedAngles: seq<string>, timeframe: string,
    category: string, createdAt: int, updatedAt: int)

  /** A `Trend` given only its required fields (and the generated id and instants). */
  function NewTrend(id: string, topic: string, platform: string, contentScore: int,
                    trendVelocity: string, timeframe: string, category: string,
                    createdAt: int, updatedAt: int): (t: Trend)
    ensures t.hashtags == [] && t.keyInsights == [] && t.suggestedAngles == []
    ensures t.engagement == NewTrendEngagement()
    ensures t.id == id && t.topic == topic && t.platform == platform
    ensures t.contentScore == contentScore && t.category == category
    ensures t.trendVelocity == trendVelocity && t.timeframe == timeframe
    ensures t.createdAt == createdAt && t.updatedAt == updatedAt
  {
    Trend(id, topic, platform, [], contentScore, trendVelocity, NewTrendEngagement(),
          [], [], timeframe, category, createdAt, updatedAt)
  }

  /** One section of a generated outline. */
  datatype ContentSection = ContentSection(section: string, duration: string, content: seq<string>)

  /** A generated script and the request it answers. */
  datatype GeneratedContent = GeneratedContent(
    id: string, userId: string, sessionId: string, trendId: string, templateId: string,
    tone: string, customPrompt: Option<string>, title: string, hook: string,
    outline: seq<ContentSection>, keyPoints: seq<string>, seoKeywords: seq<string>,
    hashtags: seq<string>, estimatedViews: string, difficulty: string, createdAt: int)

  /** The body of `POST /generate-content`. */
  datatype ContentGenerationRequest = ContentGenerationRequest(
    trendId: string, templateId: string, tone: string,
    customPrompt: Option<string>, sessionId: Option<string>)

  /** A request that names only the three required fields. */
  function NewRequest(trendId: string, templateId: string, tone: string): (r: ContentGenerationRequest)
    ensures r.customPrompt == None && r.sessionId == None
    ensures r.trendId == trendId && r.templateId == templateId && r.tone == tone
  {
    ContentGenerationRequest(trendId, templateId, tone, None, None)
  }

  datatype ContentTemplate = ContentTemplate(
    id: string, name: string, description: string, structure: seq<string>,
    estimatedLength: string, icon: string)

  datatype ToneOption = ToneOption(id: string, name: string, description: string)

  /** The envelope every endpoint answers with; `T` is the shape of its `data`. */
  datatype ApiResponse<+T> = ApiResponse(success: bool, data: Option<T>, message: string, error: Option<string>)

  /** An envelope given only `success`. */
  function NewApiResponse<T>(success: bool): (r: ApiResponse<T>)
    ensures r.success == success && r.data == None && r.message == "" && r.error == None
  {
    ApiResponse(success, None, "", None)
  }

  /** The `data` of `GET /stats`. */
  datatype Stats = Stats(totalTrends: int, highPotential: int, averageScore: int, platforms: int)

  /** The `data` of `GET /trends` (the fields of `TrendResponse`). */
  datatype TrendsPage = TrendsPage(trends: seq<Trend>, total: int, page: int, limit: int)
}
