/**
 * The classifiers of a trend card: the colour of the score badge, the icon and
 * colour of the velocity label, the platform icon, and the key-insight preview.
 */
module TrendCard {

  /** The icons the card draws. */
  datatype Icon = Zap | TrendingUp | Target | TrendingDown | Minus | Twitter | Youtube | MessageSquare | Music

  /** The four score bands of the badge, lowest first. */
  datatype Band = Low | Fair | Good | Top

  function BandRank(b: Band): nat {
    match b
    case Low => 0
    case Fair => 1
    case Good => 2
    case Top => 3
  }

  /** `getScoreColor`'s cascade of thresholds: 90 and up, 80 and up, 70 and up, below 70. */
  function ScoreBand(score: int): (b: Band)
    ensures b == Top <==> score >= 90
    ensures b == Good <==> 80 <= score < 90
    ensures b == Fair <==> 70 <= score < 80
    ensures b == Low <==> score < 70
  {
    if score >= 90 then Top else if score >= 80 then Good else if score >= 70 then Fair else Low
  }

  function BandClass(b: Band): string {
    match b
    case Top => "text-green-600 bg-green-50"
    case Good => "text-blue-600 bg-blue-50"
    case Fair => "text-yellow-600 bg-yellow-50"
    case Low => "text-red-600 bg-red-50"
  }

  /** `getScoreColor`. */
  function ScoreColor(score: int): string {
    BandClass(ScoreBand(score))
  }

  /** A higher score never gets a lower band. */
  lemma ScoreBandMonotone(a: int, b: int)
    requires a <= b
    ensures BandRank(ScoreBand(a)) <= BandRank(ScoreBand(b))
  {
  }

  /** The four bands have four different classes. */
  lemma BandClassesDistinct(b1: Band, b2: Band)
    ensures BandClass(b1) == BandClass(b2) <==> b1 == b2
  {
    if b1 != b2 {
      assert BandClass(b1)[6] != BandClass(b2)[6] || BandClass(b1)[5] != BandClass(b2)[5];
    }
  }

  /** The velocity labels the card knows. */
  predicate KnownVelocity(v: string) {
    v == "Exploding" || v == "Rising Fast" || v == "Steady Growth" || v == "Declining Slow"
  }

  /** The velocity labels the card tells apart, and every other label. */
  datatype Pace = Exploding | RisingFast | SteadyGrowth | DecliningSlow | Unlabelled

  function PaceOf(v: string): (p: Pace)
    ensures p == Exploding <==> v == "Exploding"
    ensures p == RisingFast <==> v == "Rising Fast"
    ensures p == SteadyGrowth <==> v == "Steady Growth"
    ensures p == DecliningSlow <==> v == "Declining Slow"
    ensures p == Unlabelled <==> !KnownVelocity(v)
  {
    if v == "Exploding" then Exploding
    else if v == "Rising Fast" then RisingFast
    else if v == "Steady Growth" then SteadyGrowth
    else if v == "Declining Slow" then DecliningSlow
    else Unlabelled
  }

  const OtherVelocityClass := "bg-gray-100 text-gray-700 border-gray-200"

  function PaceClass(p: Pace): string {
    match p
    case Exploding => "bg-red-100 text-red-700 border-red-200"
    case RisingFast => "bg-green-100 text-green-700 border-green-200"
    case SteadyGrowth => "bg-blue-100 text-blue-700 border-blue-200"
    case DecliningSlow => "bg-orange-100 text-orange-700 border-orange-200"
    case Unlabelled => OtherVelocityClass
  }

  /** The five paces have five different classes. */
  lemma PaceClassesDistinct(p1: Pace, p2: Pace)
    ensures PaceClass(p1) == PaceClass(p2) <==> p1 == p2
  {
    PaceKeyAt(p1);
    PaceKeyAt(p2);
  }

  /** The length of each pace's class and its fifth letter from the end (the last
      letter of the colour name), which already tell the classes apart. */
  function PaceKey(p: Pace): (int, char) {
    match p
    case Exploding => (38, 'd')
    case RisingFast => (44, 'n')
    case SteadyGrowth => (41, 'e')
    case DecliningSlow => (47, 'e')
    case Unlabelled => (41, 'y')
  }

  lemma PaceKeyAt(p: Pace)
    ensures var c := PaceClass(p); |c| >= 5 && (|c|, c[|c| - 5]) == PaceKey(p)
  {
    match p
    case Exploding =>
    case RisingFast =>
    case SteadyGrowth =>
    case DecliningSlow =>
    case Unlabelled =>
  }

  /** `getVelocityColor`. */
  function VelocityColor(v: string): (c: string)
    ensures !KnownVelocity(v) <==> c == OtherVelocityClass
  {
    PaceClassesDistinct(PaceOf(v), Unlabelled);
    PaceClass(PaceOf(v))
  }

  /** The four known labels get four different colour classes, none of them the
      class of an unknown label. */
  lemma VelocityColoursDistinct(v: string, w: string)
    ensures KnownVelocity(v) && KnownVelocity(w) && v != w ==> VelocityColor(v) != VelocityColor(w)
    ensures KnownVelocity(v) ==> VelocityColor(v) != OtherVelocityClass
  {
    PaceClassesDistinct(PaceOf(v), PaceOf(w));
  }

  /** `getVelocityIcon`: the icon and its colour class. */
  function VelocityIcon(v: string): (r: (Icon, string))
    ensures !KnownVelocity(v) <==> r.0 == Minus
    ensures v == "Exploding" ==> r.0 == Zap
    ensures v == "Rising Fast" ==> r.0 == TrendingUp
    ensures v == "Steady Growth" ==> r.0 == Target
    ensures v == "Declining Slow" ==> r.0 == TrendingDown
  {
    if v == "Exploding" then (Zap, "w-4 h-4 text-red-500")
    else if v == "Rising Fast" then (TrendingUp, "w-4 h-4 text-green-500")
    else if v == "Steady Growth" then (Target, "w-4 h-4 text-blue-500")
    else if v == "Declining Slow" then (TrendingDown, "w-4 h-4 text-orange-500")
    else (Minus, "w-4 h-4 text-gray-500")
  }

  /** The icon and the colour agree on which labels are known, and the four known
      labels get four different icons. */
  lemma VelocityIconAndColourAgree(v: string, w: string)
    ensures VelocityIcon(v).0 == Minus <==> VelocityColor(v) == OtherVelocityClass
    ensures KnownVelocity(v) && KnownVelocity(w) && v != w ==> VelocityIcon(v).0 != VelocityIcon(w).0
  {
  }

  predicate KnownPlatform(p: string) {
    p == "twitter" || p == "youtube" || p == "reddit" || p == "tiktok"
  }

  /** `getPlatformIcon`. */
  function PlatformIcon(p: string): (r: (Icon, string))
    ensures !KnownPlatform(p) <==> r.0 == Target
    ensures p == "twitter" ==> r.0 == Twitter
    ensures p == "youtube" ==> r.0 == Youtube
    ensures p == "reddit" ==> r.0 == MessageSquare
    ensures p == "tiktok" ==> r.0 == Music
  {
    if p == "twitter" then (Twitter, "w-4 h-4 text-blue-400")
    else if p == "youtube" then (Youtube, "w-4 h-4 text-red-500")
    else if p == "reddit" then (MessageSquare, "w-4 h-4 text-orange-500")
    else if p == "tiktok" then (Music, "w-4 h-4 text-pink-500")
    else (Target, "w-4 h-4")
  }

  /** `keyInsights.slice(0, 2)`: the first two insights, or all of them when fewer. */
  function InsightsPreview(insights: seq<string>): (r: seq<string>)
    ensures |r| == if |insights| < 2 then |insights| else 2
    ensures r == insights[..|r|]
  {
    if |insights| < 2 then insights else insights[..2]
  }
}
