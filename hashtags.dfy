/**
 * The deterministic hashtag generator of the trend service: one tag per long word
 * of the topic, the tags of five keyword groups, de-duplicated and cut to five.
 */
module HashtagGen {
  import opened Text

  /** The hashtag a word contributes: words of three characters or fewer contribute none. */
  function WordTag(word: string): seq<string> {
    if |word| > 3 then ["#" + Capitalize(word)] else []
  }

  function WordTags(words: seq<string>): seq<string> {
    if words == [] then [] else WordTags(words[..|words| - 1]) + WordTag(words[|words| - 1])
  }

  /** The words of a topic: lower case, hyphens read as spaces, split on whitespace. */
  function TopicWords(topic: string): seq<string> {
    PySplit(ReplaceChar(Lower(topic), '-', ' '))
  }

  const AiTags: seq<string> := ["#AI", "#ArtificialIntelligence", "#MachineLearning"]
  const BusinessTags: seq<string> := ["#Business", "#Startup", "#Entrepreneurship"]
  const TechTags: seq<string> := ["#Tech", "#Programming", "#Development"]
  const HealthTags: seq<string> := ["#Health", "#Wellness", "#MentalHealth"]
  const WorkTags: seq<string> := ["#RemoteWork", "#Productivity", "#WorkFromHome"]

  predicate AiTopic(lower: string) { Contains(lower, "ai") || Contains(lower, "artificial intelligence") }
  predicate BusinessTopic(lower: string) { Contains(lower, "business") || Contains(lower, "startup") || Contains(lower, "saas") }
  predicate TechTopic(lower: string) { Contains(lower, "tech") || Contains(lower, "code") || Contains(lower, "programming") }
  predicate HealthTopic(lower: string) { Contains(lower, "health") || Contains(lower, "wellness") }
  predicate WorkTopic(lower: string) { Contains(lower, "remote") || Contains(lower, "work") }

  /** The tags of one keyword group, when the group is triggered. */
  function TagsIf(hit: bool, tags: seq<string>): seq<string> {
    if hit then tags else []
  }

  /** Every tag before de-duplication, in the order the generator extends its list:
      word tags in word order, then the five groups in fixed order. */
  function CandidateTags(topic: string): seq<string> {
    var lower := Lower(topic);
    WordTags(TopicWords(topic))
    + TagsIf(AiTopic(lower), AiTags)
    + TagsIf(BusinessTopic(lower), BusinessTags)
    + TagsIf(TechTopic(lower), TechTags)
    + TagsIf(HealthTopic(lower), HealthTags)
    + TagsIf(WorkTopic(lower), WorkTags)
  }

  /** The keyword-group tags of a lower-cased topic. */
  function GroupTags(lower: string): seq<string> {
    TagsIf(AiTopic(lower), AiTags)
    + TagsIf(BusinessTopic(lower), BusinessTags)
    + TagsIf(TechTopic(lower), TechTags)
    + TagsIf(HealthTopic(lower), HealthTags)
    + TagsIf(WorkTopic(lower), WorkTags)
  }

  lemma AppendAssociates(w: seq<string>, a: seq<string>, b: seq<string>, c: seq<string>,
                         d: seq<string>, e: seq<string>)
    ensures w + a + b + c + d + e == w + (a + b + c + d + e)
  {
    assert w + a + b == w + (a + b);
    assert w + a + b + c == w + (a + b + c);
    assert w + a + b + c + d == w + (a + b + c + d);
  }

  /** The candidates are the word tags followed by the group tags. */
  lemma CandidateSplit(topic: string)
    ensures CandidateTags(topic) == WordTags(TopicWords(topic)) + GroupTags(Lower(topic))
  {
    var lower := Lower(topic);
    AppendAssociates(WordTags(TopicWords(topic)), TagsIf(AiTopic(lower), AiTags),
      TagsIf(BusinessTopic(lower), BusinessTags), TagsIf(TechTopic(lower), TechTags),
      TagsIf(HealthTopic(lower), HealthTags), TagsIf(WorkTopic(lower), WorkTags));
  }

  predicate NoDuplicates<T(==)>(s: seq<T>) {
    forall i, j :: 0 <= i < j < |s| ==> s[i] != s[j]
  }

  function FirstIndex<T(==)>(s: seq<T>, x: T): (i: nat)
    requires x in s
    ensures i < |s| && s[i] == x && x !in s[..i]
  {
    if s[0] == x then 0 else 1 + FirstIndex(s[1..], x)
  }

  /** `list(dict.fromkeys(s))`: the first occurrence of every element, in order. */
  function Dedup<T(==,!new)>(s: seq<T>): (r: seq<T>)
    ensures NoDuplicates(r)
    ensures forall x :: x in r <==> x in s
    ensures forall i, j :: 0 <= i < j < |r| ==> FirstIndex(s, r[i]) < FirstIndex(s, r[j])
  {
    if s == [] then []
    else
      var init := s[..|s| - 1];
      var last := s[|s| - 1];
      var d := Dedup(init);
      assert s == init + [last];
      assert forall x :: x in init ==> FirstIndex(s, x) == FirstIndex(init, x) by {
        forall x | x in init ensures FirstIndex(s, x) == FirstIndex(init, x) {
          FirstIndexPrefix(init, [last], x);
        }
      }
      if last in d then d
      else
        assert last !in init;
        assert FirstIndex(s, last) == |init|;
        d + [last]
  }

  lemma {:induction false} FirstIndexPrefix<T>(u: seq<T>, v: seq<T>, x: T)
    requires x in u
    ensures FirstIndex(u + v, x) == FirstIndex(u, x)
  {
    if u[0] != x {
      assert (u + v)[1..] == u[1..] + v;
      FirstIndexPrefix(u[1..], v, x);
    }
  }

  /** `_generate_hashtags`: the de-duplicated candidates, at most five. */
  function Hashtags(topic: string): (r: seq<string>)
    ensures |r| <= 5
    ensures NoDuplicates(r)
    ensures forall x :: x in r ==> x in CandidateTags(topic)
    ensures |r| == if |Dedup(CandidateTags(topic))| < 5 then |Dedup(CandidateTags(topic))| else 5
    ensures r == Dedup(CandidateTags(topic))[..|r|]
  {
    PyTake(Dedup(CandidateTags(topic)), 5)
  }

  /** The hashtags keep the order in which the candidates first appear. */
  lemma HashtagsInCandidateOrder(topic: string)
    ensures var r := Hashtags(topic);
            forall i, j :: 0 <= i < j < |r| ==>
              FirstIndex(CandidateTags(topic), r[i]) < FirstIndex(CandidateTags(topic), r[j])
  {
    var d := Dedup(CandidateTags(topic));
    var r := Hashtags(topic);
    assert forall i :: 0 <= i < |r| ==> r[i] == d[i];
  }

  /** The tags words contribute are exactly `'#' + word.capitalize()` for the words longer
      than three characters, in word order. */
  lemma {:induction false} WordTagsExactly(words: seq<string>)
    ensures forall x :: x in WordTags(words) <==> exists w :: w in words && |w| > 3 && x == "#" + Capitalize(w)
  {
    if words != [] {
      var init := words[..|words| - 1];
      WordTagsExactly(init);
      assert words == init + [words[|words| - 1]];
    }
  }

  /** A word tag that survives always comes before a group tag that is not also a word tag. */
  lemma WordTagsFirst(topic: string, x: string, y: string)
    requires x in Hashtags(topic) && y in Hashtags(topic)
    requires x in WordTags(TopicWords(topic)) && y !in WordTags(TopicWords(topic))
    ensures FirstIndex(Hashtags(topic), x) < FirstIndex(Hashtags(topic), y)
  {
    var words := WordTags(TopicWords(topic));
    var all := CandidateTags(topic);
    var d := Dedup(all);
    var r := Hashtags(topic);
    assert r == d[..|r|];
    var i, j := FirstIndex(r, x), FirstIndex(r, y);
    CandidateSplit(topic);
    FirstIndexPrefix(words, GroupTags(Lower(topic)), x);
    assert FirstIndex(all, x) < |words|;
    assert y in all;
    assert FirstIndex(all, y) >= |words|;
    assert r[i] == d[i] && r[j] == d[j];
  }

  /** No tag a word contributes is "#AI": it would need a word of at most two characters. */
  lemma NoWordTagIsAiTag(words: seq<string>)
    ensures "#AI" !in WordTags(words)
  {
    WordTagsExactly(words);
  }

  /** "#AI" belongs to the AI group only. */
  lemma AiTagOnlyInAiGroup()
    ensures "#AI" in AiTags
    ensures "#AI" !in BusinessTags && "#AI" !in TechTags && "#AI" !in HealthTags && "#AI" !in WorkTags
  {
    assert AiTags[0] == "#AI";
  }

  /** The AI group contributes its tags exactly when "ai" or "artificial intelligence"
      occurs anywhere in the lower-cased topic, even inside a longer word. */
  lemma AiGroupTrigger(topic: string)
    ensures "#AI" in CandidateTags(topic) <==> AiTopic(Lower(topic))
  {
    NoWordTagIsAiTag(TopicWords(topic));
    AiTagOnlyInAiGroup();
    var lower := Lower(topic);
    var w := WordTags(TopicWords(topic));
    var a := TagsIf(AiTopic(lower), AiTags);
    var rest := [TagsIf(BusinessTopic(lower), BusinessTags), TagsIf(TechTopic(lower), TechTags),
                 TagsIf(HealthTopic(lower), HealthTags), TagsIf(WorkTopic(lower), WorkTags)];
    assert CandidateTags(topic) == w + a + rest[0] + rest[1] + rest[2] + rest[3];
    assert forall k :: 0 <= k < 4 ==> "#AI" !in rest[k];
  }

  /** "Sustainable" contains "ai", so a fashion topic gets the AI group. */
  lemma SubstringTriggerExample()
    ensures AiTopic(Lower("Sustainable Fashion Trends 2025"))
  {
    var lower := Lower("Sustainable Fashion Trends 2025");
    assert lower[4] == 'a' && lower[5] == 'i';
    assert lower[4..][..2] == "ai";
  }

  /** The word loop of the generator. */
  method CollectWordTags(words: seq<string>) returns (tags: seq<string>)
    ensures tags == WordTags(words)
  {
    tags := [];
    for k := 0 to |words|
      invariant tags == WordTags(words[..k])
    {
      assert words[..k + 1][..k] == words[..k];
      if |words[k]| > 3 {
        tags := tags + ["#" + Capitalize(words[k])];
      }
    }
    assert words[..|words|] == words;
  }

  /** The generator as the backend runs it: the word loop, five group tests,
      de-duplication and truncation to five. */
  method GenerateHashtags(topic: string) returns (tags: seq<string>)
    ensures tags == Hashtags(topic)
  {
    var hashtags := CollectWordTags(PySplit(ReplaceChar(Lower(topic), '-', ' ')));
    var lower := Lower(topic);
    if AiTopic(lower) {
      hashtags := hashtags + AiTags;
    } else {
      assert hashtags + [] == hashtags;
    }
    if BusinessTopic(lower) {
      hashtags := hashtags + BusinessTags;
    } else {
      assert hashtags + [] == hashtags;
    }
    if TechTopic(lower) {
      hashtags := hashtags + TechTags;
    } else {
      assert hashtags + [] == hashtags;
    }
    if HealthTopic(lower) {
      hashtags := hashtags + HealthTags;
    } else {
      assert hashtags + [] == hashtags;
    }
    if WorkTopic(lower) {
      hashtags := hashtags + WorkTags;
    } else {
      assert hashtags + [] == hashtags;
    }
    tags := PyTake(Dedup(hashtags), 5);
  }
}
