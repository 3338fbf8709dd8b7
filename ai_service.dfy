/**
  `AIService`: the OpenAI wrapper. Its client exists once an API key has been
  given; every public operation first makes sure of that (taking the key from
  the environment when it can) and fails otherwise. The operations then answer
  fixed suggestions or templates built from their input; the OpenAI client
  itself is not modelled: `openai` records the key it was created with.
*/
module AI {

  import opened Wrappers

  datatype AIError = NotInitialized  // 'AI service not initialized and no API key available'

  datatype KeywordSuggestion = KeywordSuggestion(
    original: string, suggestion: string, searchVolume: string, competition: string, potentialViews: string)

  datatype TitleSuggestion = TitleSuggestion(original: string, suggestion: string, reasoning: string)

  datatype DescriptionSuggestion = DescriptionSuggestion(original: string, suggestion: string, reasoning: string)

  datatype ThumbnailFeedback = ThumbnailFeedback(strengths: seq<string>, weaknesses: seq<string>, suggestions: seq<string>)

  datatype UploadScheduleSuggestion = UploadScheduleSuggestion(bestDays: seq<string>, bestTimes: seq<string>, reasoning: string)

  datatype ContentSuggestion = ContentSuggestion(
    topic: string, title: string, description: string, estimatedViews: string, reasoning: string)

  // The fixed texts below are written as pieces of at most twenty characters
  // joined with `+`: the verifier handles a long string literal at a cost that
  // grows quickly with its length, and the short pieces keep that cost down.

  // Lower-casing, as `toLowerCase` does on ASCII letters.

  function LowerChar(c: char): (r: char)
  {
    if 'A' <= c <= 'Z' then (c as int + 32) as char else c
  }

  function ToLower(s: string): (r: string)
    ensures |r| == |s|
    ensures forall i :: 0 <= i < |s| ==> r[i] == LowerChar(s[i])
  {
    if s == [] then [] else [LowerChar(s[0])] + ToLower(s[1..])
  }

  /** Lower-casing twice is lower-casing once. */
  lemma ToLowerIdempotent(s: string)
    ensures ToLower(ToLower(s)) == ToLower(s)
  {
  }

  // The title templates of `suggestTitles`.

  const UltimateGuideSuffix: string := " (Ultimate Guide "
    + "2024)"
  const HowIPrefix: string := "How I "
  const HowISuffix: string := " (And How You Can "
    + "Too!)"
  const SecretPrefix: string := "The SECRET to "
  const SecretSuffix: string := " Nobody Tells You"

  /** The three suggestions `suggestTitles` answers for `title`. */
  function TitleSuggestions(title: string): (r: seq<TitleSuggestion>)
    ensures |r| == 3
    ensures forall i :: 0 <= i < 3 ==> r[i].original == title
    ensures |r[0].suggestion| == |title| + |UltimateGuideSuffix|
    ensures r[0].suggestion[..|title|] == title && r[0].suggestion[|title|..] == UltimateGuideSuffix
    ensures |r[1].suggestion| == |HowIPrefix| + |title| + |HowISuffix|
    ensures r[1].suggestion[..|HowIPrefix|] == HowIPrefix
    ensures r[1].suggestion[|HowIPrefix|..|HowIPrefix| + |title|] == ToLower(title)
    ensures r[1].suggestion[|HowIPrefix| + |title|..] == HowISuffix
    ensures |r[2].suggestion| == |SecretPrefix| + |title| + |SecretSuffix|
    ensures r[2].suggestion[..|SecretPrefix|] == SecretPrefix
    ensures r[2].suggestion[|SecretPrefix|..|SecretPrefix| + |title|] == title
    ensures r[2].suggestion[|SecretPrefix| + |title|..] == SecretSuffix
  {
    [
      TitleSuggestion(title, title + UltimateGuideSuffix,
        "Adding \"Ultimate "
          + "Guide\" and the "
          + "current year "
          + "increases perceived "
          + "value and relevance."),
      TitleSuggestion(title, HowIPrefix + ToLower(title) + HowISuffix,
        "Personal angle "
          + "creates connection "
          + "and promises value "
          + "transfer to the "
          + "viewer."),
      TitleSuggestion(title, SecretPrefix + title + SecretSuffix,
        "Creates curiosity "
          + "and suggests "
          + "exclusive "
          + "information not "
          + "available elsewhere.")
    ]
  }

  /** Different titles give different first and third suggestions: the title can be read back from them. */
  lemma TitleSuggestionsDistinguishTitles(t1: string, t2: string)
    requires t1 != t2
    ensures TitleSuggestions(t1)[0].suggestion != TitleSuggestions(t2)[0].suggestion
    ensures TitleSuggestions(t1)[2].suggestion != TitleSuggestions(t2)[2].suggestion
  {
  }

  // The description template of `optimizeDescription`.

  const DescriptionPrefix: string := "\U{1F525} ULTIMATE GUIDE: "

  /** Everything the template puts after the excerpt and its "...". */
  const DescriptionTail: string :=
    "\n        \nIn this comprehensive tutorial, I'll show you step-by-step "
      + "how to master this technique that will transform your results!\n\n"
    + "\U{23F1}\U{FE0F} TIMESTAMPS:\n00:00 Introduction\n01:23 Getting "
      + "Started\n04:56 Key Techniques\n08:32 Advanced Tips\n12:45 Common "
      + "Mistakes to Avoid\n15:20 Final Results\n\n"
    + "\U{1F517} RESOURCES MENTIONED:\n- Free Template: "
      + "https://example.com/template\n- Recommended Tool: "
      + "https://example.com/tool\n- My Course: https://example.com/course\n\n"
    + "\U{1F44D} If you found this helpful, please LIKE and SUBSCRIBE for "
      + "more content like this every week!\n\n"
    + "\U{1F4F1} FOLLOW ME:\nInstagram: @example\nTwitter: @example\nWebsite: "
      + "https://example.com\n\n"
    + "#Tutorial #HowTo #Tips #Guide"

  const DescriptionReasoning: string :=
    "The optimized description includes emojis for visual appeal, clear "
      + "sections with timestamps, resource links, a call to action, social "
      + "media information, and relevant hashtags. This format improves "
      + "readability and SEO while encouraging viewer engagement."

  /** The excerpt limit of `substring(0, 50)`. */
  const ExcerptLength: nat := 50

  /** `s.substring(0, n)`: the first n characters, or all of `s` when it is shorter. */
  function Prefix(s: string, n: nat): (r: string)
    ensures |r| == if |s| < n then |s| else n
    ensures r == s[..|r|]
  {
    if |s| < n then s else s[..n]
  }

  /** The suggestion `optimizeDescription` answers for `description`. */
  function DescriptionSuggestionFor(description: string): (r: DescriptionSuggestion)
    ensures r.original == description
    ensures var k := if |description| < ExcerptLength then |description| else ExcerptLength;
            && |r.suggestion| == |DescriptionPrefix| + k + 3 + |DescriptionTail|
            && r.suggestion[..|DescriptionPrefix|] == DescriptionPrefix
            && r.suggestion[|DescriptionPrefix|..|DescriptionPrefix| + k] == description[..k]
            && r.suggestion[|DescriptionPrefix| + k..|DescriptionPrefix| + k + 3] == "..."
            && r.suggestion[|DescriptionPrefix| + k + 3..] == DescriptionTail
  {
    var excerpt := Prefix(description, ExcerptLength);
    PartsOfConcat(DescriptionPrefix, excerpt, "...", DescriptionTail);
    DescriptionSuggestion(description, DescriptionPrefix + excerpt + "..." + DescriptionTail, DescriptionReasoning)
  }

  /** The four parts of `a + b + c + d` can be read back at their offsets. */
  lemma PartsOfConcat(a: string, b: string, c: string, d: string)
    ensures var s := a + b + c + d;
            && |s| == |a| + |b| + |c| + |d|
            && s[..|a|] == a
            && s[|a|..|a| + |b|] == b
            && s[|a| + |b|..|a| + |b| + |c|] == c
            && s[|a| + |b| + |c|..] == d
  {
  }

  /** Descriptions that agree on their first 50 characters get the same suggestion text. */
  lemma DescriptionDependsOnExcerpt(d1: string, d2: string)
    requires |d1| >= ExcerptLength && |d2| >= ExcerptLength && d1[..ExcerptLength] == d2[..ExcerptLength]
    ensures DescriptionSuggestionFor(d1).suggestion == DescriptionSuggestionFor(d2).suggestion
  {
  }

  // The fixed answers.

  /** The fixed answer of `optimizeKeywords`; the keywords asked about play no part. */
  function KeywordSuggestions(keywords: seq<string>): (r: seq<KeywordSuggestion>)
    ensures |r| == 3
  {
    [
      KeywordSuggestion("how to make youtube videos", "how to create viral youtube videos", "18,100", "Medium", "+42%"),
      KeywordSuggestion("youtube growth", "youtube growth strategy 2024", "9,400", "Low", "+28%"),
      KeywordSuggestion("video editing tutorial", "professional video editing tutorial for beginners",
        "22,800", "Medium", "+35%")
    ]
  }

  /** The fixed answer of `analyzeThumbnail`. */
  function ThumbnailFeedbackFor(thumbnailUrl: string): (r: ThumbnailFeedback)
    ensures |r.strengths| == 3 && |r.weaknesses| == 3 && |r.suggestions| == 4
  {
    ThumbnailFeedback(
      [ "Good use of "
        + "contrasting colors "
        + "that stand out in "
        + "search results",
        "Clear, readable "
          + "text that "
          + "communicates the "
          + "video topic",
        "Facial expression "
          + "shows emotion which "
          + "can drive curiosity" ],
      [ "Text is slightly "
        + "too small and may "
        + "be hard to read on "
        + "mobile devices",
        "Background is "
          + "somewhat cluttered "
          + "and distracting",
        "Lacks a clear focal "
          + "point that "
          + "immediately grabs "
          + "attention" ],
      [ "Increase text size "
        + "by 20% and use a "
        + "bolder font with "
        + "stronger outline",
        "Simplify the "
          + "background or add a "
          + "subtle gradient "
          + "overlay to reduce "
          + "distraction",
        "Add a small but "
          + "eye-catching "
          + "graphic element "
          + "like an arrow, "
          + "circle, or number",
        "Consider using a "
          + "more "
          + "shocking/surprising "
          + "facial expression "
          + "to increase "
          + "curiosity" ])
  }

  /** The fixed answer of `suggestUploadSchedule`. */
  function UploadScheduleFor(channelAnalytics: string): (r: UploadScheduleSuggestion)
    ensures |r.bestDays| == 3 && |r.bestTimes| == 2
  {
    UploadScheduleSuggestion(
      ["Tuesday", "Thursday", "Saturday"],
      ["3:00 PM EST", "7:00 PM EST"],
      "Based on your "
        + "audience activity "
        + "patterns, these "
        + "days and times show "
        + "the highest initial "
        + "engagement. Tuesday "
        + "and Thursday "
        + "uploads perform "
        + "well with your "
        + "professional "
        + "audience during "
        + "after-work hours, "
        + "while Saturday "
        + "content captures "
        + "weekend viewers. "
        + "The 3 PM EST time "
        + "works well for both "
        + "US and European "
        + "audiences, while 7 "
        + "PM EST targets US "
        + "evening viewers.")
  }

  /** The fixed answer of `generateContentIdeas`. */
  function ContentIdeasFor(channelTopic: string, recentVideos: seq<string>): (r: seq<ContentSuggestion>)
    ensures |r| == 3
  {
    [
      ContentSuggestion("YouTube Growth "
        + "Strategy",
        "10 YouTube "
          + "Algorithm Secrets "
          + "That Changed My "
          + "Channel (2024 "
          + "Update)",
        "Revealing the "
          + "latest algorithm "
          + "patterns and how to "
          + "leverage them for "
          + "explosive channel "
          + "growth, based on "
          + "data from 100+ "
          + "successful channels.",
        "High (15,000+)",
        "Algorithm-focused "
          + "content "
          + "consistently "
          + "performs well, and "
          + "adding data-backed "
          + "insights with a "
          + "specific number "
          + "(100+) increases "
          + "credibility and "
          + "click-through rate."),
      ContentSuggestion("Content Creation",
        "I Tested 5 Viral "
          + "YouTube Intro "
          + "Styles (Here's What "
          + "Actually Works)",
        "A side-by-side "
          + "comparison of "
          + "different video "
          + "intro styles, "
          + "measuring "
          + "retention, "
          + "engagement, and "
          + "conversion metrics "
          + "to find the most "
          + "effective approach.",
        "Medium "
          + "(8,000-15,000)",
        "Test/experiment "
          + "videos create "
          + "curiosity, and "
          + "focusing on intros "
          + "addresses a "
          + "specific pain point "
          + "for creators while "
          + "promising "
          + "actionable insights."),
      ContentSuggestion("Monetization",
        "How Small Channels "
          + "Can Make "
          + "$1,000/Month "
          + "(Without AdSense)",
        "A comprehensive "
          + "guide to "
          + "alternative "
          + "monetization "
          + "strategies "
          + "specifically "
          + "designed for "
          + "creators with fewer "
          + "than 10,000 "
          + "subscribers.",
        "High (20,000+)",
        "Monetization "
          + "content with "
          + "specific dollar "
          + "amounts in the "
          + "title performs "
          + "extremely well, and "
          + "focusing on smaller "
          + "channels targets an "
          + "underserved "
          + "audience segment "
          + "with high "
          + "motivation.")
    ]
  }

  // The fixed answers do not depend on what the operations are asked about.

  lemma KeywordSuggestionsIgnoreInput(k1: seq<string>, k2: seq<string>)
    ensures KeywordSuggestions(k1) == KeywordSuggestions(k2)
  {
  }

  lemma ThumbnailFeedbackIgnoresUrl(url1: string, url2: string)
    ensures ThumbnailFeedbackFor(url1) == ThumbnailFeedbackFor(url2)
  {
  }

  lemma UploadScheduleIgnoresAnalytics(a1: string, a2: string)
    ensures UploadScheduleFor(a1) == UploadScheduleFor(a2)
  {
  }

  lemma ContentIdeasIgnoreInput(topic1: string, videos1: seq<string>, topic2: string, videos2: seq<string>)
    ensures ContentIdeasFor(topic1, videos1) == ContentIdeasFor(topic2, videos2)
  {
  }

  /** The client after `ensureInitialized`: kept if there is one, else created from a non-empty environment key. */
  function AfterEnsure(openai: Option<string>, envApiKey: string): (r: Option<string>)
    ensures openai.Some? ==> r == openai
    ensures openai.None? && envApiKey != "" ==> r == Some(envApiKey)
    ensures r.None? <==> openai.None? && envApiKey == ""
  {
    if openai.Some? then openai else if envApiKey != "" then Some(envApiKey) else None
  }

  /** Once there is a client the guard keeps it, and a second guard changes nothing. */
  lemma EnsureSettles(openai: Option<string>, envApiKey: string)
    ensures openai.Some? ==> AfterEnsure(openai, envApiKey) == openai
    ensures AfterEnsure(AfterEnsure(openai, envApiKey), envApiKey) == AfterEnsure(openai, envApiKey)
  {
  }

  class AIService {
    /** The client (`this.openai`), represented by the API key it was created with. */
    var openai: Option<string>
    /** `env.openaiApiKey`. */
    const envApiKey: string

    /** The constructor creates the client only when the environment has a key. */
    constructor (envApiKey: string)
      ensures this.envApiKey == envApiKey
      ensures IsInitialized() <==> envApiKey != ""
      ensures envApiKey != "" ==> openai == Some(envApiKey)
    {
      this.envApiKey := envApiKey;
      if envApiKey != "" {
        openai := Some(envApiKey);
      } else {
        openai := None;
      }
    }

    /** `initialize`: a client with the given key, replacing any earlier one. */
    method Initialize(apiKey: string)
      modifies this
      ensures openai == Some(apiKey) && IsInitialized()
    {
      openai := Some(apiKey);
    }

    /** `isInitialized`: a client exists, and then the guard of every operation passes without touching it. */
    function IsInitialized(): (r: bool)
      reads this
      ensures r ==> AfterEnsure(openai, envApiKey) == openai
      ensures !r ==> (AfterEnsure(openai, envApiKey).Some? <==> envApiKey != "")
    {
      openai.Some?
    }

    /** `ensureInitialized`: fails when there is no client and no environment key. */
    method EnsureInitialized() returns (r: Outcome<AIError>)
      modifies this
      ensures openai == AfterEnsure(old(openai), envApiKey)
      ensures r.Fail? <==> old(openai).None? && envApiKey == ""
      ensures r.Pass? <==> IsInitialized()
    {
      if openai.None? {
        if envApiKey != "" {
          Initialize(envApiKey);
        } else {
          return Fail(NotInitialized);
        }
      }
      r := Pass;
    }

    method OptimizeKeywords(keywords: seq<string>) returns (r: Result<seq<KeywordSuggestion>, AIError>)
      modifies this
      ensures openai == AfterEnsure(old(openai), envApiKey)
      ensures r.Failure? <==> old(openai).None? && envApiKey == ""
      ensures r.Success? ==> r.value == KeywordSuggestions(keywords)
    {
      var g := EnsureInitialized();
      if g.Fail? {
        return Failure(g.error);
      }
      r := Success(KeywordSuggestions(keywords));
    }

    method SuggestTitles(originalTitle: string, videoDescription: string) returns (r: Result<seq<TitleSuggestion>, AIError>)
      modifies this
      ensures openai == AfterEnsure(old(openai), envApiKey)
      ensures r.Failure? <==> old(openai).None? && envApiKey == ""
      ensures r.Success? ==> r.value == TitleSuggestions(originalTitle)
    {
      var g := EnsureInitialized();
      if g.Fail? {
        return Failure(g.error);
      }
      r := Success(TitleSuggestions(originalTitle));
    }

    method OptimizeDescription(originalDescription: string) returns (r: Result<DescriptionSuggestion, AIError>)
      modifies this
      ensures openai == AfterEnsure(old(openai), envApiKey)
      ensures r.Failure? <==> old(openai).None? && envApiKey == ""
      ensures r.Success? ==> r.value == DescriptionSuggestionFor(originalDescription)
    {
      var g := EnsureInitialized();
      if g.Fail? {
        return Failure(g.error);
      }
      r := Success(DescriptionSuggestionFor(originalDescription));
    }

    method AnalyzeThumbnail(thumbnailUrl: string) returns (r: Result<ThumbnailFeedback, AIError>)
      modifies this
      ensures openai == AfterEnsure(old(openai), envApiKey)
      ensures r.Failure? <==> old(openai).None? && envApiKey == ""
      ensures r.Success? ==> r.value == ThumbnailFeedbackFor(thumbnailUrl)
    {
      var g := EnsureInitialized();
      if g.Fail? {
        return Failure(g.error);
      }
      r := Success(ThumbnailFeedbackFor(thumbnailUrl));
    }

    method SuggestUploadSchedule(channelAnalytics: string) returns (r: Result<UploadScheduleSuggestion, AIError>)
      modifies this
      ensures openai == AfterEnsure(old(openai), envApiKey)
      ensures r.Failure? <==> old(openai).None? && envApiKey == ""
      ensures r.Success? ==> r.value == UploadScheduleFor(channelAnalytics)
    {
      var g := EnsureInitialized();
      if g.Fail? {
        return Failure(g.error);
      }
      r := Success(UploadScheduleFor(channelAnalytics));
    }

    method GenerateContentIdeas(channelTopic: string, recentVideos: seq<string>) returns (r: Result<seq<ContentSuggestion>, AIError>)
      modifies this
      ensures openai == AfterEnsure(old(openai), envApiKey)
      ensures r.Failure? <==> old(openai).None? && envApiKey == ""
      ensures r.Success? ==> r.value == ContentIdeasFor(channelTopic, recentVideos)
    {
      var g := EnsureInitialized();
      if g.Fail? {
        return Failure(g.error);
      }
      r := Success(ContentIdeasFor(channelTopic, recentVideos));
    }
  }

  /** Once an operation has succeeded, every later operation passes the guard. */
  method GuardStaysOpen(ai: AIService, title: string, description: string)
    returns (a: Result<seq<TitleSuggestion>, AIError>, b: Result<DescriptionSuggestion, AIError>)
    modifies ai
    ensures a.Success? ==> b.Success?
    ensures a.Failure? <==> b.Failure?
    ensures a.Success? ==> ai.IsInitialized()
  {
    a := ai.SuggestTitles(title, description);
    b := ai.OptimizeDescription(description);
  }
}
