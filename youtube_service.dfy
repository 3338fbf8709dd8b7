/**
  `YouTubeService`: the wrapper around the YouTube Data API. Its client is
  created once, from the OAuth client of the authentication service, and the
  answers of the API calls are parameters (`None` when the call threw).
*/
module YouTube {

  import opened Wrappers
  import opened Values
  import opened Auth

  datatype YouTubeError =
    | RequestFailed  // an API call threw
    | NoItems        // the response had no item where the code reads `items[0]`

  /** The `statistics` of a channel item; a count the API left out is None. */
  datatype ChannelStatistics = ChannelStatistics(
    subscriberCount: Option<nat>, viewCount: Option<nat>, videoCount: Option<nat>,
    commentCount: Option<nat>, likeCount: Option<nat>)

  datatype ChannelStats = ChannelStats(subscribers: nat, views: nat, videos: nat, comments: nat)

  /** `parseInt(count || '0')`: a missing count is 0. */
  function CountOrZero(c: Option<nat>): (n: nat)
    ensures c.None? ==> n == 0
    ensures c.Some? ==> n == c.value
  {
    if c.Some? then c.value else 0
  }

  /** The integer part of `getChannelStats`, from the channel items the API answered. */
  function ChannelStatsFrom(items: seq<ChannelStatistics>): (r: Result<ChannelStats, YouTubeError>)
    ensures items == [] <==> r == Failure(NoItems)
    ensures items != [] ==> r.Success?
    ensures r.Success? ==>
      && r.value.subscribers == CountOrZero(items[0].subscriberCount)
      && r.value.views == CountOrZero(items[0].viewCount)
      && r.value.videos == CountOrZero(items[0].videoCount)
      && r.value.comments == CountOrZero(items[0].commentCount)
  {
    if items == [] then Failure(NoItems)
    else
      var st := items[0];
      Success(ChannelStats(CountOrZero(st.subscriberCount), CountOrZero(st.viewCount),
                           CountOrZero(st.videoCount), CountOrZero(st.commentCount)))
  }

  datatype ItemSnippet = ItemSnippet(
    title: string, description: string, publishedAt: string, highThumbnailUrl: string, tags: Option<seq<string>>)

  datatype VideoStatistics = VideoStatistics(viewCount: Option<nat>, likeCount: Option<nat>, commentCount: Option<nat>)

  /** An item of the `videos.list` answer. */
  datatype VideoItem = VideoItem(id: string, snippet: ItemSnippet, statistics: VideoStatistics)

  datatype VideoData = VideoData(
    id: string, title: string, description: string, publishedAt: string, thumbnailUrl: string,
    views: nat, likes: nat, comments: nat, tags: seq<string>)

  /** One API item as `VideoData`: copied fields, and 0 or [] where the API left a value out. */
  function ToVideoData(item: VideoItem): (v: VideoData)
    ensures v.id == item.id && v.title == item.snippet.title && v.description == item.snippet.description
    ensures v.publishedAt == item.snippet.publishedAt && v.thumbnailUrl == item.snippet.highThumbnailUrl
    ensures item.statistics.viewCount.None? ==> v.views == 0
    ensures item.statistics.likeCount.None? ==> v.likes == 0
    ensures item.statistics.commentCount.None? ==> v.comments == 0
    ensures item.snippet.tags.None? ==> v.tags == []
    ensures item.snippet.tags.Some? ==> v.tags == item.snippet.tags.value
  {
    VideoData(
      item.id, item.snippet.title, item.snippet.description, item.snippet.publishedAt,
      item.snippet.highThumbnailUrl,
      CountOrZero(item.statistics.viewCount), CountOrZero(item.statistics.likeCount),
      CountOrZero(item.statistics.commentCount),
      if item.snippet.tags.Some? then item.snippet.tags.value else [])
  }

  /** The `items.map` of `getRecentVideos`: one `VideoData` per item, in the same order. */
  function VideosFrom(items: seq<VideoItem>): (r: seq<VideoData>)
    ensures |r| == |items|
    ensures forall i :: 0 <= i < |items| ==> r[i] == ToVideoData(items[i])
  {
    if items == [] then [] else [ToVideoData(items[0])] + VideosFrom(items[1..])
  }

  /** The ids of the mapped videos are the ids of the items, in order. */
  lemma VideoIdsPreserved(items: seq<VideoItem>)
    ensures forall i :: 0 <= i < |items| ==> VideosFrom(items)[i].id == items[i].id
  {
  }

  /**
    A video's `snippet` as `videos.list` answers it; `others` holds the fields
    the update copies through untouched (channel, publication date, thumbnails, ...).
  */
  datatype Snippet = Snippet(
    title: string, description: string, tags: Option<seq<string>>, categoryId: Option<string>,
    others: map<string, Value>)

  /** The `Partial<VideoData>` given to `updateVideo`; only these three fields are read. */
  datatype VideoPatch = VideoPatch(title: Option<string>, description: Option<string>, tags: Option<seq<string>>)

  /**
    The snippet sent by `updateVideo`: a non-empty title or description
    replaces the current one, tags replace the current ones whenever given
    (an empty list too, arrays being truthy), everything else is kept.
  */
  function MergeSnippet(current: Snippet, data: VideoPatch): (r: Snippet)
    ensures Present(data.title) ==> r.title == data.title.value
    ensures !Present(data.title) ==> r.title == current.title
    ensures Present(data.description) ==> r.description == data.description.value
    ensures !Present(data.description) ==> r.description == current.description
    ensures data.tags.Some? ==> r.tags == data.tags
    ensures data.tags.None? ==> r.tags == current.tags
    ensures r.categoryId == current.categoryId && r.others == current.others
  {
    Snippet(
      if Present(data.title) then data.title.value else current.title,
      if Present(data.description) then data.description.value else current.description,
      if data.tags.Some? then data.tags else current.tags,
      current.categoryId,
      current.others)
  }

  /** An empty title or description keeps the current one, but an empty tag list clears the tags. */
  lemma EmptyPatchFields(current: Snippet)
    ensures MergeSnippet(current, VideoPatch(Some(""), Some(""), None)) == current
    ensures MergeSnippet(current, VideoPatch(None, None, Some([]))).tags == Some([])
  {
  }

  /** Applying the same patch twice is the same as applying it once. */
  lemma MergeIdempotent(current: Snippet, data: VideoPatch)
    ensures MergeSnippet(MergeSnippet(current, data), data) == MergeSnippet(current, data)
  {
  }

  /** The `videos.update` request body. */
  datatype UpdateRequest = UpdateRequest(id: string, snippet: Snippet)

  /** The request `updateVideo` sends, from the snippets `videos.list` answered for `videoId`. */
  function UpdateRequestFor(videoId: string, data: VideoPatch, listed: seq<Snippet>): (r: Result<UpdateRequest, YouTubeError>)
    ensures listed == [] <==> r == Failure(NoItems)
    ensures r.Success? ==> r.value.id == videoId && r.value.snippet == MergeSnippet(listed[0], data)
  {
    if listed == [] then Failure(NoItems) else Success(UpdateRequest(videoId, MergeSnippet(listed[0], data)))
  }

  class YouTubeService {
    /**
      The API client (`this.youtube`): null until initialised, then bound to the
      OAuth client of the authentication service.
    */
    var youtube: AuthService?
    /** The authentication service whose OAuth client the API client uses. */
    const auth: AuthService

    ghost predicate Valid()
      reads this
    {
      youtube == null || youtube == auth
    }

    constructor (auth: AuthService)
      ensures Valid() && !IsInitialized() && this.auth == auth
    {
      youtube := null;
      this.auth := auth;
    }

    /** `isInitialized`: the client exists. */
    function IsInitialized(): (r: bool)
      reads this
      ensures !r ==> youtube == null
      ensures r && Valid() ==> youtube == auth
    {
      youtube != null
    }

    /** The effect of `initialize`: nothing once initialised, otherwise the OAuth client is obtained and bound. */
    twostate predicate Initialized(now: int, response: Option<Credentials>)
      reads this, auth, auth.store
    {
      if old(youtube) != null then
        && youtube == old(youtube)
        && auth.state == old(auth.state) && auth.credentials == old(auth.credentials)
        && auth.store.entries == old(auth.store.entries)
      else
        youtube == auth && ClientObtained(auth, now, response)
    }

    /** `initialize`; `response` answers the token refresh `getOAuth2Client` may make. */
    method Initialize(now: int, response: Option<Credentials>)
      requires Valid()
      modifies this, auth, auth.store
      ensures Valid() && IsInitialized()
      ensures Initialized(now, response)
    {
      if youtube != null {
        return;
      }
      var _ := auth.GetOAuth2Client(now, response);
      youtube := auth;
    }

    /** `getChannelStats` without its engagement ratio; `channels` answers `channels.list`. */
    method GetChannelStats(now: int, response: Option<Credentials>, channels: Option<seq<ChannelStatistics>>)
      returns (r: Result<ChannelStats, YouTubeError>)
      requires Valid()
      modifies this, auth, auth.store
      ensures Valid() && IsInitialized() && Initialized(now, response)
      ensures channels.None? ==> r == Failure(RequestFailed)
      ensures channels.Some? ==> r == ChannelStatsFrom(channels.value)
    {
      Initialize(now, response);
      if channels.None? {
        return Failure(RequestFailed);
      }
      r := ChannelStatsFrom(channels.value);
    }

    /**
      `getRecentVideos`; `videos` answers the `videos.list` call made for the ids
      found by the search (None when either call threw).
    */
    method GetRecentVideos(now: int, response: Option<Credentials>, videos: Option<seq<VideoItem>>)
      returns (r: Result<seq<VideoData>, YouTubeError>)
      requires Valid()
      modifies this, auth, auth.store
      ensures Valid() && IsInitialized() && Initialized(now, response)
      ensures videos.None? ==> r == Failure(RequestFailed)
      ensures videos.Some? ==> r == Success(VideosFrom(videos.value))
    {
      Initialize(now, response);
      if videos.None? {
        return Failure(RequestFailed);
      }
      r := Success(VideosFrom(videos.value));
    }

    /**
      `updateVideo`: `listed` answers `videos.list` for the video and `updateOk`
      says whether `videos.update` succeeded. Success carries the request sent
      (the source answers `true`).
    */
    method UpdateVideo(videoId: string, data: VideoPatch, now: int, response: Option<Credentials>,
                       listed: Option<seq<Snippet>>, updateOk: bool)
      returns (r: Result<UpdateRequest, YouTubeError>)
      requires Valid()
      modifies this, auth, auth.store
      ensures Valid() && IsInitialized() && Initialized(now, response)
      ensures listed.None? ==> r == Failure(RequestFailed)
      ensures listed.Some? && UpdateRequestFor(videoId, data, listed.value).Failure? ==> r == Failure(NoItems)
      ensures listed.Some? && UpdateRequestFor(videoId, data, listed.value).Success? ==>
        r == (if updateOk then UpdateRequestFor(videoId, data, listed.value) else Failure(RequestFailed))
    {
      Initialize(now, response);
      if listed.None? {
        return Failure(RequestFailed);
      }
      var request := UpdateRequestFor(videoId, data, listed.value);
      if request.Failure? {
        return request;
      }
      if !updateOk {
        return Failure(RequestFailed);
      }
      r := request;
    }
  }
}
