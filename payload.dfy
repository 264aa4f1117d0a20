/** The body of a `/api/subscriptions` response as it arrives (every nested path optional) and the
    total mapping that turns it into the typed records the page displays. */
module Payload {
  import opened Options

  // ---- The loosely typed response -------------------------------------------------------------

  datatype Thumbnail = Thumbnail(url: Option<string>)
  datatype Thumbnails = Thumbnails(defaultSize: Option<Thumbnail>)   // `thumbnails.default`
  datatype ResourceId = ResourceId(channelId: Option<string>)
  datatype Snippet = Snippet(
    title: Option<string>,
    channelTitle: Option<string>,
    thumbnails: Option<Thumbnails>,
    resourceId: Option<ResourceId>)
  datatype ContentDetails = ContentDetails(totalItemCount: Option<int>)

  /** One element of `data.items`; the id is read without a fallback. */
  datatype RawItem = RawItem(id: string, snippet: Option<Snippet>, contentDetails: Option<ContentDetails>)

  datatype PageInfo = PageInfo(totalResults: Option<int>)

  /** The parsed JSON body. */
  datatype RawPayload = RawPayload(items: Option<seq<RawItem>>, totalResults: Option<int>, pageInfo: Option<PageInfo>)

  // ---- The typed record -----------------------------------------------------------------------

  /** A subscription as displayed; `totalItemCount == None` is the source's `null`. */
  datatype Subscription = Subscription(
    id: string,
    title: string,
    channelTitle: string,
    thumbnailUrl: string,
    channelId: string,
    channelUrl: string,
    totalItemCount: Option<int>)

  const ChannelPrefix: string := "https://www.youtube.com/channel/"

  /** The link to a channel page, or "" for an empty channel id (an empty string is falsy). */
  function ChannelUrl(channelId: string): (url: string)
    ensures url == [] <==> channelId == []
    ensures channelId != [] ==> ChannelPrefix <= url && url[|ChannelPrefix|..] == channelId
  {
    if channelId != [] then ChannelPrefix + channelId else ""
  }

  /** A record whose link agrees with its channel id, as every normalised record does. */
  predicate WellFormed(s: Subscription)
  {
    s.channelUrl == ChannelUrl(s.channelId)
  }

  // ---- The optional-chaining paths, each with its `??` default ---------------------------------

  function TitleOf(item: RawItem): string
  {
    if item.snippet.Some? then item.snippet.value.title.GetOr("") else ""
  }

  function ChannelTitleOf(item: RawItem): string
  {
    if item.snippet.Some? then item.snippet.value.channelTitle.GetOr("") else ""
  }

  function ThumbnailUrlOf(item: RawItem): string
  {
    if item.snippet.Some? && item.snippet.value.thumbnails.Some?
       && item.snippet.value.thumbnails.value.defaultSize.Some?
    then item.snippet.value.thumbnails.value.defaultSize.value.url.GetOr("")
    else ""
  }

  function ChannelIdOf(item: RawItem): string
  {
    if item.snippet.Some? && item.snippet.value.resourceId.Some?
    then item.snippet.value.resourceId.value.channelId.GetOr("")
    else ""
  }

  function TotalItemCountOf(item: RawItem): Option<int>
  {
    if item.contentDetails.Some? then item.contentDetails.value.totalItemCount else None
  }

  /** The mapping applied to each element of `data.items`: never fails, keeps the id, and derives
      the channel link from the channel id. */
  function NormalizeItem(item: RawItem): (s: Subscription)
    ensures s.id == item.id
    ensures WellFormed(s)
  {
    var channelId := ChannelIdOf(item);
    Subscription(item.id, TitleOf(item), ChannelTitleOf(item), ThumbnailUrlOf(item),
                 channelId, ChannelUrl(channelId), TotalItemCountOf(item))
  }

  /** `items.map(NormalizeItem)`: same length, same order, element by element. */
  function NormalizeAll(items: seq<RawItem>): (r: seq<Subscription>)
    ensures |r| == |items|
    ensures forall i :: 0 <= i < |items| ==> r[i] == NormalizeItem(items[i])
  {
    if items == [] then [] else [NormalizeItem(items[0])] + NormalizeAll(items[1..])
  }

  /** `(data.items ?? []).map(...)`: an absent list displays as an empty one. */
  function ItemsOf(data: RawPayload): (r: seq<Subscription>)
    ensures data.items.None? ==> r == []
    ensures data.items.Some? ==> r == NormalizeAll(data.items.value)
  {
    NormalizeAll(data.items.GetOr([]))
  }

  /** `data.totalResults ?? data?.pageInfo?.totalResults ?? 0`: the top-level count wins over the
      page-info count, and 0 is used only when neither is present. */
  function TotalOf(data: RawPayload): (t: int)
    ensures data.totalResults.Some? ==> t == data.totalResults.value
    ensures data.totalResults.None? && data.pageInfo.Some? && data.pageInfo.value.totalResults.Some?
            ==> t == data.pageInfo.value.totalResults.value
    ensures t != 0 ==> data.totalResults.Some? || (data.pageInfo.Some? && data.pageInfo.value.totalResults.Some?)
  {
    if data.totalResults.Some? then data.totalResults.value
    else if data.pageInfo.Some? then data.pageInfo.value.totalResults.GetOr(0)
    else 0
  }

  // ---- Round trip: the fully populated payload of a typed record -----------------------------

  /** The raw item a server would send for `s`, with every optional path present. */
  function Embed(s: Subscription): RawItem
  {
    RawItem(s.id,
            Some(Snippet(Some(s.title), Some(s.channelTitle),
                         Some(Thumbnails(Some(Thumbnail(Some(s.thumbnailUrl))))),
                         Some(ResourceId(Some(s.channelId))))),
            Some(ContentDetails(s.totalItemCount)))
  }

  /** Normalisation loses nothing a well-formed record holds: it undoes `Embed`. */
  lemma NormalizeEmbed(s: Subscription)
    requires WellFormed(s)
    ensures NormalizeItem(Embed(s)) == s
  {
  }

  /** Every record normalised from a list undoes `Embed` on that list. */
  lemma NormalizeAllEmbed(ss: seq<Subscription>)
    requires forall i :: 0 <= i < |ss| ==> WellFormed(ss[i])
    ensures NormalizeAll(seq(|ss|, i requires 0 <= i < |ss| => Embed(ss[i]))) == ss
  {
  }

  /** Each field of the record follows its path: the value found at the end of the path when every
      step of it is present, its default ("" or null) as soon as any step is missing. */
  lemma NormalizeItemFields(item: RawItem)
    ensures (item.snippet.Some? && item.snippet.value.title.Some?)
      ==> NormalizeItem(item).title == item.snippet.value.title.value
    ensures (item.snippet.None? || item.snippet.value.title.None?)
      ==> NormalizeItem(item).title == ""
    ensures (item.snippet.Some? && item.snippet.value.channelTitle.Some?)
      ==> NormalizeItem(item).channelTitle == item.snippet.value.channelTitle.value
    ensures (item.snippet.None? || item.snippet.value.channelTitle.None?)
      ==> NormalizeItem(item).channelTitle == ""
    ensures (item.snippet.Some? && item.snippet.value.thumbnails.Some?
             && item.snippet.value.thumbnails.value.defaultSize.Some?
             && item.snippet.value.thumbnails.value.defaultSize.value.url.Some?)
      ==> NormalizeItem(item).thumbnailUrl == item.snippet.value.thumbnails.value.defaultSize.value.url.value
    ensures (item.snippet.None? || item.snippet.value.thumbnails.None?
             || item.snippet.value.thumbnails.value.defaultSize.None?
             || item.snippet.value.thumbnails.value.defaultSize.value.url.None?)
      ==> NormalizeItem(item).thumbnailUrl == ""
    ensures (item.snippet.Some? && item.snippet.value.resourceId.Some?
             && item.snippet.value.resourceId.value.channelId.Some?)
      ==> NormalizeItem(item).channelId == item.snippet.value.resourceId.value.channelId.value
    ensures (item.snippet.None? || item.snippet.value.resourceId.None?
             || item.snippet.value.resourceId.value.channelId.None?)
      ==> NormalizeItem(item).channelId == "" && NormalizeItem(item).channelUrl == ""
    ensures item.contentDetails.Some?
      ==> NormalizeItem(item).totalItemCount == item.contentDetails.value.totalItemCount
    ensures (item.contentDetails.None? || item.contentDetails.value.totalItemCount.None?)
      ==> NormalizeItem(item).totalItemCount.None?
  {
  }

  /** An item carrying only its id gets every default: empty strings, no link, a null count. */
  lemma NormalizeBare(id: string)
    ensures NormalizeItem(RawItem(id, None, None)) == Subscription(id, "", "", "", "", "", None)
  {
  }

  /** An item whose channel id is missing or empty links nowhere. */
  lemma NoChannelNoLink(item: RawItem)
    requires ChannelIdOf(item) == ""
    ensures NormalizeItem(item).channelUrl == ""
  {
  }
}
