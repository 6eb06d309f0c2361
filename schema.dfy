/**
 * The decode targets of the search endpoint: immutable records mirroring the
 * API's JSON. Optional JSON fields are `Option`s, so an absent field stays
 * absent rather than being given a default. URL-typed fields are kept as text.
 * JSON field names that Dafny cannot use as identifiers (`type`) or that are
 * snake_case are written in camelCase.
 */
module Schema {
  import opened Wrappers

  datatype SearchResponse = SearchResponse(
    kind: string,
    query: Query,
    web: Option<Search>,
    videos: Option<Videos>,
    news: Option<News>)

  datatype Query = Query(original: string)

  datatype Search = Search(
    kind: string,
    results: seq<SearchResult>,
    mutatedByGoggles: Option<bool>,
    familyFriendly: Option<bool>)

  datatype SearchResult = SearchResult(
    kind: string,
    subtype: string,
    url: string,
    title: string,
    description: string,
    profile: Profile,
    thumbnail: Option<Thumbnail>,
    age: Option<string>,
    pageAge: Option<string>,
    language: string,
    familyFriendly: bool,
    metaUrl: MetaUrl,
    isSourceLocal: bool,
    isSourceBoth: bool,
    clusterType: Option<string>,
    cluster: Option<seq<Cluster>>)

  datatype Profile = Profile(name: string, url: string, longName: string, img: string)

  datatype Cluster = Cluster(
    title: string,
    url: string,
    description: string,
    familyFriendly: bool,
    isSourceLocal: bool,
    isSourceBoth: bool)

  datatype News = News(
    kind: string,
    results: seq<NewsResult>,
    mutatedByGoggles: Option<bool>,
    familyFriendly: Option<bool>)

  datatype NewsResult = NewsResult(
    url: string,
    title: string,
    description: string,
    isSourceLocal: bool,
    isSourceBoth: bool,
    age: Option<string>,
    pageAge: Option<string>,
    familyFriendly: bool,
    breaking: bool,
    metaUrl: MetaUrl,
    thumbnail: Option<Thumbnail>)

  datatype Videos = Videos(
    kind: string,
    results: seq<VideoResult>,
    mutatedByGoggles: Option<bool>,
    familyFriendly: Option<bool>)

  datatype VideoResult = VideoResult(
    url: string,
    title: string,
    description: string,
    kind: string,
    metaUrl: MetaUrl,
    thumbnail: Option<Thumbnail>,
    age: Option<string>,
    pageAge: Option<string>)

  datatype Thumbnail = Thumbnail(src: string, original: string, logo: Option<bool>)

  datatype MetaUrl = MetaUrl(
    scheme: string,
    netloc: string,
    hostname: string,
    favicon: string,
    path: string)
}
