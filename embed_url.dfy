/**
 * The builder's derived `embedUrl`, as a pure function of the API host, the
 * resource kind, what the builder was created from and its parameters.
 * It is recomputed from the current state on every read, so every change
 * to the parameters shows in the next read.
 */
module EmbedUrls {
  import opened Strings
  import opened EmbedTypes
  import opened UrlParams

  /** `https://{apiHost}/embed/{type}s/{id}` */
  function BaseUrl(apiHost: string, kind: EmbedType, id: ResourceId): string {
    "https://" + apiHost + "/embed/" + PathSegment(kind) + "/" + IdString(id)
  }

  /**
   * For an id-based builder, the base URL followed, when there are any
   * parameters, by `?` and the query string. A URL-based builder's URL is
   * passed through as it was given.
   */
  function EmbedUrlOf(apiHost: string, kind: EmbedType, source: Source, params: seq<Param>): (url: string)
    ensures source.ById? ==> BaseUrl(apiHost, kind, source.id) <= url
    ensures source.ById? && params != [] ==> BaseUrl(apiHost, kind, source.id) + "?" <= url
  {
    match source
    case ByUrl(url) => url
    case ById(id) =>
      if params == [] then BaseUrl(apiHost, kind, id)
      else BaseUrl(apiHost, kind, id) + "?" + QueryString(params)
  }

  /**
   * The URL of an id-based builder begins with, and so contains,
   * `https://{apiHost}/embed/{type}s/{id}`, whatever its parameters.
   */
  lemma EmbedUrlStartsWithBase(apiHost: string, kind: EmbedType, id: ResourceId, params: seq<Param>)
    ensures BaseUrl(apiHost, kind, id) <= EmbedUrlOf(apiHost, kind, ById(id), params)
    ensures Contains(EmbedUrlOf(apiHost, kind, ById(id), params), BaseUrl(apiHost, kind, id))
  {
    var url := EmbedUrlOf(apiHost, kind, ById(id), params);
    ContainsPrefix(url, BaseUrl(apiHost, kind, id));
  }

  /** The host, the path segment of the kind and the id all appear in the URL verbatim. */
  lemma EmbedUrlShowsHostKindAndId(apiHost: string, kind: EmbedType, id: ResourceId, params: seq<Param>)
    ensures var url := EmbedUrlOf(apiHost, kind, ById(id), params);
      Contains(url, apiHost) && Contains(url, PathSegment(kind)) && Contains(url, IdString(id))
  {
    var url := EmbedUrlOf(apiHost, kind, ById(id), params);
    var withHost := "https://" + apiHost;
    var withSegment := withHost + "/embed/" + PathSegment(kind);
    var base := withSegment + "/" + IdString(id);
    EmbedUrlStartsWithBase(apiHost, kind, id, params);
    ContainsRight("https://", apiHost);
    ContainsLeft(withHost, "/embed/");
    ContainsLeft(withHost + "/embed/", PathSegment(kind));
    ContainsTransitive(withSegment, withHost + "/embed/", withHost);
    ContainsRight(withHost + "/embed/", PathSegment(kind));
    ContainsLeft(withSegment, "/");
    ContainsLeft(withSegment + "/", IdString(id));
    ContainsTransitive(base, withSegment + "/", withSegment);
    ContainsRight(withSegment + "/", IdString(id));
    ContainsTransitive(base, withSegment, withHost);
    ContainsTransitive(base, withHost, apiHost);
    ContainsTransitive(base, withSegment, PathSegment(kind));
    ContainsTransitive(url, base, apiHost);
    ContainsTransitive(url, base, PathSegment(kind));
    ContainsTransitive(url, base, IdString(id));
  }

  /**
   * Two parameters with fresh keys, added in one call, show in the URL as
   * `k1=v1&k2=v2`, in the order given.
   */
  lemma EmbedUrlCarriesNewParams(apiHost: string, kind: EmbedType, id: ResourceId, ps: seq<Param>, p: Param, q: Param)
    requires DistinctKeys(ps + [p, q])
    ensures Contains(EmbedUrlOf(apiHost, kind, ById(id), MergeParams(ps, [p, q])),
                     PairString(p) + "&" + PairString(q))
  {
    MergeFreshKeysAppends(ps, [p, q]);
    var params := ps + [p, q];
    var pairs := PairString(p) + "&" + PairString(q);
    var before := if ps == [] then "" else QueryString(ps) + "&";
    QueryStringEndsWith(ps, p, q);
    assert QueryString(params) == before + pairs;
    ContainsRight(before, pairs);
    var prefix := BaseUrl(apiHost, kind, id) + "?";
    assert EmbedUrlOf(apiHost, kind, ById(id), params) == prefix + QueryString(params);
    ContainsRight(prefix, QueryString(params));
    ContainsTransitive(prefix + QueryString(params), QueryString(params), pairs);
  }

  // ---------------------------------------------------------------------
  // Reading an embed URL back

  /** The part of a URL before its first `?`. */
  function PathPart(url: string): string {
    Split(url, '?')[0]
  }

  /** The part of a URL after its first `?`; empty when there is none. */
  function QueryPart(url: string): string {
    Join(Split(url, '?')[1..], '?')
  }

  lemma BaseUrlHasNoQuestionMark(apiHost: string, kind: EmbedType, id: ResourceId)
    requires '?' !in apiHost && '?' !in IdString(id)
    ensures '?' !in BaseUrl(apiHost, kind, id)
  {
    assert '?' !in PathSegment(kind) by {
      match kind
      case Dashboard =>
      case Look =>
      case Explore =>
    }
  }

  /**
   * When neither the host nor the id holds a `?`, the URL of an id-based
   * builder splits at its first `?` into the base URL and the query string
   * of its parameters.
   */
  lemma EmbedUrlSplits(apiHost: string, kind: EmbedType, id: ResourceId, params: seq<Param>)
    requires '?' !in apiHost && '?' !in IdString(id)
    ensures PathPart(EmbedUrlOf(apiHost, kind, ById(id), params)) == BaseUrl(apiHost, kind, id)
    ensures QueryPart(EmbedUrlOf(apiHost, kind, ById(id), params)) == QueryString(params)
  {
    var base := BaseUrl(apiHost, kind, id);
    BaseUrlHasNoQuestionMark(apiHost, kind, id);
    if params == [] {
      SplitWithoutSep(base, '?');
      assert PairStrings(params) == [];
    } else {
      assert base + "?" + QueryString(params) == base + ['?'] + QueryString(params);
      SplitAtFirstSep(base, QueryString(params), '?');
      JoinSplit(QueryString(params), '?');
    }
  }

  /**
   * So the parameters can be read back from the URL of an id-based builder:
   * each key with its rendered value, in insertion order.
   */
  lemma EmbedUrlParamsRoundTrip(apiHost: string, kind: EmbedType, id: ResourceId, params: seq<Param>)
    requires '?' !in apiHost && '?' !in IdString(id)
    requires Unambiguous(params)
    ensures ParseQuery(QueryPart(EmbedUrlOf(apiHost, kind, ById(id), params))) == Rendered(params)
  {
    EmbedUrlSplits(apiHost, kind, id, params);
    QueryStringRoundTrip(params);
  }
}
