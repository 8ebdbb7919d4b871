/**
 * The builder's behaviour as its test suite describes it, one method per
 * group of expectations. Each method drives a fresh builder through the
 * calls the suite makes and returns what the suite inspects; its
 * postcondition is the expectation, for every SDK setting, id and argument
 * rather than only the suite's sample values.
 */
module EmbedBuilderSpec {
  import opened Wrappers
  import opened Strings
  import opened EmbedTypes
  import opened UrlParams
  import opened EmbedUrls
  import opened Builder
  import opened EmbedSdk

  /** `https://{apiHost}/embed/{segment}/{id}`, spelled out as the suite spells its expected URLs. */
  function ExpectedUrl(sdk: SdkConfig, segment: string, id: ResourceId): string {
    "https://" + sdk.apiHost + "/embed/" + segment + "/" + IdString(id)
  }

  /** The SDK settings the suite initialises with. */
  const SuiteSdk := SdkConfig("host.looker.com:9999", "/auth")

  /** The suite's numeric sample id is written as `11`. */
  lemma SampleNumericIdRendersAsWritten()
    ensures IdString(NumericId(11)) == "11"
  {
    assert NatToString(1) == "1";
    assert NatToString(11) == NatToString(1) + [DigitChar(1)];
  }

  /** With the suite's settings and id 11, the expected dashboard URL is the literal it matches. */
  lemma SampleDashboardUrlAsWritten()
    ensures ExpectedUrl(SuiteSdk, "dashboards", NumericId(11)) == "https://host.looker.com:9999/embed/dashboards/11"
  {
    SampleNumericIdRendersAsWritten();
    var url := ExpectedUrl(SuiteSdk, "dashboards", NumericId(11));
    assert url == "https://host.looker.com:9999" + "/embed/" + "dashboards" + "/" + "11";
    assert |url| == 48;
  }

  /** With the suite's settings and id 11, the expected look URL is the literal it matches. */
  lemma SampleLookUrlAsWritten()
    ensures ExpectedUrl(SuiteSdk, "looks", NumericId(11)) == "https://host.looker.com:9999/embed/looks/11"
  {
    SampleNumericIdRendersAsWritten();
    var url := ExpectedUrl(SuiteSdk, "looks", NumericId(11));
    assert url == "https://host.looker.com:9999" + "/embed/" + "looks" + "/" + "11";
    assert |url| == 43;
  }

  /** With the suite's settings and id `alpha:beta`, the expected explore URL is the literal it matches. */
  lemma SampleExploreUrlAsWritten()
    ensures ExpectedUrl(SuiteSdk, "explores", TextId("alpha:beta")) == "https://host.looker.com:9999/embed/explores/alpha:beta"
  {
    var url := ExpectedUrl(SuiteSdk, "explores", TextId("alpha:beta"));
    assert url == "https://host.looker.com:9999" + "/embed/" + "explores" + "/" + "alpha:beta";
    assert |url| == 54;
  }

  /** Every factory sets the tag and client for its kind, whether given an id or a URL. */
  method FactoriesSetTypeAndClient(sdk: SdkConfig, id: ResourceId, url: string)
    returns (byId: seq<(string, ClientKind)>, byUrl: seq<(string, ClientKind)>)
    ensures byId == byUrl
    ensures byId == [("dashboard", LookerEmbedDashboard), ("look", LookerEmbedLook), ("explore", LookerEmbedExplore)]
  {
    var d := CreateDashboardWithId(sdk, id);
    var l := CreateLookWithId(sdk, id);
    var e := CreateExploreWithId(sdk, id);
    byId := [(d.Type(), d.ClientConstructor()), (l.Type(), l.ClientConstructor()), (e.Type(), e.ClientConstructor())];
    d := CreateDashboardWithUrl(sdk, url);
    l := CreateLookWithUrl(sdk, url);
    e := CreateExploreWithUrl(sdk, url);
    byUrl := [(d.Type(), d.ClientConstructor()), (l.Type(), l.ClientConstructor()), (e.Type(), e.ClientConstructor())];
  }

  /** A dashboard built from an id is a dashboard and its URL names `dashboards/{id}`. */
  method DashboardsWithId(sdk: SdkConfig, id: ResourceId) returns (tag: string, client: ClientKind, url: string)
    ensures tag == "dashboard" && client == LookerEmbedDashboard
    ensures Contains(url, ExpectedUrl(sdk, "dashboards", id))
  {
    var b := CreateDashboardWithId(sdk, id);
    tag, client, url := b.Type(), b.ClientConstructor(), b.EmbedUrl();
    assert ExpectedUrl(sdk, "dashboards", id) == BaseUrl(sdk.apiHost, Dashboard, id);
    ContainsPrefix(url, ExpectedUrl(sdk, "dashboards", id));
  }

  /** A dashboard built from a URL is a dashboard and gives that URL back unchanged. */
  method DashboardsWithUrl(sdk: SdkConfig, given: string) returns (tag: string, client: ClientKind, url: Option<string>)
    ensures tag == "dashboard" && client == LookerEmbedDashboard
    ensures url == Some(given)
  {
    var b := CreateDashboardWithUrl(sdk, given);
    tag, client, url := b.Type(), b.ClientConstructor(), b.Url();
  }

  /** A look built from an id is a look and its URL names `looks/{id}`. */
  method LooksWithId(sdk: SdkConfig, id: ResourceId) returns (tag: string, client: ClientKind, url: string)
    ensures tag == "look" && client == LookerEmbedLook
    ensures Contains(url, ExpectedUrl(sdk, "looks", id))
  {
    var b := CreateLookWithId(sdk, id);
    tag, client, url := b.Type(), b.ClientConstructor(), b.EmbedUrl();
    assert ExpectedUrl(sdk, "looks", id) == BaseUrl(sdk.apiHost, Look, id);
    ContainsPrefix(url, ExpectedUrl(sdk, "looks", id));
  }

  /** A look built from a URL is a look and gives that URL back unchanged. */
  method LooksWithUrl(sdk: SdkConfig, given: string) returns (tag: string, client: ClientKind, url: Option<string>)
    ensures tag == "look" && client == LookerEmbedLook
    ensures url == Some(given)
  {
    var b := CreateLookWithUrl(sdk, given);
    tag, client, url := b.Type(), b.ClientConstructor(), b.Url();
  }

  /** An explore built from an id is an explore and its URL names `explores/{id}`. */
  method ExploresWithId(sdk: SdkConfig, id: ResourceId) returns (tag: string, client: ClientKind, url: string)
    ensures tag == "explore" && client == LookerEmbedExplore
    ensures Contains(url, ExpectedUrl(sdk, "explores", id))
  {
    var b := CreateExploreWithId(sdk, id);
    tag, client, url := b.Type(), b.ClientConstructor(), b.EmbedUrl();
    assert ExpectedUrl(sdk, "explores", id) == BaseUrl(sdk.apiHost, Explore, id);
    ContainsPrefix(url, ExpectedUrl(sdk, "explores", id));
  }

  /** An explore built from a URL is an explore and gives that URL back unchanged. */
  method ExploresWithUrl(sdk: SdkConfig, given: string) returns (tag: string, client: ClientKind, url: Option<string>)
    ensures tag == "explore" && client == LookerEmbedExplore
    ensures url == Some(given)
  {
    var b := CreateExploreWithUrl(sdk, given);
    tag, client, url := b.Type(), b.ClientConstructor(), b.Url();
  }

  /**
   * On a fresh builder, one handler for an event is exactly that handler;
   * a second one for the same event comes after it.
   */
  method OnRegistersHandlersInOrder(sdk: SdkConfig, id: ResourceId, name: string, first: Callback, second: Callback)
    returns (once: seq<Callback>, twice: seq<Callback>)
    ensures once == [first]
    ensures twice == [first, second]
  {
    var b := CreateDashboardWithId(sdk, id);
    b.On(name, first);
    once := b.handlers[name];
    b.On(name, second);
    twice := b.handlers[name];
  }

  /** After `withParams({alpha: 1, beta: 2})` the URL holds `alpha=1&beta=2`. */
  method WithParamsShowsInUrl(sdk: SdkConfig, id: ResourceId) returns (url: string)
    ensures Contains(url, "alpha=1&beta=2")
  {
    var b := CreateDashboardWithId(sdk, id);
    b.WithParams(SampleParams());
    url := b.EmbedUrl();
    SampleParamsInUrl(sdk.apiHost, id);
  }

  /** The suite's `{alpha: 1, beta: 2}`. */
  function SampleParams(): seq<Param> {
    [Param("alpha", Number(1)), Param("beta", Number(2))]
  }

  /** Merged onto no parameters, the suite's sample shows in the URL as `alpha=1&beta=2`. */
  lemma SampleParamsInUrl(apiHost: string, id: ResourceId)
    ensures Contains(EmbedUrlOf(apiHost, Dashboard, ById(id), MergeParams([], SampleParams())), "alpha=1&beta=2")
  {
    var alpha, beta := SampleParams()[0], SampleParams()[1];
    assert alpha.key != beta.key by {
      assert alpha.key[0] != beta.key[0];
    }
    assert DistinctKeys([alpha, beta]);
    assert [] + [alpha, beta] == [alpha, beta] == SampleParams();
    EmbedUrlCarriesNewParams(apiHost, Dashboard, id, [], alpha, beta);
    var pairs := PairString(alpha) + "&" + PairString(beta);
    SampleParamsRender();
    assert pairs == "alpha=1&beta=2";
  }

  /** The suite's sample parameters render as `alpha=1` and `beta=2`. */
  lemma SampleParamsRender()
    ensures PairString(SampleParams()[0]) + "&" + PairString(SampleParams()[1]) == "alpha=1&beta=2"
  {
    assert IntToString(1) == "1";
    assert IntToString(2) == "2";
  }

  /** Sandbox tokens added one by one or in one call end up the same, in order. */
  method SandboxAttrsAppend(sdk: SdkConfig, id: ResourceId, a: string, b: string)
    returns (oneByOne: seq<string>, together: seq<string>)
    ensures oneByOne == [a, b] && together == [a, b]
  {
    var first := CreateDashboardWithId(sdk, id);
    first.WithSandboxAttr([a]);
    first.WithSandboxAttr([b]);
    oneByOne := first.sandboxAttrs;
    var second := CreateDashboardWithId(sdk, id);
    second.WithSandboxAttr([a, b]);
    together := second.sandboxAttrs;
  }

  /** Class names added one by one or in one call end up the same, in order. */
  method ClassNamesAppend(sdk: SdkConfig, id: ResourceId, a: string, b: string)
    returns (oneByOne: seq<string>, together: seq<string>)
    ensures oneByOne == [a, b] && together == [a, b]
  {
    var first := CreateDashboardWithId(sdk, id);
    first.WithClassName([a]);
    first.WithClassName([b]);
    oneByOne := first.classNames;
    var second := CreateDashboardWithId(sdk, id);
    second.WithClassName([a, b]);
    together := second.classNames;
  }

  /** The frame is attached to the body unless another element is chosen. */
  method AppendToOverridesBody(sdk: SdkConfig, id: ResourceId, node: nat) returns (before: Target, after: Target)
    ensures before == Body && after == Element(node)
  {
    var b := CreateDashboardWithId(sdk, id);
    before := b.el;
    b.AppendTo(Element(node));
    after := b.el;
  }

  /** The frame border is `"0"` until it is set. */
  method FrameBorderDefaultsToZero(sdk: SdkConfig, id: ResourceId, border: string) returns (before: string, after: string)
    ensures before == "0" && after == border
  {
    var b := CreateDashboardWithId(sdk, id);
    before := b.frameBorder;
    b.WithFrameBorder(border);
    after := b.frameBorder;
  }

  /** The API host and auth URL are those given at initialisation. */
  method ApiHostAndAuthUrl(sdk: SdkConfig, id: ResourceId) returns (apiHost: string, authUrl: string)
    ensures apiHost == sdk.apiHost && authUrl == sdk.authUrl
  {
    var b := CreateDashboardWithId(sdk, id);
    apiHost, authUrl := b.ApiHost(), b.AuthUrl();
  }
}
