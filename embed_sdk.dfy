/**
 * The SDK's factories: one per resource kind and way of naming the
 * resource. The settings of the SDK's initialisation are passed in as an
 * explicit value rather than read from global state.
 */
module EmbedSdk {
  import opened EmbedTypes
  import opened Builder

  method CreateDashboardWithId(sdk: SdkConfig, id: ResourceId) returns (b: EmbedBuilder)
    ensures fresh(b) && b.Valid() && b.Unconfigured()
    ensures b.sdk == sdk && b.kind == Dashboard && b.source == ById(id)
  {
    b := new EmbedBuilder(sdk, Dashboard, ById(id));
  }

  method CreateDashboardWithUrl(sdk: SdkConfig, url: string) returns (b: EmbedBuilder)
    ensures fresh(b) && b.Valid() && b.Unconfigured()
    ensures b.sdk == sdk && b.kind == Dashboard && b.source == ByUrl(url)
  {
    b := new EmbedBuilder(sdk, Dashboard, ByUrl(url));
  }

  method CreateLookWithId(sdk: SdkConfig, id: ResourceId) returns (b: EmbedBuilder)
    ensures fresh(b) && b.Valid() && b.Unconfigured()
    ensures b.sdk == sdk && b.kind == Look && b.source == ById(id)
  {
    b := new EmbedBuilder(sdk, Look, ById(id));
  }

  method CreateLookWithUrl(sdk: SdkConfig, url: string) returns (b: EmbedBuilder)
    ensures fresh(b) && b.Valid() && b.Unconfigured()
    ensures b.sdk == sdk && b.kind == Look && b.source == ByUrl(url)
  {
    b := new EmbedBuilder(sdk, Look, ByUrl(url));
  }

  method CreateExploreWithId(sdk: SdkConfig, id: ResourceId) returns (b: EmbedBuilder)
    ensures fresh(b) && b.Valid() && b.Unconfigured()
    ensures b.sdk == sdk && b.kind == Explore && b.source == ById(id)
  {
    b := new EmbedBuilder(sdk, Explore, ById(id));
  }

  method CreateExploreWithUrl(sdk: SdkConfig, url: string) returns (b: EmbedBuilder)
    ensures fresh(b) && b.Valid() && b.Unconfigured()
    ensures b.sdk == sdk && b.kind == Explore && b.source == ByUrl(url)
  {
    b := new EmbedBuilder(sdk, Explore, ByUrl(url));
  }
}
