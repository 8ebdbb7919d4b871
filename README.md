# Embed builder model

A Dafny model of the embed SDK's builder. The builder is the object a
factory returns for a dashboard, a look or an explore. It is named either by
an id or by a ready-made embed URL. Successive calls configure it in place:
event handlers, URL parameters, sandbox tokens, class names, the frame
border and the attachment target. It then answers derived questions: its
type tag, its client class, its embed URL, the API host and the auth URL.
The builder's behaviour is pinned down by its test suite,
`tests/embed_builder.spec.ts`, and that suite is what this model follows.

Layout, one module per concern:

- `Wrappers` (wrappers.dfy): `Option`, for JavaScript's `undefined`.
- `Strings` (strings.dfy): substring containment, decimal rendering of integers with its parser, joining and splitting on a separator. Both renderings are proved invertible.
- `EmbedTypes` (embed_types.dfy): the resource kinds, the client classes, ids, sources, attachment targets, handlers and the SDK settings.
- `UrlParams` (url_params.dfy): the parameter list, kept as a JavaScript object keeps its properties, and the query string. A reference parser is proved to read the query string back.
- `EmbedUrls` (embed_url.dfy): `embedUrl` as a pure function of the API host, kind, source and parameters, with its properties.
- `Builder` (embed_builder.dfy): the `EmbedBuilder` class. Its fields are changed in place by `On`, `WithParams`, `WithSandboxAttr`, `WithClassName`, `WithFrameBorder` and `AppendTo`.
- `EmbedSdk` (embed_sdk.dfy): the six factories.
- `EmbedBuilderSpec` (embed_builder_spec.dfy): one method per group of the suite's expectations. Each drives fresh builders through the suite's calls. Each postcondition states the expectation for every SDK setting, id and argument.

The SDK's one-time initialisation becomes an explicit `SdkConfig` value
passed to every factory. The suite's `toMatch` against a URL is modelled as
literal substring containment. That is stronger than the regular-expression
match the suite performs, because each pattern also matches itself.

## Model

| member | source | states |
|---|---|---|
| `EmbedSdk.CreateDashboardWithId` | tests/embed_builder.spec.ts:46-49 | a fresh, unconfigured builder of kind dashboard, named by the given id, holding the SDK settings |
| `EmbedSdk.CreateDashboardWithUrl` | tests/embed_builder.spec.ts:61-64 | a fresh, unconfigured builder of kind dashboard, named by the given URL |
| `EmbedSdk.CreateLookWithId` | tests/embed_builder.spec.ts:76-79 | a fresh, unconfigured builder of kind look, named by the given id |
| `EmbedSdk.CreateLookWithUrl` | tests/embed_builder.spec.ts:91-94 | a fresh, unconfigured builder of kind look, named by the given URL |
| `EmbedSdk.CreateExploreWithId` | tests/embed_builder.spec.ts:106-109 | a fresh, unconfigured builder of kind explore, named by the given id |
| `EmbedSdk.CreateExploreWithUrl` | tests/embed_builder.spec.ts:121-124 | a fresh, unconfigured builder of kind explore, named by the given URL |
| `Builder.EmbedBuilder.constructor` | tests/embed_builder.spec.ts:174-195 | a new builder has no parameters, handlers, sandbox tokens or class names, frame border `"0"` and the body as target |
| `Builder.EmbedBuilder.Type` | tests/embed_builder.spec.ts:52 | the tag is one of `dashboard`, `look` and `explore`, and the URL path segment is that tag followed by `s` |
| `Builder.EmbedBuilder.ClientConstructor` | tests/embed_builder.spec.ts:53 | the client class is the one that serves the builder's kind |
| `Builder.EmbedBuilder.Url` | tests/embed_builder.spec.ts:72 | `url` is defined exactly when the builder was created from a URL, and is then that URL unchanged |
| `Builder.EmbedBuilder.ApiHost` | tests/embed_builder.spec.ts:198 | the API host is the one given at initialisation, and an id-based embed URL begins with `https://{apiHost}/embed/` |
| `Builder.EmbedBuilder.AuthUrl` | tests/embed_builder.spec.ts:202 | the auth URL is the one given at initialisation; no configuration call affects it |
| `Builder.EmbedBuilder.EmbedUrl` | tests/embed_builder.spec.ts:56-58 | for an id-based builder the URL, recomputed from the current state, begins with `https://{apiHost}/embed/{type}s/{id}` |
| `Builder.EmbedBuilder.On` | tests/embed_builder.spec.ts:141-145 | the handler is appended to that event's handlers, a new event starting from none; other events are untouched |
| `Builder.EmbedBuilder.WithParams` | tests/embed_builder.spec.ts:147-150 | the parameters become the old ones with each given property assigned in order, and keys stay distinct |
| `Builder.EmbedBuilder.WithSandboxAttr` | tests/embed_builder.spec.ts:152-161 | the tokens are appended after the existing ones, in order, duplicates kept |
| `Builder.EmbedBuilder.WithClassName` | tests/embed_builder.spec.ts:163-172 | the class names are appended after the existing ones, in order, duplicates kept |
| `Builder.EmbedBuilder.WithFrameBorder` | tests/embed_builder.spec.ts:192-195 | the frame border becomes the given value |
| `Builder.EmbedBuilder.AppendTo` | tests/embed_builder.spec.ts:178-186 | the attachment target becomes the given element |
| `EmbedTypes.PathSegment` | tests/embed_builder.spec.ts:57 | the URL path segment of a kind is its tag followed by `s` |
| `EmbedTypes.ClientFor` | tests/embed_builder.spec.ts:53 | the client class chosen by a tag serves that tag's kind |
| `EmbedTypes.ClientForIsBijective` | tests/embed_builder.spec.ts:51-54 | the client class chosen by the type tag determines the tag back, and every client class is chosen by exactly one tag |
| `Strings.IntToString` | tests/embed_builder.spec.ts:148-149 | a number renders as a decimal literal: digits, optionally after one minus sign |
| `Strings.IntToStringRoundTrip` | tests/embed_builder.spec.ts:148-149 | reading the decimal rendering back gives the number |
| `Strings.IntToStringInjective` | tests/embed_builder.spec.ts:148-149 | distinct numbers render differently |
| `UrlParams.SetParam` | tests/embed_builder.spec.ts:148 | assigning a property appends a new key at the end, keeps an existing key in place, stores the value and leaves every other key's value alone |
| `UrlParams.SetParamKeepsKeysDistinct` | tests/embed_builder.spec.ts:148 | assigning a property never duplicates a key |
| `UrlParams.MergeParams` | tests/embed_builder.spec.ts:148 | merging keeps keys distinct, leaves every key not given alone, and the key of the last entry given holds that entry's value |
| `UrlParams.MergeParamsLookup` | tests/embed_builder.spec.ts:148 | after a merge, every key given holds the last value given for it, and every other key keeps the value it had |
| `UrlParams.MergeFreshKeysAppends` | tests/embed_builder.spec.ts:147-150 | parameters with fresh distinct keys are appended in the order given |
| `UrlParams.QueryString` | tests/embed_builder.spec.ts:149 | the query string is empty exactly when there are no parameters, and otherwise begins with the first `key=value` pair |
| `UrlParams.QueryStringEndsWith` | tests/embed_builder.spec.ts:149 | the last two parameters close the query string as `k1=v1&k2=v2` |
| `UrlParams.QueryStringRoundTrip` | tests/embed_builder.spec.ts:147-150 | when no key holds `&` or `=` and no value holds `&`, parsing the query string gives back every key with its rendered value, in order |
| `EmbedUrls.EmbedUrlOf` | tests/embed_builder.spec.ts:57 | an id-based URL begins with `https://{apiHost}/embed/{type}s/{id}`, followed by `?` when there are parameters |
| `EmbedUrls.EmbedUrlStartsWithBase` | tests/embed_builder.spec.ts:56-58 | an id-based URL begins with, and contains, `https://{apiHost}/embed/{type}s/{id}` whatever the parameters |
| `EmbedUrls.EmbedUrlShowsHostKindAndId` | tests/embed_builder.spec.ts:116-118 | the host, the plural type and the id each appear in an id-based URL verbatim |
| `EmbedUrls.EmbedUrlCarriesNewParams` | tests/embed_builder.spec.ts:147-150 | two parameters with fresh keys added in one call appear in the URL as `k1=v1&k2=v2`, in order |
| `EmbedUrls.EmbedUrlSplits` | tests/embed_builder.spec.ts:147-150 | when neither host nor id holds `?`, an id-based URL splits at its first `?` into the base URL and the query string |
| `EmbedUrls.EmbedUrlParamsRoundTrip` | tests/embed_builder.spec.ts:147-150 | when neither the host nor the id holds `?`, no key holds `&` or `=` and no rendered value holds `&`, the parameters can be read back from an id-based URL, each key with its rendered value, in insertion order |
| `EmbedBuilderSpec.FactoriesSetTypeAndClient` | tests/embed_builder.spec.ts:46-134 | the id and URL factories give the same tags and clients: dashboard/LookerEmbedDashboard, look/LookerEmbedLook, explore/LookerEmbedExplore |
| `EmbedBuilderSpec.DashboardsWithId` | tests/embed_builder.spec.ts:46-59 | tag `dashboard`, client LookerEmbedDashboard, URL containing `https://{apiHost}/embed/dashboards/{id}` |
| `EmbedBuilderSpec.DashboardsWithUrl` | tests/embed_builder.spec.ts:61-74 | tag `dashboard`, client LookerEmbedDashboard, `url` equal to the given URL |
| `EmbedBuilderSpec.LooksWithId` | tests/embed_builder.spec.ts:76-89 | tag `look`, client LookerEmbedLook, URL containing `https://{apiHost}/embed/looks/{id}` |
| `EmbedBuilderSpec.LooksWithUrl` | tests/embed_builder.spec.ts:91-104 | tag `look`, client LookerEmbedLook, `url` equal to the given URL |
| `EmbedBuilderSpec.ExploresWithId` | tests/embed_builder.spec.ts:106-119 | tag `explore`, client LookerEmbedExplore, URL containing `https://{apiHost}/embed/explores/{id}` |
| `EmbedBuilderSpec.ExploresWithUrl` | tests/embed_builder.spec.ts:121-134 | tag `explore`, client LookerEmbedExplore, `url` equal to the given URL |
| `EmbedBuilderSpec.SampleNumericIdRendersAsWritten` | tests/embed_builder.spec.ts:48-57 | the numeric id 11 is written `11` in a URL |
| `EmbedBuilderSpec.SampleDashboardUrlAsWritten` | tests/embed_builder.spec.ts:57 | with host `host.looker.com:9999` and id 11 the expected dashboard URL is the suite's literal |
| `EmbedBuilderSpec.SampleLookUrlAsWritten` | tests/embed_builder.spec.ts:87 | with host `host.looker.com:9999` and id 11 the expected look URL is the suite's literal |
| `EmbedBuilderSpec.SampleExploreUrlAsWritten` | tests/embed_builder.spec.ts:117 | with host `host.looker.com:9999` and id `alpha:beta` the expected explore URL is the suite's literal |
| `EmbedBuilderSpec.OnRegistersHandlersInOrder` | tests/embed_builder.spec.ts:141-145 | on a fresh builder one `on` gives exactly `[h]` for that event, and a second gives `[h, h2]` |
| `EmbedBuilderSpec.WithParamsShowsInUrl` | tests/embed_builder.spec.ts:147-150 | after `withParams({alpha: 1, beta: 2})` the URL contains `alpha=1&beta=2` |
| `EmbedBuilderSpec.SampleParamsInUrl` | tests/embed_builder.spec.ts:147-150 | `{alpha: 1, beta: 2}` merged onto no parameters shows as `alpha=1&beta=2` in any id-based dashboard URL |
| `EmbedBuilderSpec.SampleParamsRender` | tests/embed_builder.spec.ts:149 | the sample pairs render as `alpha=1` and `beta=2`, numbers in decimal |
| `EmbedBuilderSpec.SandboxAttrsAppend` | tests/embed_builder.spec.ts:152-161 | two one-token calls and one two-token call both give `[a, b]` |
| `EmbedBuilderSpec.ClassNamesAppend` | tests/embed_builder.spec.ts:163-172 | two one-name calls and one two-name call both give `[a, b]` |
| `EmbedBuilderSpec.AppendToOverridesBody` | tests/embed_builder.spec.ts:174-186 | the target is the body until `appendTo` names an element, then that element |
| `EmbedBuilderSpec.FrameBorderDefaultsToZero` | tests/embed_builder.spec.ts:188-195 | the frame border is `"0"` on a fresh builder and the given value after `withFrameBorder` |
| `EmbedBuilderSpec.ApiHostAndAuthUrl` | tests/embed_builder.spec.ts:197-203 | `apiHost` and `authUrl` are exactly the values given at initialisation |

## Left out

- `build()`, the iframe it creates and the returned `EmbedClient` (tests/embed_builder.spec.ts:206-215) are not modelled. They change the live DOM and depend on client classes outside this model.
- The client classes `LookerEmbedDashboard`, `LookerEmbedLook` and `LookerEmbedExplore`, and cross-frame message dispatch, are outside this model. `clientConstructor` is only the choice of class.
- `appendTo` with a CSS selector (tests/embed_builder.spec.ts:178-181) resolves the selector through the document, which is not modelled. `AppendTo` takes the element already resolved. Elements are opaque references, so the document body is a distinct `Body` value.
- Handlers are opaque callback references (the suite uses spies). Rejecting a handler that is not callable is left to the type system and is not modelled.
- Calling a factory before the SDK is initialised cannot happen here, because the settings are an explicit argument.
- Strings.IntToString: renders every integer in plain decimal. JavaScript numbers are doubles, so this matches a template literal only for magnitudes below 10^21 (larger ones print in exponent form, such as `1e+21`) and exactly only up to 2^53. Numeric ids and numeric parameter values are faithful within that range.
- Ids and parameter values are integers or strings. Fractional numbers and booleans are not modelled, because they would need floating-point rendering.
- Percent-encoding of keys and values is not modelled. The query string carries them as they are, so the round trip holds only for keys free of `&` and `=` and rendered values free of `&`.
- A new builder starts with no parameters. Any default parameters the implementation adds at construction are not visible here. The URL properties hold for any starting parameters.
- JavaScript lists integer-like property names (such as `"1"`) before other names. The parameter list always keeps insertion order.
- Merging a key that is already present follows the documented shallow merge: the later value wins in the earlier position. The suite does not exercise this.
- A URL-based builder's `embedUrl` passes the given URL through, following the documented behaviour. The suite does not exercise this, and no property is proved about it.
- The configuration methods return nothing, where the source returns the same builder so that calls can be chained. A chain is modelled as the same calls made one after another on one object.
- Configuring a builder after `build()`, and calling `build()` twice, are not modelled.
