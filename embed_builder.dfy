/**
 * The embed builder: one object per embed, created by a factory with its
 * resource kind and either an id or a ready-made URL, then configured by
 * successive calls that change its fields in place, and read back through
 * derived properties.
 */
module Builder {
  import opened Wrappers
  import opened EmbedTypes
  import opened UrlParams
  import opened EmbedUrls

  /** The handlers registered under `name` so far; none when the name is new. */
  function HandlersOf(handlers: map<string, seq<Callback>>, name: string): seq<Callback> {
    if name in handlers then handlers[name] else []
  }

  class EmbedBuilder {
    /** The SDK settings given at initialisation. */
    const sdk: SdkConfig
    /** The `type` tag, fixed at construction. */
    const kind: EmbedType
    /** The id or the URL the builder was created from. */
    const source: Source

    var params: seq<Param>
    var handlers: map<string, seq<Callback>>
    var sandboxAttrs: seq<string>
    var classNames: seq<string>
    var frameBorder: string
    var el: Target

    /** The parameters behave as a JavaScript object's properties: no key twice. */
    ghost predicate Valid()
      reads this
    {
      DistinctKeys(params)
    }

    /** The configuration a builder starts from. */
    ghost predicate Unconfigured()
      reads this
    {
      && params == []
      && handlers == map[]
      && sandboxAttrs == []
      && classNames == []
      && frameBorder == "0"
      && el == Body
    }

    constructor (sdk: SdkConfig, kind: EmbedType, source: Source)
      ensures this.sdk == sdk && this.kind == kind && this.source == source
      ensures Valid() && Unconfigured()
    {
      this.sdk := sdk;
      this.kind := kind;
      this.source := source;
      params := [];
      handlers := map[];
      sandboxAttrs := [];
      classNames := [];
      frameBorder := "0";
      el := Body;
    }

    /** The `type` tag: one of `dashboard`, `look` and `explore`, pluralised in the URL path. */
    function Type(): (tag: string)
      ensures tag == "dashboard" || tag == "look" || tag == "explore"
      ensures tag + "s" == PathSegment(kind)
    {
      TypeName(kind)
    }

    /** The client class chosen by the type tag: the one serving the builder's kind. */
    function ClientConstructor(): (client: ClientKind)
      ensures KindOfClient(client) == kind
    {
      ClientFor(kind)
    }

    /** The URL the builder was created from, unchanged; none for an id-based builder. */
    function Url(): (url: Option<string>)
      ensures url.Some? <==> source.ByUrl?
      ensures url.Some? ==> url.value == source.url
    {
      match source
      case ByUrl(u) => Some(u)
      case ById(_) => None
    }

    /** The API host given at initialisation: the host an id-based embed URL points at. */
    function ApiHost(): (host: string)
      reads this
      ensures host == sdk.apiHost
      ensures source.ById? ==> "https://" + host + "/embed/" <= EmbedUrl()
    {
      sdk.apiHost
    }

    /** The auth URL given at initialisation, whatever the builder's configuration. */
    function AuthUrl(): (authUrl: string)
      ensures authUrl == sdk.authUrl
    {
      sdk.authUrl
    }

    /**
     * The embed URL computed from the current state. For an id-based
     * builder it begins with `https://{apiHost}/embed/{type}s/{id}`.
     */
    function EmbedUrl(): (url: string)
      reads this
      ensures source.ById? ==> BaseUrl(sdk.apiHost, kind, source.id) <= url
    {
      EmbedUrlOf(sdk.apiHost, kind, source, params)
    }

    /** Registers `handler` for the event `name`, after any handlers it already has. */
    method On(name: string, handler: Callback)
      modifies this`handlers
      ensures handlers == old(handlers)[name := HandlersOf(old(handlers), name) + [handler]]
    {
      handlers := handlers[name := HandlersOf(handlers, name) + [handler]];
    }

    /** Assigns each parameter of `more`, in order, onto the current parameters. */
    method WithParams(more: seq<Param>)
      requires Valid()
      modifies this`params
      ensures Valid()
      ensures params == MergeParams(old(params), more)
    {
      var i := 0;
      while i < |more|
        invariant 0 <= i <= |more|
        invariant params == MergeParams(old(params), more[..i])
      {
        assert more[..i + 1][..i] == more[..i];
        params := SetParam(params, more[i].key, more[i].value);
        i := i + 1;
      }
      assert more[..|more|] == more;
    }

    /** Appends sandbox tokens, in order, keeping any duplicates. */
    method WithSandboxAttr(attrs: seq<string>)
      modifies this`sandboxAttrs
      ensures sandboxAttrs == old(sandboxAttrs) + attrs
    {
      sandboxAttrs := sandboxAttrs + attrs;
    }

    /** Appends class names, in order, keeping any duplicates. */
    method WithClassName(names: seq<string>)
      modifies this`classNames
      ensures classNames == old(classNames) + names
    {
      classNames := classNames + names;
    }

    /** Replaces the frame border. */
    method WithFrameBorder(border: string)
      modifies this`frameBorder
      ensures frameBorder == border
    {
      frameBorder := border;
    }

    /** Replaces the attachment target. */
    method AppendTo(target: Target)
      modifies this`el
      ensures el == target
    {
      el := target;
    }
  }
}
