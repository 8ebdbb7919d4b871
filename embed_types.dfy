/**
 * The value-level vocabulary of an embed: which kind of resource is
 * embedded, which client class drives it, how it is identified, where the
 * frame is attached, and the SDK settings fixed at initialisation.
 */
module EmbedTypes {
  import opened Strings

  /** The three kinds of embeddable resource. */
  datatype EmbedType = Dashboard | Look | Explore

  /**
   * The client class a builder hands its frame to. The classes themselves
   * are not part of this model; only which one is chosen.
   */
  datatype ClientKind = LookerEmbedDashboard | LookerEmbedLook | LookerEmbedExplore

  /** The builder's `type` tag. */
  function TypeName(t: EmbedType): string {
    match t
    case Dashboard => "dashboard"
    case Look => "look"
    case Explore => "explore"
  }

  /** The path segment of an embed URL: the plural of the type tag, the tag followed by `s`. */
  function PathSegment(t: EmbedType): (s: string)
    ensures TypeName(t) <= s && s[|TypeName(t)|..] == "s"
  {
    TypeName(t) + "s"
  }

  /** The builder's `clientConstructor`, fixed by the type tag: the client class serving that kind. */
  function ClientFor(t: EmbedType): (c: ClientKind)
    ensures KindOfClient(c) == t
  {
    match t
    case Dashboard => LookerEmbedDashboard
    case Look => LookerEmbedLook
    case Explore => LookerEmbedExplore
  }

  /** The resource kind a client class serves. */
  function KindOfClient(c: ClientKind): EmbedType {
    match c
    case LookerEmbedDashboard => Dashboard
    case LookerEmbedLook => Look
    case LookerEmbedExplore => Explore
  }

  /** Each resource kind has its own client class and every client class serves one kind. */
  lemma ClientForIsBijective(t: EmbedType, c: ClientKind)
    ensures KindOfClient(ClientFor(t)) == t
    ensures ClientFor(KindOfClient(c)) == c
  {
    match t
    case Dashboard =>
    case Look =>
    case Explore =>
  }

  /** A resource id: a number or a string such as `alpha:beta`. */
  datatype ResourceId = NumericId(n: int) | TextId(text: string)

  /** How an id is written into a URL: numbers in decimal, strings verbatim. */
  function IdString(id: ResourceId): string {
    match id
    case NumericId(n) => IntToString(n)
    case TextId(s) => s
  }

  /** What a builder was created from: an id, or a ready-made embed URL. */
  datatype Source = ById(id: ResourceId) | ByUrl(url: string)

  /**
   * Where the frame is attached: the document body, or one element, named
   * by an opaque reference.
   */
  datatype Target = Body | Element(node: nat)

  /** An event handler, named by an opaque reference to the callback. */
  datatype Callback = Callback(ref: nat)

  /** The settings passed once to the SDK's initialisation. */
  datatype SdkConfig = SdkConfig(apiHost: string, authUrl: string)
}
