/**
 * The response containers of the client (Artist, Album, Song, Tag, Playlist,
 * Video), the resolution of a tag name to one of them, their construction
 * from keyword arguments, and the exceptions the client can raise.
 */
module Entities {
  import opened Wrappers
  import opened Strings

  /** One `(owner id, tag text)` pair of an entity's `tags` list. */
  type TagPair = (string, string)

  /** An attribute value: a string from the XML, or the list of tag pairs. */
  datatype Value = Str(s: string) | Tags(pairs: seq<TagPair>)

  /** An attribute: `None` when the response did not report it. */
  type Field = Option<Value>

  /** The six container classes, as a closed enumeration. */
  datatype Kind = ArtistKind | AlbumKind | SongKind | TagKind | PlaylistKind | VideoKind

  /** The Python class name of a kind. */
  function ClassName(k: Kind): string
  {
    match k
    case ArtistKind => "Artist"
    case AlbumKind => "Album"
    case SongKind => "Song"
    case TagKind => "Tag"
    case PlaylistKind => "Playlist"
    case VideoKind => "Video"
  }

  /** The XML element name the server uses for a kind. */
  function ElementName(k: Kind): string
  {
    match k
    case ArtistKind => "artist"
    case AlbumKind => "album"
    case SongKind => "song"
    case TagKind => "tag"
    case PlaylistKind => "playlist"
    case VideoKind => "video"
  }

  /** The keyword parameters of each class's `__init__`, in declaration order. */
  function Params(k: Kind): seq<string>
  {
    match k
    case ArtistKind => ["id", "name", "albums", "songs", "tags", "preciserating", "rating"]
    case AlbumKind => ["id", "name", "artist", "artistid", "tracks", "disk", "tags", "art", "preciserating", "rating"]
    case SongKind =>
      ["id", "title", "mime", "genre", "genreid", "artist", "artistid", "album", "albumid", "tags",
       "track", "time", "url", "size", "art", "preciserating", "rating"]
    case TagKind => ["id", "name", "albums", "songs", "video", "playlist", "stream"]
    case PlaylistKind => ["id", "name", "owner", "items", "tags", "type"]
    case VideoKind => ["id", "title", "mime", "resolution", "size", "tags", "url"]
  }

  /** Every class takes `id` first, none takes `tag` or `tagid`, and all but `Tag` take `tags`. */
  lemma ParamNames(k: Kind)
    ensures |Params(k)| > 0 && Params(k)[0] == "id"
    ensures "tag" !in Params(k) && "tagid" !in Params(k)
    ensures "tags" in Params(k) <==> k != TagKind
  {
    NoTagParams(k);
    TagsParam(k);
  }

  lemma NoTagParams(k: Kind)
    ensures "tag" !in Params(k) && "tagid" !in Params(k)
  {
  }

  lemma TagsParam(k: Kind)
    ensures "tags" in Params(k) <==> k != TagKind
  {
    match k
    case ArtistKind => assert Params(k)[4] == "tags";
    case AlbumKind => assert Params(k)[6] == "tags";
    case SongKind => assert Params(k)[9] == "tags";
    case TagKind =>
    case PlaylistKind => assert Params(k)[4] == "tags";
    case VideoKind => assert Params(k)[5] == "tags";
  }

  /**
   * A constructed container: every parameter of its class becomes an
   * attribute, `None` when no keyword argument supplied it. (Playlist's
   * `type` attribute is the field `playlistType`, `type` being reserved.)
   */
  datatype Entity =
    | Artist(id: Field, name: Field, albums: Field, songs: Field, tags: Field, preciserating: Field,
             rating: Field)
    | Album(id: Field, name: Field, artist: Field, artistid: Field, tracks: Field, disk: Field, tags: Field,
            art: Field, preciserating: Field, rating: Field)
    | Song(id: Field, title: Field, mime: Field, genre: Field, genreid: Field, artist: Field, artistid: Field,
           album: Field, albumid: Field, tags: Field, track: Field, time: Field, url: Field, size: Field,
           art: Field, preciserating: Field, rating: Field)
    | Tag(id: Field, name: Field, albums: Field, songs: Field, video: Field, playlist: Field, stream: Field)
    | Playlist(id: Field, name: Field, owner: Field, items: Field, tags: Field, playlistType: Field)
    | Video(id: Field, title: Field, mime: Field, resolution: Field, size: Field, tags: Field, url: Field)

  function KindOf(e: Entity): Kind
  {
    match e
    case Artist(_, _, _, _, _, _, _) => ArtistKind
    case Album(_, _, _, _, _, _, _, _, _, _) => AlbumKind
    case Song(_, _, _, _, _, _, _, _, _, _, _, _, _, _, _, _, _) => SongKind
    case Tag(_, _, _, _, _, _, _) => TagKind
    case Playlist(_, _, _, _, _, _) => PlaylistKind
    case Video(_, _, _, _, _, _, _) => VideoKind
  }

  /** The attributes of a container, listed in the order of its class's parameters. */
  function Attributes(e: Entity): (vs: seq<Field>)
    ensures |vs| == |Params(KindOf(e))|
  {
    match e
    case Artist(a0, a1, a2, a3, a4, a5, a6) => [a0, a1, a2, a3, a4, a5, a6]
    case Album(a0, a1, a2, a3, a4, a5, a6, a7, a8, a9) => [a0, a1, a2, a3, a4, a5, a6, a7, a8, a9]
    case Song(a0, a1, a2, a3, a4, a5, a6, a7, a8, a9, a10, a11, a12, a13, a14, a15, a16) =>
      [a0, a1, a2, a3, a4, a5, a6, a7, a8, a9, a10, a11, a12, a13, a14, a15, a16]
    case Tag(a0, a1, a2, a3, a4, a5, a6) => [a0, a1, a2, a3, a4, a5, a6]
    case Playlist(a0, a1, a2, a3, a4, a5) => [a0, a1, a2, a3, a4, a5]
    case Video(a0, a1, a2, a3, a4, a5, a6) => [a0, a1, a2, a3, a4, a5, a6]
  }

  /** `attribute(**d)` would accept `d`: every key names a parameter of the class. */
  predicate Accepts(k: Kind, d: map<string, Value>)
  {
    forall key :: key in d ==> key in Params(k)
  }

  /** An exception code: the integer 9001 raised by the client itself, or the server's `code` attribute. */
  datatype Code = Number(n: nat) | AttributeText(s: string)

  /** The exceptions the modelled code raises. */
  datatype Error =
    | AmpacheAPIError(code: Code, message: string)
      // TypeError from `constructor(**d)`: a key of d is not a parameter of the class
    | UnexpectedKeyword(kind: Kind)
      // the `assert len(errors) == 1` in `_request`
    | AssertionError
      // a missing dictionary key, such as `['auth']` in `__init__`
    | KeyError(key: string)
      // `dom.childNodes[0]` of a document without nodes
    | IndexError
      // `[song] = ...` in `url_to_song` when the list does not hold exactly one song
    | ValueError(count: nat)
      // a method a node type does not have, such as `hasAttribute` on a comment
    | AttributeError(methodName: string)
      // TypeError from calling a class without `__init__` (`xml.dom.Node`) with keyword arguments
    | NoArguments

  /** `str(code)` */
  function CodeText(c: Code): string
  {
    match c
    case Number(n) => Decimal(n)
    case AttributeText(s) => s
  }

  /** `AmpacheAPIError.__str__`: the code and the message, after the word ERROR. */
  function ErrorString(code: Code, message: string): (s: string)
    ensures |s| >= 8 + |message|
    ensures s[..6] == "ERROR " && s[|s| - |message|..] == message
    ensures s[|s| - |message| - 2..|s| - |message|] == ": "
    ensures s[6..|s| - |message| - 2] == CodeText(code)
    ensures code.Number? ==> s[6..|s| - |message| - 2] == Decimal(code.n)
    ensures code.AttributeText? ==> s[6..|s| - |message| - 2] == code.s
  {
    var c := CodeText(code);
    assert code.Number? ==> |c| > 0;
    "ERROR " + c + ": " + message
  }

  /** The number printed in the message of a client-raised error, such as 9001, reads back as that number. */
  lemma ErrorCodeReadsBack(n: nat, message: string)
    ensures var s := ErrorString(Number(n), message);
            ParseDecimal(s[6..|s| - |message| - 2]) == n
  {
    DecimalRoundTrip(n);
  }

  /**
   * `__init__` called with the keyword arguments `d`: every parameter
   * becomes an attribute, the value given for it or the default `None`.
   */
  function Build(k: Kind, d: map<string, Value>): (e: Entity)
    ensures KindOf(e) == k && e.id == Get(d, "id")
  {
    match k
    case ArtistKind =>
      Artist(Get(d, "id"), Get(d, "name"), Get(d, "albums"), Get(d, "songs"), Get(d, "tags"),
             Get(d, "preciserating"), Get(d, "rating"))
    case AlbumKind =>
      Album(Get(d, "id"), Get(d, "name"), Get(d, "artist"), Get(d, "artistid"), Get(d, "tracks"),
            Get(d, "disk"), Get(d, "tags"), Get(d, "art"), Get(d, "preciserating"), Get(d, "rating"))
    case SongKind =>
      Song(Get(d, "id"), Get(d, "title"), Get(d, "mime"), Get(d, "genre"), Get(d, "genreid"),
           Get(d, "artist"), Get(d, "artistid"), Get(d, "album"), Get(d, "albumid"), Get(d, "tags"),
           Get(d, "track"), Get(d, "time"), Get(d, "url"), Get(d, "size"), Get(d, "art"),
           Get(d, "preciserating"), Get(d, "rating"))
    case TagKind =>
      Tag(Get(d, "id"), Get(d, "name"), Get(d, "albums"), Get(d, "songs"), Get(d, "video"),
          Get(d, "playlist"), Get(d, "stream"))
    case PlaylistKind =>
      Playlist(Get(d, "id"), Get(d, "name"), Get(d, "owner"), Get(d, "items"), Get(d, "tags"),
               Get(d, "type"))
    case VideoKind =>
      Video(Get(d, "id"), Get(d, "title"), Get(d, "mime"), Get(d, "resolution"), Get(d, "size"),
            Get(d, "tags"), Get(d, "url"))
  }

  /**
   * `constructor(**d)`: raises TypeError unless every key of `d` is a
   * parameter of the class, and is `__init__` otherwise.
   */
  function Construct(k: Kind, d: map<string, Value>): (r: Result<Entity, Error>)
    ensures r.Success? <==> Accepts(k, d)
    ensures r.Failure? ==> r.error == UnexpectedKeyword(k)
  {
    if !Accepts(k, d) then Failure(UnexpectedKeyword(k)) else Success(Build(k, d))
  }

  /**
   * The attributes of a constructed container: it has the requested class,
   * and its i-th attribute is the keyword argument for the i-th parameter,
   * `None` when none was given.
   */
  lemma ConstructAttributes(k: Kind, d: map<string, Value>, i: nat)
    requires Construct(k, d).Success? && i < |Params(k)|
    ensures KindOf(Construct(k, d).value) == k
    ensures Attributes(Construct(k, d).value)[i] == Get(d, Params(k)[i])
  {
    BuildAttributes(k, d, i);
  }

  /** Attribute `i` of the container `__init__` builds is the keyword argument for parameter `i`, or `None`. */
  lemma BuildAttributes(k: Kind, d: map<string, Value>, i: nat)
    requires i < |Params(k)|
    ensures KindOf(Build(k, d)) == k
    ensures Attributes(Build(k, d))[i] == Get(d, Params(k)[i])
  {
  }

  /** A `tags` keyword argument makes the container one that takes tags, and becomes its `tags` attribute. */
  lemma ConstructTags(k: Kind, d: map<string, Value>)
    requires Construct(k, d).Success? && "tags" in d
    ensures !Construct(k, d).value.Tag? && Construct(k, d).value.tags == Some(d["tags"])
  {
    ParamNames(k);
  }

  /**
   * `globals()[tagname.title()]` restricted to the six container classes:
   * the kind whose class name is the title-cased tag name, if any.
   */
  function ResolveKind(tagname: string): (r: Option<Kind>)
    ensures r.Some? ==> Title(tagname) == ClassName(r.value)
    ensures r.None? ==> forall k: Kind :: Title(tagname) != ClassName(k)
  {
    var t := Title(tagname);
    if t == "Artist" then Some(ArtistKind)
    else if t == "Album" then Some(AlbumKind)
    else if t == "Song" then Some(SongKind)
    else if t == "Tag" then Some(TagKind)
    else if t == "Playlist" then Some(PlaylistKind)
    else if t == "Video" then Some(VideoKind)
    else None
  }

  /**
   * A tag name resolves to kind `k` exactly when it spells `k`'s element name
   * in any mix of upper and lower case; every other name resolves to nothing.
   */
  lemma ResolveKindIgnoresCase(tagname: string, k: Kind)
    ensures ResolveKind(tagname) == Some(k) <==> Lower(tagname) == ElementName(k)
  {
    TitleMatchesWord(tagname, ClassName(k));
    LowerClassName(k);
    ResolveKindByTitle(tagname, k);
  }

  /** The lookup finds kind `k` exactly when the title-cased name is `k`'s class name. */
  lemma ResolveKindByTitle(tagname: string, k: Kind)
    ensures ResolveKind(tagname) == Some(k) <==> Title(tagname) == ClassName(k)
  {
    var t := Title(tagname);
    if t == ClassName(k) {
      match k
      case ArtistKind =>
      case AlbumKind => assert t != "Artist";
      case SongKind => assert t != "Artist" && t != "Album";
      case TagKind => assert t != "Artist" && t != "Album" && t != "Song";
      case PlaylistKind => assert t != "Artist" && t != "Album" && t != "Song" && t != "Tag";
      case VideoKind => assert t != "Artist" && t != "Album" && t != "Song" && t != "Tag" && t != "Playlist";
    }
  }

  lemma LowerClassName(k: Kind)
    ensures IsCapitalisedWord(ClassName(k)) && Lower(ClassName(k)) == ElementName(k)
  {
    LowerOfCapitalised(ClassName(k));
  }

  /** The lower-case element names the server sends resolve to their own classes. */
  lemma ResolveElementName(k: Kind)
    ensures ResolveKind(ElementName(k)) == Some(k)
  {
    LowerOfLowers(ElementName(k));
    ResolveKindIgnoresCase(ElementName(k), k);
  }

  /**
   * What `globals()[tagname.title()]` finds in the module as written: one of
   * the six container classes, or `Node`, which the module imports from
   * `xml.dom` and which is spelt like a title-cased word.
   */
  datatype Global = ContainerClass(kind: Kind) | DomNode

  function ResolveGlobal(tagname: string): (r: Option<Global>)
    ensures r == Some(DomNode) <==> Title(tagname) == "Node"
    ensures r.Some? && r.value.ContainerClass? ==> ResolveKind(tagname) == Some(r.value.kind)
    ensures r.None? <==> Title(tagname) != "Node" && ResolveKind(tagname).None?
  {
    if Title(tagname) == "Node" then Some(DomNode)
    else
      match ResolveKind(tagname)
      case None => None
      case Some(k) => Some(ContainerClass(k))
  }

  /**
   * The module's globals resolve a tag name to `Node` exactly when it spells
   * `node` in any case; every other name resolves as the six classes do.
   */
  lemma ResolveGlobalNode(tagname: string)
    ensures ResolveGlobal(tagname) == Some(DomNode) <==> Lower(tagname) == "node"
    ensures Lower(tagname) == "node" ==> ResolveKind(tagname) == None
    ensures Lower(tagname) != "node" && ResolveKind(tagname).Some? ==>
              ResolveGlobal(tagname) == Some(ContainerClass(ResolveKind(tagname).value))
    ensures Lower(tagname) != "node" && ResolveKind(tagname).None? ==> ResolveGlobal(tagname) == None
  {
    LowerOfCapitalised("Node");
    TitleMatchesWord(tagname, "Node");
    if ResolveKind(tagname).Some? {
      ResolveKindIgnoresCase(tagname, ResolveKind(tagname).value);
    }
  }
}
