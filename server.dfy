/**
 * `AmpacheServer`: the request pipeline (falsy parameters dropped, the
 * session's `auth` added when missing, `error` elements of the reply turned
 * into exceptions), the handshake, and the data methods built on it. The
 * network (`urlopen` of the URL, then `parse`) is the server's `transport`
 * function from endpoint and query to the parsed reply.
 */
module Server {
  import opened Wrappers
  import opened Strings
  import opened Dom
  import opened Entities
  import opened Parsing
  import opened Handshake

  /** The keyword argument values the client passes to `_request`. */
  datatype Param = NoneParam | BoolParam(b: bool) | IntParam(i: int) | StrParam(s: string)

  /** Python truth of a value: `None`, `False`, `0` and `''` are false. */
  predicate Truthy(v: Param)
  {
    match v
    case NoneParam => false
    case BoolParam(b) => b
    case IntParam(i) => i != 0
    case StrParam(s) => s != ""
  }

  /** The keyword arguments of a request, by name. */
  type Query = map<string, Param>

  /** Endpoint and query to the parsed reply of the server. */
  type Transport = (string, Query) -> Document

  /** The API version the handshake announces. */
  const Version: int := 350001

  /** The script path `__init__` joins to the server address. */
  const ScriptPath: string := "server/xml.server.php?"

  /** `posixpath.join(server, 'server/xml.server.php?')`: one `/` between the two unless `server` is empty or ends in `/`. */
  function Endpoint(server: string): (url: string)
    ensures |url| >= |server| + |ScriptPath| && url[|url| - |ScriptPath|..] == ScriptPath
    ensures url[..|server|] == server
    ensures server != [] && server[|server| - 1] != '/' ==> |url| == |server| + 1 + |ScriptPath| && url[|server|] == '/'
    ensures server == [] || server[|server| - 1] == '/' ==> |url| == |server| + |ScriptPath|
  {
    if server == [] || server[|server| - 1] == '/' then server + ScriptPath else server + "/" + ScriptPath
  }

  /** The truthy keyword arguments, unchanged. */
  function Filtered(kwargs: Query): Query
  {
    map key | key in kwargs && Truthy(kwargs[key]) :: kwargs[key]
  }

  /** The query `_request` sends: the truthy arguments and, unless one of them is `auth`, the session's `auth`. */
  function Sent(kwargs: Query, auth: string): Query
  {
    var f := Filtered(kwargs);
    if "auth" in f then f else f["auth" := StrParam(auth)]
  }

  /**
   * The sent query, key by key: `auth` is always sent, the caller's when it
   * is truthy and the session's otherwise; any other key is sent exactly
   * when the caller gave it a truthy value, and then unchanged.
   */
  lemma SentKeys(kwargs: Query, auth: string, key: string)
    ensures key in Sent(kwargs, auth) <==> key == "auth" || (key in kwargs && Truthy(kwargs[key]))
    ensures key in kwargs && Truthy(kwargs[key]) ==> Sent(kwargs, auth)[key] == kwargs[key]
    ensures !(key in kwargs && Truthy(kwargs[key])) && key == "auth" ==> Sent(kwargs, auth)[key] == StrParam(auth)
  {
  }

  /** Shaping is idempotent: sending an already shaped query again changes nothing. */
  lemma SentIdempotent(kwargs: Query, auth: string)
    ensures Sent(Sent(kwargs, auth), auth) == Sent(kwargs, auth)
  {
    var s := Sent(kwargs, auth);
    forall key
      ensures key in Sent(s, auth) <==> key in s
      ensures key in s ==> Sent(s, auth)[key] == s[key]
    {
      SentKeys(kwargs, auth, key);
      SentKeys(s, auth, key);
    }
  }

  /** With a non-empty session token every value sent is truthy. */
  lemma SentTruthy(kwargs: Query, auth: string, key: string)
    requires auth != "" && key in Sent(kwargs, auth)
    ensures Truthy(Sent(kwargs, auth)[key])
  {
    SentKeys(kwargs, auth, key);
  }

  /** The `error` elements of a reply, in document order. */
  function Errors(dom: Document): (es: seq<Node>)
    ensures forall i :: 0 <= i < |es| ==> es[i].Element? && es[i].tagName == "error"
  {
    ElementsByTagName(dom.childNodes, "error")
  }

  /**
   * The error scan of `_request`: a reply without `error` elements is
   * returned; one `error` element raises `AmpacheAPIError` with its `code`
   * attribute and its text; more than one fails the assertion.
   */
  function Checked(dom: Document): (r: Result<Document, Error>)
    ensures r.Success? <==> Errors(dom) == []
    ensures r.Success? ==> r.value == dom
    ensures r.Failure? && r.error.AmpacheAPIError? <==> |Errors(dom)| == 1
    ensures r.Failure? && r.error.AmpacheAPIError? ==>
              r.error.code == AttributeText(GetAttribute(Errors(dom)[0], "code"))
              && r.error.message == CharData(Errors(dom)[0].children)
  {
    var es := Errors(dom);
    if |es| == 0 then Success(dom)
    else if |es| == 1 then Failure(AmpacheAPIError(AttributeText(GetAttribute(es[0], "code")), CharData(es[0].children)))
    else Failure(AssertionError)
  }

  /**
   * A reply passes the scan, unchanged, exactly when no element anywhere in
   * it is named `error`; a failing reply raises `AmpacheAPIError` or the
   * assertion, nothing else.
   */
  lemma {:induction false} CheckedPasses(dom: Document)
    ensures Checked(dom).Success? <==>
              forall i :: 0 <= i < |Descendants(dom.childNodes)| ==> Descendants(dom.childNodes)[i].tagName != "error"
    ensures Checked(dom).Success? ==> Checked(dom).value == dom
    ensures Checked(dom).Failure? ==> Checked(dom).error.AmpacheAPIError? || Checked(dom).error == AssertionError
  {
    var ds := Descendants(dom.childNodes);
    ElementsByTagNameSelectsDescendants(dom.childNodes, "error");
    NamedEmpty(ds, "error");
  }

  lemma {:induction false} NamedEmpty(ns: seq<Node>, name: string)
    requires forall i :: 0 <= i < |ns| ==> ns[i].Element?
    ensures Named(ns, name) == [] <==> forall i :: 0 <= i < |ns| ==> ns[i].tagName != name
  {
    if ns != [] {
      NamedEmpty(ns[1..], name);
      assert forall i :: 1 <= i < |ns| ==> ns[i] == ns[1..][i - 1];
    }
  }

  /** The parameters `handshake` passes to `_request`. */
  function HandshakeQuery(passphrase: string, ts: string, username: string): Query
  {
    map["action" := StrParam("handshake"), "auth" := StrParam(passphrase), "timestamp" := StrParam(ts),
        "version" := IntParam(Version), "user" := StrParam(username)]
  }

  /**
   * The handshake sends its own passphrase as `auth`, whatever the session
   * holds, together with the action, the timestamp and the version; the
   * `user` parameter is dropped when the user name is empty.
   */
  lemma HandshakeSends(sha: string -> Digest, now: nat, password: string, username: string, session: string)
    ensures var ts := Decimal(now);
            Sent(HandshakeQuery(Passphrase(sha, ts, password), ts, username), session)
            == if username == "" then
                 map["action" := StrParam("handshake"), "auth" := StrParam(Passphrase(sha, ts, password)),
                     "timestamp" := StrParam(ts), "version" := IntParam(Version)]
               else HandshakeQuery(Passphrase(sha, ts, password), ts, username)
  {
    var ts := Decimal(now);
    var q := HandshakeQuery(Passphrase(sha, ts, password), ts, username);
    var expected := if username == "" then q - {"user"} else q;
    forall key
      ensures key in Sent(q, session) <==> key in expected
      ensures key in expected ==> Sent(q, session)[key] == expected[key]
    {
      SentKeys(q, session, key);
    }
    assert Sent(q, session) == expected;
  }

  /** The parameters of `artists(filter, exact, add, update)`. */
  function ArtistsQuery(filter: string, exact: bool, add: Param, update: Param): Query
  {
    map["action" := StrParam("artists"), "filter" := StrParam(filter), "exact" := BoolParam(exact),
        "add" := add, "update" := update]
  }

  /** `artists('Bach')` with the default `exact=False`, `add=None`, `update=None` sends the action, the filter and `auth` only. */
  lemma ArtistsDefaultsOmitted(auth: string)
    ensures Sent(ArtistsQuery("Bach", false, NoneParam, NoneParam), auth)
            == map["action" := StrParam("artists"), "filter" := StrParam("Bach"), "auth" := StrParam(auth)]
  {
    var q := ArtistsQuery("Bach", false, NoneParam, NoneParam);
    var expected := map["action" := StrParam("artists"), "filter" := StrParam("Bach"), "auth" := StrParam(auth)];
    forall key
      ensures key in Sent(q, auth) <==> key in expected
      ensures key in expected ==> Sent(q, auth)[key] == expected[key]
    {
      SentKeys(q, auth, key);
    }
    assert Sent(q, auth) == expected;
  }

  /** A reply holding one `error` element with code 4710 and text "Invalid Handshake" raises exactly that error. */
  lemma InvalidHandshakeRaises()
    ensures var error := Element("error", map["code" := "4710"], [CData("Invalid Handshake")]);
            Checked(Document([Element("root", map[], [error])]))
            == Failure(AmpacheAPIError(AttributeText("4710"), "Invalid Handshake"))
  {
    var error := Element("error", map["code" := "4710"], [CData("Invalid Handshake")]);
    var root := Element("root", map[], [error]);
    var dom := Document([root]);
    assert [error][1..] == [] && [root][1..] == [] && error.children[1..] == [];
    assert ElementsByTagName(error.children, "error") == [];
    assert ElementsByTagName([error], "error") == [error];
    assert Errors(dom) == [error];
    assert CharData(error.children) == "Invalid Handshake";
  }

  class AmpacheServer {
    /** The endpoint URL every request is appended to. */
    const server: string
    /** `urlopen` of the URL followed by `parse`. */
    const transport: Transport
    /** The session token. */
    var auth: string

    constructor(server: string, transport: Transport, auth: string)
      ensures this.server == server && this.transport == transport && this.auth == auth
    {
      this.server := server;
      this.transport := transport;
      this.auth := auth;
    }

    /** The filtering loop of `_request`: the truthy keyword arguments. */
    static method FilterParams(kwargs: Query) returns (tmp: Query)
      ensures tmp == Filtered(kwargs)
    {
      tmp := map[];
      var rest := kwargs.Keys;
      while rest != {}
        invariant rest <= kwargs.Keys
        invariant tmp == map key | key in kwargs && key !in rest && Truthy(kwargs[key]) :: kwargs[key]
        decreases rest
      {
        var key :| key in rest;
        if Truthy(kwargs[key]) {
          tmp := tmp[key := kwargs[key]];
        }
        rest := rest - {key};
      }
    }

    /** `_request(**kwargs)`: shape the query, send it, and scan the reply for errors. */
    method Request(kwargs: Query) returns (r: Result<Document, Error>)
      ensures r == Checked(transport(server, Sent(kwargs, auth)))
    {
      var sent := FilterParams(kwargs);
      if "auth" !in sent {
        sent := sent["auth" := StrParam(auth)];
      }
      var dom := transport(server, sent);
      var errors := ElementsByTagName(dom.childNodes, "error");
      if |errors| >= 1 {
        if |errors| != 1 {
          return Failure(AssertionError);
        }
        var code := GetAttribute(errors[0], "code");
        var message := GetText(errors[0]);
        return Failure(AmpacheAPIError(AttributeText(code), message));
      }
      return Success(dom);
    }

    /**
     * `handshake(username, password)` at clock reading `now`: the reply to
     * the handshake query, as `_dictify` of its first node; the scan's
     * exception, or IndexError for a reply without nodes.
     */
    method Handshake(username: string, password: string, now: nat, sha: string -> Digest)
      returns (r: Result<map<string, string>, Error>)
      ensures var ts := Decimal(now);
              var reply := Checked(transport(server, Sent(HandshakeQuery(Passphrase(sha, ts, password), ts, username), auth)));
              r == if reply.Failure? then Failure(reply.error)
                   else if reply.value.childNodes == [] then Failure(IndexError)
                   else Success(DictOf(ChildNodes(reply.value.childNodes[0])))
    {
      var ts := Decimal(now);
      var passphrase := Passphrase(sha, ts, password);
      var reply := Request(HandshakeQuery(passphrase, ts, username));
      if reply.Failure? {
        return Failure(reply.error);
      }
      if reply.value.childNodes == [] {
        return Failure(IndexError);
      }
      var d := Dictify(reply.value.childNodes[0]);
      return Success(d);
    }

    /**
     * `AmpacheServer(server, username, password)`: the endpoint, and the
     * `auth` entry of the handshake's reply (KeyError when it has none). The
     * session token before the handshake plays no part in it.
     */
    static method Connect(server: string, username: string, password: string, now: nat, sha: string -> Digest,
                          transport: Transport)
      returns (r: Result<AmpacheServer, Error>)
      ensures var ts := Decimal(now);
              var reply := Checked(transport(Endpoint(server),
                                             HandshakeQuery(Passphrase(sha, ts, password), ts, username)
                                             - (if username == "" then {"user"} else {})));
              && (r.Success? <==> reply.Success? && reply.value.childNodes != []
                                  && "auth" in DictOf(ChildNodes(reply.value.childNodes[0])))
              && (r.Success? ==> fresh(r.value) && r.value.server == Endpoint(server) && r.value.transport == transport
                                 && r.value.auth == DictOf(ChildNodes(reply.value.childNodes[0]))["auth"])
              && (r.Failure? ==> r.error == if reply.Failure? then reply.error
                                             else if reply.value.childNodes == [] then IndexError
                                             else KeyError("auth"))
    {
      var s := new AmpacheServer(Endpoint(server), transport, "");
      HandshakeSends(sha, now, password, username, "");
      var ts := Decimal(now);
      assert HandshakeQuery(Passphrase(sha, ts, password), ts, username) - (if username == "" then {"user"} else {})
             == Sent(HandshakeQuery(Passphrase(sha, ts, password), ts, username), "");
      var d := s.Handshake(username, password, now, sha);
      if d.Failure? {
        return Failure(d.error);
      }
      if "auth" !in d.value {
        return Failure(KeyError("auth"));
      }
      s.auth := d.value["auth"];
      return Success(s);
    }

    /** `url_to_song(url)`: the one song of the reply; the unpacking raises ValueError unless there is exactly one. */
    method UrlToSong(url: string) returns (r: Result<Entity, Error>)
      ensures var reply := Checked(transport(server, Sent(map["action" := StrParam("url_to_song"), "url" := StrParam(url)], auth)));
              r == if reply.Failure? then Failure(reply.error)
                   else match Objects(reply.value, "song")
                        case Failure(e) => Failure(e)
                        case Success(songs) => if |songs| == 1 then Success(songs[0]) else Failure(ValueError(|songs|))
    {
      var reply := Request(map["action" := StrParam("url_to_song"), "url" := StrParam(url)]);
      if reply.Failure? {
        return Failure(reply.error);
      }
      var songs := GetObjects(reply.value, "song");
      if songs.Failure? {
        return Failure(songs.error);
      }
      if |songs.value| != 1 {
        return Failure(ValueError(|songs.value|));
      }
      return Success(songs.value[0]);
    }

    /** The entities of kind `tagname` in the reply to `kwargs`, or the first exception raised on the way. */
    method Fetch(kwargs: Query, tagname: string) returns (r: Result<seq<Entity>, Error>)
      ensures var reply := Checked(transport(server, Sent(kwargs, auth)));
              r == if reply.Failure? then Failure(reply.error) else Objects(reply.value, tagname)
    {
      var reply := Request(kwargs);
      if reply.Failure? {
        return Failure(reply.error);
      }
      r := GetObjects(reply.value, tagname);
    }

    /** `artists(filter, exact, add, update)`: the artists the server lists for the filter. */
    method Artists(filter: string, exact: bool, add: Param, update: Param) returns (r: Result<seq<Entity>, Error>)
      ensures var reply := Checked(transport(server, Sent(ArtistsQuery(filter, exact, add, update), auth)));
              r == if reply.Failure? then Failure(reply.error) else Objects(reply.value, "artist")
    {
      r := Fetch(ArtistsQuery(filter, exact, add, update), "artist");
    }

    /** `artist_songs(filter)`: the songs of the artists the filter selects. */
    method ArtistSongs(filter: string) returns (r: Result<seq<Entity>, Error>)
      ensures var reply := Checked(transport(server, Sent(map["action" := StrParam("artist_songs"), "filter" := StrParam(filter)], auth)));
              r == if reply.Failure? then Failure(reply.error) else Objects(reply.value, "song")
    {
      r := Fetch(map["action" := StrParam("artist_songs"), "filter" := StrParam(filter)], "song");
    }

    /** `artist_albums(filter)`: the albums of the artists the filter selects. */
    method ArtistAlbums(filter: string) returns (r: Result<seq<Entity>, Error>)
      ensures var reply := Checked(transport(server, Sent(map["action" := StrParam("artist_albums"), "filter" := StrParam(filter)], auth)));
              r == if reply.Failure? then Failure(reply.error) else Objects(reply.value, "album")
    {
      r := Fetch(map["action" := StrParam("artist_albums"), "filter" := StrParam(filter)], "album");
    }
  }
}
