# ampyche: response normalisation and request shaping

A Dafny model of the core of `ampyche.py`, a Python 2 client for the Ampache
XML API. Ampache is a music server. The client sends keyword-argument requests to the server
script, parses the XML reply with `minidom`, and turns the reply into
Python objects.

The model covers four pieces:

- **XML-to-record flattening** (module `Parsing`):
  - `_get_text` joins the data of an element's direct text and CDATA children.
  - `_dictify` maps each direct element child's tag name to its text. When the child has an `id` attribute, it also maps tag name + `id` to that attribute. Later children overwrite earlier ones. The model's `_dictify` passes over comment children; the code raises on them (see Findings and Left out).
- **Entity materialisation** (modules `Entities` and `Parsing`):
  - `_get_objects` resolves one of the six container classes (`Artist`, `Album`, `Song`, `Tag`, `Playlist`, `Video`) from the title-cased tag name, or raises `AmpacheAPIError(9001)`.
  - For every matching descendant element in document order, it builds the keyword arguments: `_dictify`, then `id` forced from the element's attribute, then a `tags` list of `(owner id, tag text)` pairs unless the tag name is `tag`, then `tag` and `tagid` deleted.
  - It calls the class's constructor with those arguments.
  - The constructors take fixed parameter lists. An argument that is not a parameter raises `TypeError`. A missing parameter defaults to `None`.
- **Request shaping and error detection** (module `Server`, class `AmpacheServer`):
  - `_request` drops falsy arguments.
  - It adds the session's `auth` when no truthy `auth` was given.
  - It sends the query through an abstract transport, then scans the reply for `error` elements. None means the reply is returned. One raises `AmpacheAPIError(code, text)`. More than one fails the assertion.
  - The methods built on `_request` are also modelled: `handshake`, `__init__`, `url_to_song`, `artists`, `artist_songs` and `artist_albums`.
- **The handshake token** (module `Handshake`): `sha256(ts + sha256(password).hexdigest()).hexdigest()`.
  - SHA-256 is an uninterpreted parameter returning 32 bytes.
  - `hexdigest()` is defined as lower-case hex.

How each kind of source becomes Dafny:

- The loops of the source become methods with loop invariants: `GetText`, `Dictify`, `CollectTags`, `GetObjects` and `FilterParams`. `ObjectArguments` is the straight-line body of the loop in `_get_objects` up to the constructor call.
- Each method is proved equal to a specification function: `CharData`, `DictOf`, `TagPairs`, `Record`, `Objects` and `Filtered`.
- Lemmas state what those functions mean in terms of the XML tree.
- Raised exceptions are the `Error` cases of a `Result`.
- The six classes are the single datatype `Entity`, with one `Option` field per constructor parameter.

Some behaviours of the code are easy to miss. The model follows the code in each, except for the two defects under Findings, where the main model uses the corrected behaviour:

- A keyword argument that a class does not take is not ignored. `constructor(**d)` raises `TypeError` (`UnexpectedKeyword`).
- So do the names `TAG` and `Tag`: they resolve to the `Tag` class, but since they differ from `'tag'` a `tags` argument is added. `Tag` has no `tags` parameter, so the call raises `TypeError`.
- The keys dropped are `tag` and `tagid` (lower case), for every kind.
- A handshake reply without `auth` raises `KeyError`.
- Several `error` elements fail an `assert`, which the model records as `AssertionError`.
- Each tag pair carries the owning element's `id`, not the tag's.

## Model

| member | source | states |
|---|---|---|
| Wrappers.MapResultSucceeds | ampyche.py:245-266 | a constructor loop completes exactly when every call succeeds; otherwise it raises the exception of the first call that fails, and every earlier call succeeded |
| Wrappers.MapResultLength | ampyche.py:244-266 | a completed loop has exactly one object per element, none for no elements |
| Wrappers.MapResultElements | ampyche.py:265-266 | a completed loop has one object per element, and object `i` is what the call on element `i` returned |
| Strings.Title | ampyche.py:240 | `s.title()` keeps the length, keeps every non-letter, keeps letters letters, and upper-cases a leading letter |
| Strings.TitleMatchesWord | ampyche.py:240 | `s.title()` equals a capitalised class name exactly when `s` lower-cased equals that name lower-cased |
| Strings.Decimal | ampyche.py:312 | `str(int(time()))` is a non-empty string of decimal digits without a leading zero |
| Strings.DecimalRoundTrip | ampyche.py:312 | reading the timestamp string back as a number gives the clock reading |
| Dom.ElementsByTagName | ampyche.py:245 | every node `getElementsByTagName` returns is an element with the requested tag name |
| Dom.ElementsByTagNameSelectsDescendants | ampyche.py:245 | `getElementsByTagName` returns exactly the descendant elements with that name, in document order |
| Entities.Attributes | ampyche.py:20-198 | an entity has one attribute per parameter of its class |
| Entities.ParamNames | ampyche.py:20-198 | every class takes `id` first and takes neither `tag` nor `tagid`; every class but `Tag` takes `tags` |
| Entities.Construct | ampyche.py:265 | `constructor(**d)` succeeds exactly when every key of `d` is a parameter of the class, and otherwise raises TypeError |
| Entities.Build | ampyche.py:33-198 | `__init__` makes an object of the requested class whose `id` is the `id` argument, or `None` |
| Entities.ConstructAttributes | ampyche.py:42-44 | a constructed object belongs to the class; its attribute for parameter `p` is `d[p]`, or `None` when `d` has no `p` |
| Entities.BuildAttributes | ampyche.py:42-44 | the `setattr` loop sets every parameter to its argument or to its `None` default |
| Entities.ConstructTags | ampyche.py:265 | a `tags` argument that is accepted makes an object that is not a `Tag` and whose `tags` is that argument |
| Entities.ErrorString | ampyche.py:207-208 | `str(AmpacheAPIError)` is `ERROR `, then `str(code)`, then `: ` and the message; `str(code)` is the server's `code` attribute text for server errors and the decimal number for 9001 |
| Entities.ErrorCodeReadsBack | ampyche.py:207-208 | the code printed for a client error such as 9001 reads back as that number |
| Entities.ResolveKind | ampyche.py:239-242 | the six-class lookup finds a class only when the title-cased name is that class's name, and finds nothing when it is none of them |
| Entities.ResolveKindByTitle | ampyche.py:240 | the lookup finds class `k` exactly when the title-cased name is `k`'s class name |
| Entities.ResolveKindIgnoresCase | ampyche.py:239-242 | a tag name resolves to a class exactly when it spells that class's element name in any case |
| Entities.ResolveElementName | ampyche.py:240 | the lower-case element names the server sends resolve to their own classes |
| Entities.ResolveGlobal | ampyche.py:240 | the module's globals (with `Node` imported at line 6) give `Node` exactly when the title-cased name is `Node`, a container class only as the six-class lookup does, and nothing otherwise |
| Entities.ResolveGlobalNode | ampyche.py:6 | in the module's globals a tag name finds `xml.dom.Node` exactly when it spells `node`; any other name resolves as the six classes do |
| Handshake.HexDigest | ampyche.py:313 | `hexdigest()` has two lower-case hex digits per byte |
| Handshake.UnHexDigest | ampyche.py:313 | reading a hex digest back gives the bytes |
| Handshake.HexDigestInjective | ampyche.py:313 | two byte strings have the same hex digest exactly when they are equal |
| Handshake.Passphrase | ampyche.py:313 | the token is 64 lower-case hex digits whatever the timestamp and password |
| Parsing.CharDataAppend | ampyche.py:214-217 | the text of a concatenation of children is the concatenation of their texts |
| Parsing.CharDataSkipsOtherNodes | ampyche.py:215 | a child that is neither text nor CDATA contributes nothing; its contents, element children included, are not read |
| Parsing.GetText | ampyche.py:211-217 | `_get_text` returns the data of the direct text and CDATA children, in order |
| Parsing.DictKeys | ampyche.py:222-230 | the dictionary's keys are exactly the tag names of element children, plus tag name + `id` for those with an `id` attribute |
| Parsing.DictLastText | ampyche.py:223-229 | key `t` holds the text of the last child that writes `t` |
| Parsing.DictLastId | ampyche.py:227-228 | key `t + "id"` holds the `id` attribute of the last child that writes it |
| Parsing.Dictify | ampyche.py:219-230 | the `_dictify` loop builds the dictionary of its element's children, first to last, skipping non-elements |
| Parsing.DictAsWritten | ampyche.py:219-230 | `_dictify` as written raises only AttributeError for a missing `hasAttribute` |
| Parsing.DictAsWrittenAgrees | ampyche.py:224-227 | `_dictify` as written equals the corrected one on children without comments, and raises AttributeError when some child is a comment |
| Parsing.CommentChildRaises | ampyche.py:224-227 | for an element whose children are a comment and `<name>Bach</name>`, the code raises while the corrected loop gives `{name: Bach}` |
| Parsing.TagPairsOfDescendants | ampyche.py:253-257 | the tag list has one pair per descendant `tag` element of the node, in document order, pairing the node's id with that tag's text |
| Parsing.RecordKeys | ampyche.py:247-263 | the arguments never hold `tag` or `tagid`; they always hold the element's own `id`; they hold the tag list unless the tag name is `tag`; any other key is present exactly when some child writes it, with `_dictify`'s value |
| Parsing.RecordAccepted | ampyche.py:247-265 | the constructor accepts an element's arguments exactly when a `tags` argument is not given to `Tag` and every name its children write is dropped or is a parameter of the class |
| Parsing.MaterialiseSucceeds | ampyche.py:245-266 | the object loop completes exactly when every constructor call succeeds, and otherwise raises TypeError |
| Parsing.MaterialiseElements | ampyche.py:265-266 | object `i` is what the constructor made from record `i` |
| Parsing.ObjectsAsWritten | ampyche.py:239-266 | `_get_objects` as written raises 9001 exactly for names its globals do not hold, and for `node` returns a list exactly when nothing matches |
| Parsing.ObjectsAsWrittenAgrees | ampyche.py:239-242 | the class lookup as written differs from the six-class lookup on `node` alone: the code raises no 9001 for it |
| Parsing.NodeNameRaisesNothing | ampyche.py:239-242 | `_get_objects(dom, 'node')` on a reply without `node` elements returns `[]`; the six-class lookup raises 9001 |
| Parsing.ObjectsRejectsUnknownName | ampyche.py:239-242 | a tag name that spells no class, in any case, raises `AmpacheAPIError(9001, "Bad tag name: " + tagname)` whatever the document holds |
| Parsing.ObjectsSucceeds | ampyche.py:245-266 | `_get_objects` returns a list exactly when every matching element's arguments are accepted, and otherwise raises TypeError |
| Parsing.ObjectsCount | ampyche.py:244-266 | a completed `_get_objects` returns exactly one object per matching element |
| Parsing.ObjectsNoMatches | ampyche.py:244-266 | a reply without matching elements gives the empty list for every class name |
| Parsing.ObjectsElement | ampyche.py:245-266 | there is one object per matching element, and object `i` is the constructor's result on element `i`'s arguments |
| Parsing.RecordField | ampyche.py:247-263 | the argument for a parameter is the element's `id` attribute for `id`, the tag list for `tags`, and otherwise `_dictify`'s value or nothing |
| Parsing.EntityField | ampyche.py:247-265 | each attribute of an object built from an element is that element's field for the parameter |
| Parsing.EntityTags | ampyche.py:252-257 | an object built for a tag name other than `tag` has the element's tag list as `tags` |
| Parsing.EntityWellTyped | ampyche.py:247-265 | in an object built by `_get_objects`, `tags` holds a tag list and every other attribute is a string or `None` |
| Parsing.ObjectsFields | ampyche.py:232-266 | attribute `j` of object `i` is matching element `i`'s field for parameter `j` |
| Parsing.CollectTags | ampyche.py:254-257 | the tag loop yields the node's tag list |
| Parsing.ObjectArguments | ampyche.py:247-263 | the loop body builds the element's keyword arguments: `_dictify`, `id`, `tags`, minus `tag` and `tagid` |
| Parsing.GetObjects | ampyche.py:232-266 | `_get_objects` returns what `Objects` specifies: error 9001, the first TypeError, or one object per matching element |
| Server.Endpoint | ampyche.py:270 | `join(server, 'server/xml.server.php?')` starts with the server, ends with the script path, and puts a single `/` between them unless the server is empty or already ends in `/` |
| Server.SentKeys | ampyche.py:283-291 | the sent query holds `auth` always, the caller's when truthy and the session's otherwise; any other key is sent exactly when its value is truthy, and unchanged |
| Server.SentIdempotent | ampyche.py:283-291 | shaping an already shaped query changes nothing |
| Server.SentTruthy | ampyche.py:283-291 | with a non-empty session token, every value sent is truthy |
| Server.Errors | ampyche.py:296 | every element the error scan finds is named `error` |
| Server.Checked | ampyche.py:296-304 | the scan passes the reply unchanged exactly when it finds no `error` element; it raises `AmpacheAPIError` exactly when it finds one, with that element's `code` attribute and text |
| Server.CheckedPasses | ampyche.py:296-304 | a reply passes unchanged exactly when no element in it is named `error`; otherwise the call raises `AmpacheAPIError` or fails the assertion |
| Server.InvalidHandshakeRaises | ampyche.py:296-303 | a reply with one `<error code="4710">Invalid Handshake</error>` raises `AmpacheAPIError("4710", "Invalid Handshake")` |
| Server.HandshakeSends | ampyche.py:312-321 | the handshake sends its own token as `auth`, whatever the session holds, with the action, timestamp and version; `user` is dropped when the user name is empty |
| Server.ArtistsDefaultsOmitted | ampyche.py:337-339 | `artists('Bach')` with its defaults sends only the action, the filter and `auth` |
| Server.AmpacheServer.FilterParams | ampyche.py:283-288 | the filtering loop keeps exactly the truthy arguments, unchanged |
| Server.AmpacheServer.Request | ampyche.py:273-304 | `_request` sends the shaped query and returns the reply scanned for errors |
| Server.AmpacheServer.Handshake | ampyche.py:307-323 | the handshake returns `_dictify` of the reply's first node; it raises the scan's exception, or IndexError for a reply without nodes |
| Server.AmpacheServer.Connect | ampyche.py:269-271 | a session is made exactly when the handshake reply passes the scan, has a first node, and that node has an `auth` field; the new session holds the endpoint and that token, and the token it held before the handshake plays no part; a failed connect raises the scan's exception, IndexError for a reply without nodes, or KeyError('auth') |
| Server.AmpacheServer.UrlToSong | ampyche.py:329-334 | `url_to_song` returns the single song of the reply, or raises ValueError unless the reply holds exactly one |
| Server.AmpacheServer.Fetch | ampyche.py:338-348 | a data method returns the reply's objects of one kind, or the first exception raised on the way |
| Server.AmpacheServer.Artists | ampyche.py:337-340 | `artists` returns the artists of the reply to its query |
| Server.AmpacheServer.ArtistSongs | ampyche.py:342-344 | `artist_songs` returns the songs of the reply to its query |
| Server.AmpacheServer.ArtistAlbums | ampyche.py:346-348 | `artist_albums` returns the albums of the reply to its query |

## Left out

- The network: `urlopen`, `urlencode` and `parse` are one deterministic `transport` function from endpoint and query to the parsed document. The model has no transport errors, no byte-level XML parsing, no query-string encoding order and no session state on the server side.
- The debug `print` at ampyche.py:293 sends the same request a second time. With a deterministic transport that makes no difference, so it is left out.
- `time()` is the `now` parameter.
- SHA-256 is the `sha` parameter.
- `BaseObject.__str__` (ampyche.py:12-18): it iterates `dict(self)` over an object that is not a mapping, so it has no meaningful behaviour to model.
- `ping`, `localplay` and `democratic` (ampyche.py:325-327 and 351-359). `ping` sends `action=ping` and returns `_dictify` of the reply document. `localplay` and `democratic` assert on their arguments and send one request each. All three are thin calls of `_request`.
- `globals()` is replaced by a closed lookup of the six classes (`ResolveKind`). `ResolveGlobal` adds the one other global the code can find, `Node`; see Findings.
- Node types other than text, CDATA, comment and element (processing instructions, document types) are not in the tree datatype.
- `str.title()` and `str.lower()` are modelled on ASCII letters only. Python 2 byte strings are `seq<char>`.
- The model assumes `assert` is active. Under `python -O`, several `error` elements would raise an `AmpacheAPIError` for the first one.
- Keyword-argument values are the four kinds the client passes: `None`, booleans, integers and strings. Truthiness is defined for those four only.
- The constructors' `setattr` loop over `locals()` is modelled as building one immutable `Entity` value, not as updating attributes of an object one at a time.
- The comment case of `_dictify` outside `DictAsWritten`: `Parsing.Dictify`, `Parsing.ObjectArguments`, `Parsing.GetObjects`, `Parsing.Objects`, `Server.AmpacheServer.Handshake`, `Server.AmpacheServer.Connect`, `Server.AmpacheServer.UrlToSong`, `Server.AmpacheServer.Fetch`, `Server.AmpacheServer.Artists`, `Server.AmpacheServer.ArtistSongs` and `Server.AmpacheServer.ArtistAlbums` all use the corrected loop that passes over comments. In the code, a comment child of an entity element or of the handshake reply's first node raises AttributeError at ampyche.py:227; these members do not capture that exception.
- `Parsing.ObjectsAsWritten` also uses the corrected `_dictify`, so the two findings are modelled apart.

## Findings

| source | as written | input that shows it | evidently intended | confidence | as-written member | corrected member |
|---|---|---|---|---|---|---|
| ampyche.py:224-227 | the loop treats every node that is not text or CDATA as an element and calls `node.hasAttribute('id')` on it | an element whose children are `<!-- generated -->` and `<name>Bach</name>`: a minidom comment has no `hasAttribute`, so AttributeError is raised | only element children are turned into keys; comments are skipped | not executed; high | Parsing.DictAsWritten, shown by Parsing.CommentChildRaises | Parsing.Dictify / Parsing.DictOf, related by Parsing.DictAsWrittenAgrees |
| ampyche.py:239-242 | `globals()[tagname.title()]` also finds `Node`, imported from `xml.dom` at ampyche.py:6 | `_get_objects(dom, 'node')` on a reply with no `node` element returns `[]`; with such elements, `Node(**d)` raises TypeError | a name that is none of the six classes raises `AmpacheAPIError(9001)` | not executed; high | Parsing.ObjectsAsWritten, shown by Parsing.NodeNameRaisesNothing | Parsing.Objects / Parsing.GetObjects, with Parsing.ObjectsRejectsUnknownName, related by Parsing.ObjectsAsWrittenAgrees |
