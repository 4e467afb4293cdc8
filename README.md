# celly, modelled in Dafny

celly is a small Python 2 client for the Ponycloud (Sparkle) RESTful API.
It fetches the API's resource schema once. From the schema it builds proxy
objects: one collection proxy per top-level resource, entity proxies below
them, and collection proxies for each child resource of an entity. Every
non-200 answer becomes a typed `RequestError`.

This project models the core of `celly/__init__.py`, without the network:

- **Error taxonomy** (`errors.dfy`, module `Errors`). The exception classes are
  a datatype of kinds with a parent function. `from_response` is
  `FromResponse`, which classifies a status code and a decoded body. The
  keyword handling of `RequestError.__init__` is `Construct`, and its
  `setattr` loop is the method `Attributes`. `__str__` is the method
  `Render`, proved against the function `Rendering`.
- **Request outcome** (`transport.dfy`, module `Transport`). `Celly.request`
  without the transport: header merge, conditional JSON decoding, and
  return-or-raise on the status.
- **Naming** (`quoting.dfy`, `uris.dfy`, modules `Quoting` and `Uris`).
  `urllib.quote(s, '')` as percent-encoding (section 2.1 of RFC 3986), with
  its decoder. It is used for the URI rules of entities and child
  collections. The `-` to `_` attribute rule is `replace`.
- **Authorization** (`base64mime.dfy`, module `Base64Mime`). Python 2's
  `str.encode('base64')`: MIME base64 (section 6.8 of RFC 2045) wrapped at
  76 characters, each line ending in a newline. It comes with its decoder.
- **Schema** (`schemas.dfy`, module `Schemas`). The schema tree the server
  describes, and how the client reads `children` and `pkey` from the JSON it
  holds.
- **Client and proxies** (`celly.dfy`, module `Celly`):
  - `Client` is a class. It holds `uri`, the default `headers`, the `_schema`
    cache, the attached collection proxies, a ghost fetch counter and a ghost
    log of every request sent.
  - `Open` is `Celly.__init__`.
  - `CollectionProxy` and `EntityProxy` are datatypes whose methods take the
    client.
  - Child attachment is a loop that fills a map from attribute name to
    collection proxy.

Python values are the datatype `Json` (`pyvalues.dfy`). A body that is not
decoded is a Python `str`, so it is a `JStr`. Python strings are byte
sequences (`PyStr`, in `pytext.dfy`). Wherever the Python code itself raises
instead (`KeyError`, `TypeError`, `AttributeError`, `ValueError`,
`IndexError`), the model returns an explicit `Crash`. Dictionary iteration
order is left open: loops pick any remaining key.

The transport is not modelled. Each operation that sends a request takes the
transport's `Reply` (status, response headers, raw body) and the JSON decoder
`loads` as parameters. It appends the request it sends to the client's ghost
`log`.

Notable behaviours of the code:

- A 400 body without an `error` field raises `KeyError`. It does not give a
  `UserError`.
- A 400/403/404/409 body without `message`, or with a `code` or `self`
  field, raises `TypeError`.
- `auth=None` raises `TypeError`, because `':'.join(None)` fails.

## Model

| member | source | states |
|---|---|---|
| `Errors.Hierarchy` | celly/__init__.py:59-78 | every kind is a `RequestError`; a kind is a `DataError` exactly when it is in the data category (DataError, ConflictError, PathError, PatchError); only `RequestError` is an ancestor of `RequestError` |
| `Errors.Construct` | celly/__init__.py:15-21 | `cls(code=code, **kw)` succeeds iff `kw` has `message` and neither `code` nor `self`; a duplicate `code` is reported first, then a `self` that clashes with the positional `self`, then the missing `message`; on success the message is `kw['message']` and `_data` is every other keyword plus `code` |
| `Errors.FromResponse` | celly/__init__.py:24-51 | every error `from_response` builds has the kind of the status table (400 by its `error` field: invalid-data, invalid-patch, other; 403, 404, 405, 409; else the base class) and carries `code` equal to the status |
| `Errors.DataCategory` | celly/__init__.py:30-78 | an error built is a `DataError` exactly for 404, 409 and a 400 whose `error` is `invalid-data` or `invalid-patch` |
| `Errors.Crashes` | celly/__init__.py:15-51 | `from_response` raises exactly when: a 400 body lacks `error`; or a 400/403/404/409 body lacks `message` or has `code` or `self`; or an unmapped code's body has `message` and `code` or `self`. `KeyError` is for the missing `error`; a body `code` or `self` gives a duplicate-keyword `TypeError` |
| `Errors.SelfKeyword` | celly/__init__.py:15 | a 404 body with a `self` field raises the duplicate-keyword `TypeError` for `self` |
| `Errors.CarriedFields` | celly/__init__.py:30-51 | with a message in the body (code not 405) it carries the body's message and every other body field; 405 and the message-less fallback carry only `code`, with messages `method not allowed` and `request failed` |
| `Errors.MethodIgnoresBody` | celly/__init__.py:43-44 | 405 gives the same `MethodError('method not allowed', code=405)` whatever the body |
| `Errors.NonDictIsEmpty` | celly/__init__.py:27-28 | a body that is not a dict is classified exactly as `{}` |
| `Errors.NotFoundExample` | celly/__init__.py:40-41 | 404 with `error: not-found`, `message: no such thing` is a `PathError` with that message, carrying `error` and `code` |
| `Errors.Attributes` | celly/__init__.py:18-21 | the attributes set are exactly the `_data` entries whose key does not start with `_`, with their values |
| `Errors.InfoLines` | celly/__init__.py:55-56 | one `'    k: repr(v)'` line per key, in the given key order |
| `Errors.Render` | celly/__init__.py:53-57 | the loop builds exactly the text `Rendering` describes, or the `TypeError` of joining a non-string message |
| `Errors.RenderLinesShape` | celly/__init__.py:54-56 | the lines are the message, `'  Info:'`, then one line per `_data` entry, keys strictly ascending |
| `Errors.Rendering` | celly/__init__.py:53-57 | `__str__` succeeds iff the message is a string (else the `TypeError` of joining), and is then every line of `RenderLines` followed by `\n` |
| `Errors.RenderingText` | celly/__init__.py:57 | the rendering starts with the message line and the `Info:` line and ends in a newline |
| `Errors.RenderingContains` | celly/__init__.py:53-57 | every `_data` entry's line, with its newline, occurs in the rendering |
| `Errors.CodeBeforeError` | celly/__init__.py:55 | `sorted` puts `code` before `error` |
| `Errors.NotFoundLines` | celly/__init__.py:53-57 | that 404 error renders as the message line, `Info:`, the `code` line, then the `error` line |
| `PyText.SortedKeys` | celly/__init__.py:55 | the sorted keys are exactly the dict's keys, each once |
| `PyText.SortedKeysAscending` | celly/__init__.py:55 | `sorted` yields the keys in strictly ascending byte-string order |
| `PyText.JoinThenTerminate` | celly/__init__.py:57 | `'\n'.join(lines) + '\n'` ends every line with a newline |
| `PyText.TerminatedContains` | celly/__init__.py:57 | each line, with its newline, occurs in the joined text |
| `PyText.Replace` | celly/__init__.py:137 | `replace` keeps the length, changes exactly the replaced bytes, and leaves none of them |
| `PyValues.PyIndex` | celly/__init__.py:96 | `list[i]` succeeds iff `-len <= i < len`, counting negative indices from the end; else `IndexError` |
| `PyValues.Subscript` | celly/__init__.py:31 | `d[k]` on a dict gives the entry or `KeyError(k)`; on `None`, numbers and booleans a `TypeError` |
| `PyValues.Contains` | celly/__init__.py:102 | `'desired' in item` is key membership for a dict, and a `TypeError` for `None`, numbers and booleans |
| `PyValues.Items` | celly/__init__.py:109 | `iteritems()` exists only on a dict, else `AttributeError` |
| `PyValues.Get` | celly/__init__.py:142 | `.get(k)` gives the entry or `None`; only a dict has it |
| `Transport.MergeHeaders` | celly/__init__.py:191-192 | the headers sent are the defaults and the per-call headers; per-call headers win, other defaults are kept |
| `Transport.Body` | celly/__init__.py:197-198 | a body is decoded iff its content type is exactly `application/json`; it is then what `loads` gives, a `ValueError` when that fails; other bodies are the raw text |
| `Transport.Outcome` | celly/__init__.py:197-203 | a request returns iff the status is 200 and the body decodes, giving the decoded body; a decoding failure raises `ValueError`; another status raises the `from_response` error for the body, or its crash |
| `Transport.Success` | celly/__init__.py:197-201 | a request returns iff the status is 200 and a JSON body decodes; it returns the decoded value for JSON, the raw text otherwise |
| `Transport.Failures` | celly/__init__.py:197-203 | a JSON body that does not decode raises `ValueError` whatever the status; a body that is not JSON, with any status but 200, raises the error `from_response` builds from the raw text, or its crash |
| `Transport.ExactContentType` | celly/__init__.py:197-198 | `application/json; charset=utf-8` is not decoded |
| `Quoting.Quote` | celly/__init__.py:98 | `quote(s, '')` uses only letters, digits, `_.-` and the `%` of escapes, and percent-decoding gives `s` back |
| `Quoting.QuoteInjective` | celly/__init__.py:98 | distinct strings quote to distinct strings |
| `Quoting.QuoteNoSlash` | celly/__init__.py:98 | the output never holds `/` |
| `Quoting.QuoteIdentity` | celly/__init__.py:98 | quoting changes nothing exactly when every byte is a letter, digit or `_.-`; it never shortens |
| `Quoting.QuoteEmpty` | celly/__init__.py:98 | only the empty string quotes to the empty string |
| `Base64Mime.ByteRoundTrip` | celly/__init__.py:182 | each byte of a group of three is recovered from the two sextets it is spread over |
| `Base64Mime.DecodeEncode` | celly/__init__.py:182 | base64 decoding undoes the encoding |
| `Base64Mime.EncodeLength` | celly/__init__.py:182 | four characters per started group of three bytes |
| `Base64Mime.EncodeAlphabet` | celly/__init__.py:182 | the encoding uses the base64 alphabet and `=` only |
| `Base64Mime.UnwrapEncodeLines` | celly/__init__.py:182 | dropping the line breaks leaves the plain encoding |
| `Base64Mime.EncodeLinesRoundTrip` | celly/__init__.py:182 | decoding the wrapped lines gives the input back |
| `Base64Mime.EncodeLinesInjective` | celly/__init__.py:182 | distinct credentials give distinct encodings |
| `Base64Mime.EncodeLines` | celly/__init__.py:182 | `str.encode('base64')` is empty iff its input is, and otherwise ends in a newline |
| `Base64Mime.FullLine` | celly/__init__.py:182 | a 57-byte chunk fills a line of exactly 76 characters before its newline |
| `Base64Mime.LastLine` | celly/__init__.py:182 | the last chunk gives a line of at most 76 characters before its newline |
| `Schemas.FromJsonToJson` | celly/__init__.py:135 | reading a schema node back from its JSON gives the same node |
| `Schemas.ToJsonInjective` | celly/__init__.py:135 | distinct schema nodes have distinct JSON |
| `Schemas.ChildrenOf` | celly/__init__.py:135 | `schema['children'].iteritems()` on a dict gives the children's entries; a missing `children` raises `KeyError` |
| `Schemas.RootChildren` | celly/__init__.py:185 | the root `{'children': answer}` has children iff the answer is a dict, and they are its entries; else `AttributeError` |
| `Schemas.ChildrenOfWellFormed` | celly/__init__.py:135 | a well-formed node's children are read without a crash, one JSON node per child |
| `Schemas.PkeyOfWellFormed` | celly/__init__.py:103 | a well-formed node's `pkey` is read when it has one; otherwise `KeyError` |
| `Uris.EntityUri` | celly/__init__.py:98 | an entity URI is its collection URI followed by one segment without `/` that percent-decodes to the key |
| `Uris.ChildUri` | celly/__init__.py:136 | a child-collection URI is the parent URI, `/`, a segment without `/` that percent-decodes to the child name, and a closing `/` |
| `Uris.AttributeName` | celly/__init__.py:137 | the attribute name has the child name's length and no `-`: each `-` becomes `_`, every other byte is kept |
| `Uris.EntityUriInjective` | celly/__init__.py:98 | distinct keys of a collection give distinct entity URIs |
| `Uris.ChildUriInjective` | celly/__init__.py:136 | distinct child names under one parent give distinct collection URIs |
| `Uris.EntityNotChildCollection` | celly/__init__.py:94-138 | an entity URI never equals a child-collection URI of a sibling entity |
| `Uris.EmptyKeyIsCollection` | celly/__init__.py:98 | the empty key yields the collection's own URI |
| `Uris.AttributeNameShape` | celly/__init__.py:137 | the attribute name equals the child name exactly when that has no `-` |
| `Uris.AttributeNameInjective` | celly/__init__.py:187 | child names without `_` keep distinct attribute names |
| `Uris.AttributeNameCollision` | celly/__init__.py:137 | `a-b` and `a_b` share the attribute `a_b` |
| `Celly.AttachChildren` | celly/__init__.py:135-138 | the loop leaves one attribute per normalised child name, each the collection of a child with that name at `parent/quote(name)/` with the child's schema |
| `Celly.AttachedExactly` | celly/__init__.py:185-188 | when no child name has `_`, every child is reachable under its own attribute |
| `Celly.AttachedUrisDistinct` | celly/__init__.py:135-138 | distinct attributes reach distinct collection URIs |
| `Celly.AttachedSameName` | celly/__init__.py:137-138 | children whose names all normalise to one attribute leave exactly that attribute, reaching the collection of one of them |
| `Celly.AttachedCollision` | celly/__init__.py:137-138 | children `a-b` and `a_b` leave exactly one attribute, `a_b`, reaching one of the two |
| `Celly.NewEntity` | celly/__init__.py:130-138 | an entity proxy is built iff its schema node has a dict of children (else that crash), at the given URI, with one collection per normalised child name |
| `Celly.CollectionProxy.Entities` | celly/__init__.py:108-112 | one entity proxy per key, in some order of the keys, each at `collection_uri + quote(key)` with the collection's schema; fails only when there is a key and the schema has no children dict |
| `Celly.ListedUrisDistinct` | celly/__init__.py:108-111 | the entities of a listing have pairwise distinct URIs |
| `Celly.CollectionProxy.List` | celly/__init__.py:106-112 | exactly one GET of the collection; its failure propagates, a non-dict answer raises `AttributeError`, and otherwise one entity proxy per key of the answer |
| `Celly.CollectionProxy.Count` | celly/__init__.py:91-92 | `len` is one GET and the number of keys of the answer |
| `Celly.CollectionProxy.GetItem` | celly/__init__.py:94-99 | a string key sends nothing and gives the entity at `uri + quote(key)`; an integer key lists once and succeeds iff it is within `-n..n-1` for the `n` keys, giving the entity of one of them; otherwise it raises what `list` raises (the request's error, `AttributeError` for a non-dict answer, the children crash for a non-empty answer), or `IndexError` for an index out of range |
| `Celly.CollectionProxy.Post` | celly/__init__.py:114-115 | exactly one POST of `data` to the collection, with the client's headers; the outcome is the request's |
| `Celly.CollectionProxy.Patch` | celly/__init__.py:117-118 | exactly one PATCH of `ops` to the collection |
| `Celly.CollectionProxy.Merge` | celly/__init__.py:120-121 | exactly one PATCH to the collection with the single op `{'op': 'x-merge', 'path': '/', 'value': value}` |
| `Celly.GetKey` | celly/__init__.py:101-104 | `_get_key` succeeds only on a dict item with a schema that has `pkey`; an item with neither `desired` nor `current` raises `KeyError('current')` |
| `Celly.GetKeyOfItem` | celly/__init__.py:101-104 | the key is read from `desired` when the item has one, else from `current`; a missing state or key field raises `KeyError` |
| `Celly.MergeOps` | celly/__init__.py:120-121 | the merge patch is one `x-merge` op at `/` carrying exactly the value merged |
| `Celly.MergeOpsInjective` | celly/__init__.py:154-155 | distinct values give distinct merge patches |
| `Celly.EntityProxy.Desired` | celly/__init__.py:140-142 | one GET of the entity, then its `desired` entry (`None` when absent) |
| `Celly.EntityProxy.Current` | celly/__init__.py:144-146 | one GET of the entity, then its `current` entry (`None` when absent) |
| `Celly.StateField` | celly/__init__.py:140-146 | a state is read iff the request succeeds with a dict, and is the entry or `None`; a failed request propagates; another answer raises `AttributeError` |
| `Celly.EntityProxy.Delete` | celly/__init__.py:148-149 | exactly one DELETE of the entity |
| `Celly.EntityProxy.Patch` | celly/__init__.py:151-152 | exactly one PATCH of `ops` to the entity |
| `Celly.EntityProxy.Merge` | celly/__init__.py:154-155 | exactly one PATCH to the entity with the single `x-merge` op of `value` |
| `Celly.AuthHeaders` | celly/__init__.py:179-183 | without auth data the client raises `TypeError`; otherwise the only default header is `Authorization` |
| `Celly.AuthHeaderReadable` | celly/__init__.py:179-183 | the `Authorization` header is `Token <token>`, or `Basic ` plus a base64 text that decodes to the colon-joined credentials |
| `Celly.BasicHeader` | celly/__init__.py:182-183 | user and password give `Basic ` plus the MIME base64 of `user:password`, ending in a newline |
| `Celly.CredentialsAmbiguous` | celly/__init__.py:182 | colons inside credentials are not escaped, so different credentials can send the same header |
| `Celly.Client.constructor` | celly/__init__.py:175-177 | a client starts with its base URI and headers, no schema and no requests sent |
| `Celly.Client.Request` | celly/__init__.py:190-203 | sends exactly one request with the merged headers; the result is the request outcome |
| `Celly.Client.GetSchema` | celly/__init__.py:206-212 | the first use GETs `uri/schema` once and caches `{'children': answer}`; a cached schema is returned with nothing sent and nothing changed |
| `Celly.Client.UseSchema` | celly/__init__.py:206-212 | after opening, any number of schema uses send nothing and return the cached schema |
| `Celly.Open` | celly/__init__.py:164-188 | uses `http://127.0.0.1:9860/v1` when no base URI is given, builds the auth header (or raises), fetches the schema exactly once, fails as the request or with `AttributeError` for a non-dict answer, and attaches one collection per normalised top-level child name |

## Left out

- The network: `httplib2.Http` and the round trip are replaced by a `Reply`
  parameter. Nothing connects two replies to one another.
- `simplejson`: `loads` is a parameter; `dumps` is not modelled, so a request
  body is recorded as the `Json` value it serialises.
- `repr` inside `__str__` is a parameter; its output format is not modelled.
- `int(status['status'])`: the status is taken as an integer; a non-numeric
  status string is not modelled.
- Python `unicode` objects (a unicode token, key or body) and non-string
  credential items: text is byte strings only.
- `setattr` clashes between a child attribute and the object's own attributes
  (`uri`, `schema`, `celly`, `message`, `args`, methods): attachment is a map
  of its own, so a clash never overwrites or raises in the model. In Python a
  child named `desired` or `current` on an entity, or `schema` on the client,
  hits a property without a setter and raises `AttributeError`. That failure
  is not modelled.
- Errors.Attributes: does not model the `TypeError` that `setattr` at line 21
  raises for an error-body field `args` whose value is not iterable
  (`Exception.args` converts it to a tuple); the field is set like any other.
- `__iter__` and the three `__repr__` methods: no contract worth stating
  beyond `list`.
- Keys of `__getitem__` other than `int`/`bool` and `str` (floats, tuples,
  unicode).
- Each proxy's back-reference to its `Celly` object: the client is passed to
  the proxy's methods instead.
- Concurrency around the schema cache: the code is single-threaded.
- `setup.py`: packaging metadata.
