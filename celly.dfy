/**
 * The client object and the proxies it hands out.
 *
 * `Client` is `Celly`: it keeps the default headers (the `Authorization`
 * header), fetches the schema once and caches it, sends every request, and
 * exposes one collection proxy per top-level child of the schema. A
 * `CollectionProxy` lists its entities, looks one up by key or position, and
 * posts or patches; an `EntityProxy` reads its desired or current state,
 * deletes itself, patches, and exposes one collection proxy per child of its
 * schema node.
 *
 * The transport's reply and the JSON decoder are parameters of every
 * operation that sends a request; the client records each request it sends
 * in the ghost `log`, so contracts can say what went over the wire.
 */
module Celly {
  import opened Wrappers
  import opened PyText
  import opened PyValues
  import opened Errors
  import opened Base64Mime
  import opened Transport
  import opened Schemas
  import opened Uris

  /** A remote collection: its URI and the schema node of its entities. */
  datatype CollectionProxy = CollectionProxy(uri: PyStr, schema: Json)
  {
    /** The `list` property: a GET of the collection, then one entity proxy
        per key of the answer, in the dictionary's order `order`. */
    method List(client: Client, reply: Reply, loads: PyStr -> Option<Json>)
      returns (r: Result<seq<EntityProxy>, Failure>, ghost order: seq<PyStr>)
      modifies client`log
      ensures client.log == old(client.log) + [HttpCall(uri, GET, None, client.headers)]
      ensures Outcome(reply, loads).Err? ==> r == Err(Outcome(reply, loads).error)
      ensures Outcome(reply, loads).Ok? && !Outcome(reply, loads).value.JObj? ==>
        r == Err(Crashed(AttributeError("iteritems")))
      ensures Outcome(reply, loads).Ok? && Outcome(reply, loads).value.JObj? ==>
        var listing := Outcome(reply, loads).value.fields;
        && (r.Ok? <==> listing == map[] || ChildrenOf(schema).Ok?)
        && (r.Err? ==> r == Err(Crashed(ChildrenOf(schema).error)))
        && (r.Ok? ==> Listed(r.value, order, this, listing.Keys))
    {
      order := [];
      var answer := client.Request(uri, GET, None, map[], reply, loads);
      assert MergeHeaders(client.headers, map[]) == client.headers;
      if answer.Err? {
        return Err(answer.error), order;
      }
      var listing := Items(answer.value);
      if listing.Err? {
        return Err(Crashed(listing.error)), order;
      }
      var entities;
      entities, order := Entities(listing.value.Keys);
      r := if entities.Ok? then Ok(entities.value) else Err(Crashed(entities.error));
    }

    /** `len(collection)`: the number of entities `list` builds, one per key. */
    method Count(client: Client, reply: Reply, loads: PyStr -> Option<Json>) returns (r: Result<int, Failure>)
      modifies client`log
      ensures client.log == old(client.log) + [HttpCall(uri, GET, None, client.headers)]
      ensures r.Ok? <==>
        && Outcome(reply, loads).Ok? && Outcome(reply, loads).value.JObj?
        && (Outcome(reply, loads).value.fields == map[] || ChildrenOf(schema).Ok?)
      ensures r.Ok? ==> r.value == |Outcome(reply, loads).value.fields|
    {
      var entities, order := List(client, reply, loads);
      if entities.Err? {
        return Err(entities.error);
      }
      r := Ok(|entities.value|);
    }

    /** The loop of `list`: one `EntityProxy` per key, appended in turn. */
    method Entities(keys: set<PyStr>) returns (r: Result<seq<EntityProxy>, Crash>, ghost order: seq<PyStr>)
      ensures r.Ok? <==> keys == {} || ChildrenOf(schema).Ok?
      ensures r.Err? ==> r.error == ChildrenOf(schema).error
      ensures r.Ok? ==> Listed(r.value, order, this, keys)
    {
      var out: seq<EntityProxy> := [];
      order := [];
      var pending := keys;
      while pending != {}
        invariant pending <= keys
        invariant |out| == |order| && |order| + |pending| == |keys|
        invariant forall i, j :: 0 <= i < j < |order| ==> order[i] != order[j]
        invariant forall i :: 0 <= i < |order| ==> order[i] in keys && order[i] !in pending
        invariant forall k :: k in keys && k !in pending ==> k in order
        invariant out != [] ==> ChildrenOf(schema).Ok?
        invariant forall i :: 0 <= i < |out| ==> Built(out[i], EntityUri(uri, order[i]), schema)
        decreases pending
      {
        var k :| k in pending;
        var e := NewEntity(EntityUri(uri, k), schema);
        if e.Err? {
          return Err(e.error), order;
        }
        out := out + [e.value];
        order := order + [k];
        pending := pending - {k};
      }
      r := Ok(out);
    }

    /** `collection[key]`: an integer picks from `list` (negative counts from
        the end); a string names an entity directly, with no request. */
    method GetItem(client: Client, key: Key, reply: Reply, loads: PyStr -> Option<Json>)
      returns (r: Result<EntityProxy, Failure>)
      modifies client`log
      ensures key.StrKey? ==> client.log == old(client.log)
      ensures key.StrKey? ==> (r.Ok? <==> ChildrenOf(schema).Ok?)
      ensures key.StrKey? && r.Err? ==> r == Err(Crashed(ChildrenOf(schema).error))
      ensures key.StrKey? && r.Ok? ==> r.value.uri == EntityUri(uri, key.s)
      ensures key.IntKey? ==> client.log == old(client.log) + [HttpCall(uri, GET, None, client.headers)]
      ensures key.IntKey? ==> (r.Ok? <==>
        && Outcome(reply, loads).Ok? && Outcome(reply, loads).value.JObj?
        && ChildrenOf(schema).Ok?
        && -|Outcome(reply, loads).value.fields| <= key.i < |Outcome(reply, loads).value.fields|)
      ensures key.IntKey? && r.Ok? ==> exists k :: k in Outcome(reply, loads).value.fields && r.value.uri == EntityUri(uri, k)
      ensures key.IntKey? && Outcome(reply, loads).Err? ==> r == Err(Outcome(reply, loads).error)
      ensures key.IntKey? && Outcome(reply, loads).Ok? && !Outcome(reply, loads).value.JObj? ==>
        r == Err(Crashed(AttributeError("iteritems")))
      ensures key.IntKey? && Outcome(reply, loads).Ok? && Outcome(reply, loads).value.JObj? ==>
        var listing := Outcome(reply, loads).value.fields;
        && (listing != map[] && ChildrenOf(schema).Err? ==> r == Err(Crashed(ChildrenOf(schema).error)))
        && ((listing == map[] || ChildrenOf(schema).Ok?) && !(-|listing| <= key.i < |listing|) ==>
              r == Err(Crashed(IndexError)))
      ensures r.Ok? ==> r.value.schema == schema && ChildrenOf(schema).Ok?
      ensures r.Ok? ==> AttachedFrom(r.value.children, r.value.uri, ChildrenOf(schema).value)
    {
      match key
      case IntKey(i) =>
        var entities, order := List(client, reply, loads);
        if entities.Err? {
          return Err(entities.error);
        }
        var picked := PyIndex(entities.value, i);
        if picked.Err? {
          return Err(Crashed(picked.error));
        }
        assert entities.value[i % |entities.value|].uri == EntityUri(uri, order[i % |entities.value|]);
        r := Ok(picked.value);
      case StrKey(s) =>
        var e := NewEntity(EntityUri(uri, s), schema);
        r := if e.Ok? then Ok(e.value) else Err(Crashed(e.error));
    }

    /** `post(data)`. */
    method Post(client: Client, data: Json, reply: Reply, loads: PyStr -> Option<Json>) returns (r: Result<Json, Failure>)
      modifies client`log
      ensures client.log == old(client.log) + [HttpCall(uri, POST, Some(data), client.headers)]
      ensures r == Outcome(reply, loads)
    {
      r := client.Request(uri, POST, Some(data), map[], reply, loads);
      assert MergeHeaders(client.headers, map[]) == client.headers;
    }

    /** `patch(ops)`. */
    method Patch(client: Client, ops: Json, reply: Reply, loads: PyStr -> Option<Json>) returns (r: Result<Json, Failure>)
      modifies client`log
      ensures client.log == old(client.log) + [HttpCall(uri, PATCH, Some(ops), client.headers)]
      ensures r == Outcome(reply, loads)
    {
      r := client.Request(uri, PATCH, Some(ops), map[], reply, loads);
      assert MergeHeaders(client.headers, map[]) == client.headers;
    }

    /** `merge(value)`: a patch of one `x-merge` of the whole collection. */
    method Merge(client: Client, value: Json, reply: Reply, loads: PyStr -> Option<Json>) returns (r: Result<Json, Failure>)
      modifies client`log
      ensures client.log == old(client.log) + [HttpCall(uri, PATCH, Some(MergeOps(value)), client.headers)]
      ensures r == Outcome(reply, loads)
    {
      r := Patch(client, MergeOps(value), reply, loads);
    }
  }

  /** A key of `collection[key]`: Python `int` (or `bool`), or `str`. */
  datatype Key = IntKey(i: int) | StrKey(s: PyStr)

  /** A remote entity: its URI, its collection's schema node and, by
      attribute name, a proxy for each child collection of that node. */
  datatype EntityProxy = EntityProxy(uri: PyStr, schema: Json, children: map<PyStr, CollectionProxy>)
  {
    /** The `desired` property: a GET of the entity, then its `desired` entry. */
    method Desired(client: Client, reply: Reply, loads: PyStr -> Option<Json>) returns (r: Result<Json, Failure>)
      modifies client`log
      ensures client.log == old(client.log) + [HttpCall(uri, GET, None, client.headers)]
      ensures r == StateField(Outcome(reply, loads), "desired")
    {
      r := ReadState(client, "desired", reply, loads);
    }

    /** The `current` property: a GET of the entity, then its `current` entry. */
    method Current(client: Client, reply: Reply, loads: PyStr -> Option<Json>) returns (r: Result<Json, Failure>)
      modifies client`log
      ensures client.log == old(client.log) + [HttpCall(uri, GET, None, client.headers)]
      ensures r == StateField(Outcome(reply, loads), "current")
    {
      r := ReadState(client, "current", reply, loads);
    }

    method ReadState(client: Client, name: PyStr, reply: Reply, loads: PyStr -> Option<Json>) returns (r: Result<Json, Failure>)
      modifies client`log
      ensures client.log == old(client.log) + [HttpCall(uri, GET, None, client.headers)]
      ensures r == StateField(Outcome(reply, loads), name)
    {
      var answer := client.Request(uri, GET, None, map[], reply, loads);
      assert MergeHeaders(client.headers, map[]) == client.headers;
      if answer.Err? {
        return Err(answer.error);
      }
      var state := Get(answer.value, name);
      r := if state.Ok? then Ok(state.value) else Err(Crashed(state.error));
    }

    /** `delete()`. */
    method Delete(client: Client, reply: Reply, loads: PyStr -> Option<Json>) returns (r: Result<Json, Failure>)
      modifies client`log
      ensures client.log == old(client.log) + [HttpCall(uri, DELETE, None, client.headers)]
      ensures r == Outcome(reply, loads)
    {
      r := client.Request(uri, DELETE, None, map[], reply, loads);
      assert MergeHeaders(client.headers, map[]) == client.headers;
    }

    /** `patch(ops)`. */
    method Patch(client: Client, ops: Json, reply: Reply, loads: PyStr -> Option<Json>) returns (r: Result<Json, Failure>)
      modifies client`log
      ensures client.log == old(client.log) + [HttpCall(uri, PATCH, Some(ops), client.headers)]
      ensures r == Outcome(reply, loads)
    {
      r := client.Request(uri, PATCH, Some(ops), map[], reply, loads);
      assert MergeHeaders(client.headers, map[]) == client.headers;
    }

    /** `merge(value)`: a patch of one `x-merge` of the whole entity. */
    method Merge(client: Client, value: Json, reply: Reply, loads: PyStr -> Option<Json>) returns (r: Result<Json, Failure>)
      modifies client`log
      ensures client.log == old(client.log) + [HttpCall(uri, PATCH, Some(MergeOps(value)), client.headers)]
      ensures r == Outcome(reply, loads)
    {
      r := Patch(client, MergeOps(value), reply, loads);
    }
  }

  /** `attrs` holds one attribute per name `attr` gives a child, each the
      `proxy` of some child given that name. */
  ghost predicate Attached<K, V, A, P>(attrs: map<A, P>, children: map<K, V>, attr: K -> A, proxy: (K, V) -> P) {
    && attrs.Keys == (set n | n in children :: attr(n))
    && forall a :: a in attrs ==> exists n :: n in children && attr(n) == a && attrs[a] == proxy(n, children[n])
  }

  /** The collection a child of `parentUri` is reached by. */
  function ChildProxy(parentUri: PyStr): (PyStr, Json) -> CollectionProxy {
    (n: PyStr, v: Json) => CollectionProxy(ChildUri(parentUri, n), v)
  }

  /** `attrs` holds what the child loop leaves behind: an attribute per
      normalised child name, each the collection of some child of that name. */
  ghost predicate AttachedFrom(attrs: map<PyStr, CollectionProxy>, parentUri: PyStr, children: map<PyStr, Json>) {
    Attached(attrs, children, AttributeName, ChildProxy(parentUri))
  }

  /** The child loop of `EntityProxy.__init__` and `Celly.__init__`: one
      `setattr` per child, in the dictionary's order. */
  method AttachChildren(parentUri: PyStr, children: map<PyStr, Json>) returns (attrs: map<PyStr, CollectionProxy>)
    ensures AttachedFrom(attrs, parentUri, children)
  {
    attrs := map[];
    var pending := children.Keys;
    while pending != {}
      invariant pending <= children.Keys
      invariant AttachedFrom(attrs, parentUri, children - pending)
      decreases pending
    {
      var n :| n in pending;
      AttachOne(attrs, children - pending, AttributeName, ChildProxy(parentUri), n, children[n]);
      assert children - (pending - {n}) == (children - pending)[n := children[n]];
      attrs := attrs[AttributeName(n) := CollectionProxy(ChildUri(parentUri, n), children[n])];
      pending := pending - {n};
    }
    assert children - pending == children;
  }

  /** One `setattr` keeps `Attached`: the attribute it writes reaches the
      child just added, and it leaves the others alone. */
  lemma AttachOne<K, V, A, P>(attrs: map<A, P>, done: map<K, V>, attr: K -> A, proxy: (K, V) -> P, n: K, v: V)
    requires Attached(attrs, done, attr, proxy)
    ensures Attached(attrs[attr(n) := proxy(n, v)], done[n := v], attr, proxy)
  {
    var a := attr(n);
    var after := attrs[a := proxy(n, v)];
    var more := done[n := v];
    assert after.Keys == (set m | m in more :: attr(m));
    forall b | b in after
      ensures exists m :: m in more && attr(m) == b && after[b] == proxy(m, more[m])
    {
      if b == a {
        assert n in more && after[b] == proxy(n, more[n]);
      } else {
        var m :| m in done && attr(m) == b && attrs[b] == proxy(m, done[m]);
        assert m in more && more[m] == done[m];
      }
    }
  }

  /** Children whose names all map to one attribute leave that single
      attribute, reaching the proxy of one of them. */
  lemma AttachedOnce<K, V, A, P>(attrs: map<A, P>, children: map<K, V>, attr: K -> A, proxy: (K, V) -> P, a: A)
    requires Attached(attrs, children, attr, proxy)
    requires children != map[] && forall n :: n in children ==> attr(n) == a
    ensures attrs.Keys == {a}
    ensures exists n :: n in children && attrs[a] == proxy(n, children[n])
  {
    var x :| x in children;
    assert attr(x) in attrs.Keys;
  }

  /** Two children given one attribute leave that attribute alone, reaching
      the proxy of one of the two. */
  lemma AttachedTwo<K, V, A, P>(attrs: map<A, P>, attr: K -> A, proxy: (K, V) -> P, p: K, q: K, x: V, y: V)
    requires p != q && attr(p) == attr(q)
    requires Attached(attrs, map[p := x, q := y], attr, proxy)
    ensures attrs == map[attr(p) := proxy(p, x)] || attrs == map[attr(p) := proxy(q, y)]
  {
    var children := map[p := x, q := y];
    assert p in children;
    AttachedOnce(attrs, children, attr, proxy, attr(p));
    assert attrs == map[attr(p) := attrs[attr(p)]];
  }

  /** When no child name holds `_`, every child is reachable under its own attribute. */
  lemma AttachedExactly(attrs: map<PyStr, CollectionProxy>, parentUri: PyStr, children: map<PyStr, Json>)
    requires AttachedFrom(attrs, parentUri, children)
    requires forall n :: n in children ==> '_' !in n
    ensures forall n :: n in children ==>
      AttributeName(n) in attrs && attrs[AttributeName(n)] == CollectionProxy(ChildUri(parentUri, n), children[n])
  {
    forall n | n in children
      ensures AttributeName(n) in attrs && attrs[AttributeName(n)] == CollectionProxy(ChildUri(parentUri, n), children[n])
    {
      var a := AttributeName(n);
      assert a in attrs;
      var m :| m in children && AttributeName(m) == a && attrs[a] == CollectionProxy(ChildUri(parentUri, m), children[m]);
      AttributeNameInjective(m, n);
    }
  }

  /** Distinct attributes reach distinct collections. */
  lemma AttachedUrisDistinct(attrs: map<PyStr, CollectionProxy>, parentUri: PyStr, children: map<PyStr, Json>, a: PyStr, b: PyStr)
    requires AttachedFrom(attrs, parentUri, children)
    requires a in attrs && b in attrs && a != b
    ensures attrs[a].uri != attrs[b].uri
  {
    var m :| m in children && AttributeName(m) == a && attrs[a] == CollectionProxy(ChildUri(parentUri, m), children[m]);
    var n :| n in children && AttributeName(n) == b && attrs[b] == CollectionProxy(ChildUri(parentUri, n), children[n]);
    if attrs[a].uri == attrs[b].uri {
      ChildUriInjective(parentUri, m, n);
    }
  }

  /** Children whose names all normalise to one attribute leave that single
      attribute, reaching the collection of one of them. */
  lemma AttachedSameName(attrs: map<PyStr, CollectionProxy>, parentUri: PyStr, children: map<PyStr, Json>, a: PyStr)
    requires AttachedFrom(attrs, parentUri, children)
    requires children != map[] && forall n :: n in children ==> AttributeName(n) == a
    ensures attrs.Keys == {a}
    ensures exists n :: n in children && attrs[a] == CollectionProxy(ChildUri(parentUri, n), children[n])
  {
    AttachedOnce(attrs, children, AttributeName, ChildProxy(parentUri), a);
    var n :| n in children && attrs[a] == ChildProxy(parentUri)(n, children[n]);
  }

  /** Two children whose names normalise alike leave one attribute, reaching
      the collection of one of the two. */
  lemma AttachedPair(attrs: map<PyStr, CollectionProxy>, parentUri: PyStr, p: PyStr, q: PyStr, x: Json, y: Json)
    requires p != q && AttributeName(p) == AttributeName(q)
    requires AttachedFrom(attrs, parentUri, map[p := x, q := y])
    ensures attrs == map[AttributeName(p) := CollectionProxy(ChildUri(parentUri, p), x)]
         || attrs == map[AttributeName(p) := CollectionProxy(ChildUri(parentUri, q), y)]
  {
    AttachedTwo(attrs, AttributeName, ChildProxy(parentUri), p, q, x, y);
  }

  /** Children `a-b` and `a_b` leave one attribute, `a_b`, reaching one of the two. */
  lemma AttachedCollision(attrs: map<PyStr, CollectionProxy>, parentUri: PyStr, x: Json, y: Json)
    requires AttachedFrom(attrs, parentUri, map["a-b" := x, "a_b" := y])
    ensures attrs == map["a_b" := CollectionProxy(ChildUri(parentUri, "a-b"), x)]
         || attrs == map["a_b" := CollectionProxy(ChildUri(parentUri, "a_b"), y)]
  {
    AttributeNameCollision();
    assert "a-b" != "a_b" by {
      assert "a-b"[1] != "a_b"[1];
    }
    AttachedPair(attrs, parentUri, "a-b", "a_b", x, y);
  }

  /** `EntityProxy(celly, uri, schema)`: crashes when the schema node has no
      dictionary of children. */
  method NewEntity(uri: PyStr, schema: Json) returns (r: Result<EntityProxy, Crash>)
    ensures r.Ok? <==> ChildrenOf(schema).Ok?
    ensures r.Err? ==> r.error == ChildrenOf(schema).error
    ensures r.Ok? ==> r.value.uri == uri && r.value.schema == schema
    ensures r.Ok? ==> AttachedFrom(r.value.children, uri, ChildrenOf(schema).value)
  {
    var children :- ChildrenOf(schema);
    var attrs := AttachChildren(uri, children);
    r := Ok(EntityProxy(uri, schema, attrs));
  }

  /** `entities` is one proxy per key of a listing, keys taken in `order`. */
  ghost predicate Listed(entities: seq<EntityProxy>, order: seq<PyStr>, collection: CollectionProxy, keys: set<PyStr>) {
    && |entities| == |order| == |keys|
    && (forall i, j :: 0 <= i < j < |order| ==> order[i] != order[j])
    && (forall i :: 0 <= i < |order| ==> order[i] in keys)
    && (forall k :: k in keys ==> k in order)
    && (forall i :: 0 <= i < |entities| ==> Built(entities[i], EntityUri(collection.uri, order[i]), collection.schema))
  }

  /** `e` is the proxy `EntityProxy(celly, uri, schema)` builds. */
  ghost predicate Built(e: EntityProxy, uri: PyStr, schema: Json) {
    && e.uri == uri
    && e.schema == schema
    && ChildrenOf(schema).Ok?
    && AttachedFrom(e.children, uri, ChildrenOf(schema).value)
  }

  /** The entities of a listing have pairwise distinct URIs. */
  lemma ListedUrisDistinct(entities: seq<EntityProxy>, order: seq<PyStr>, collection: CollectionProxy, keys: set<PyStr>)
    requires Listed(entities, order, collection, keys)
    ensures forall i, j :: 0 <= i < j < |entities| ==> entities[i].uri != entities[j].uri
  {
    forall i, j | 0 <= i < j < |entities|
      ensures entities[i].uri != entities[j].uri
    {
      if entities[i].uri == entities[j].uri {
        EntityUriInjective(collection.uri, order[i], order[j]);
      }
    }
  }

  /** `item['desired'][schema['pkey']]` when the item has a desired state,
      `item['current'][schema['pkey']]` otherwise: `_get_key`. */
  function GetKey(schema: Json, item: Json): (r: Result<Json, Crash>)
    ensures r.Ok? ==> item.JObj? && schema.JObj? && "pkey" in schema.fields
    ensures item.JObj? && "desired" !in item.fields && "current" !in item.fields ==> r == Err(KeyError(JStr("current")))
  {
    var hasDesired :- Contains(item, "desired");
    var state :- Subscript(item, JStr(if hasDesired then "desired" else "current"));
    var pkey :- Subscript(schema, JStr("pkey"));
    Subscript(state, pkey)
  }

  /** For a well-formed node with a key field and an item `{desired?, current?}`,
      the key is read from the desired state when there is one, else from the
      current state; a missing state or key field raises `KeyError`. */
  lemma {:induction false} GetKeyOfItem(s: Schema, item: map<PyStr, Json>)
    requires s.pkey.Some?
    requires forall k :: k in item ==> item[k].JObj?
    ensures var p := s.pkey.value;
      var chosen := if "desired" in item then "desired" else "current";
      && (chosen !in item ==> GetKey(ToJson(s), JObj(item)) == Err(KeyError(JStr("current"))))
      && (chosen in item && p in item[chosen].fields ==> GetKey(ToJson(s), JObj(item)) == Ok(item[chosen].fields[p]))
      && (chosen in item && p !in item[chosen].fields ==> GetKey(ToJson(s), JObj(item)) == Err(KeyError(JStr(p))))
  {
    PkeyOfWellFormed(s);
  }

  /** The patch `merge` sends: `[{'op': 'x-merge', 'path': '/', 'value': value}]`.
      It carries exactly the value merged. */
  function MergeOps(value: Json): (r: Json)
    ensures MergedValue(r) == Some(value)
  {
    var op := map["op" := JStr("x-merge"), "path" := JStr("/"), "value" := value];
    assert op.Keys == {"op", "path", "value"};
    JArr([JObj(op)])
  }

  /** The value a patch merges in, if it is a single whole-resource merge. */
  function MergedValue(ops: Json): Option<Json> {
    if ops.JArr? && |ops.items| == 1 && ops.items[0].JObj? then
      var op := ops.items[0].fields;
      if op.Keys == {"op", "path", "value"} && op["op"] == JStr("x-merge") && op["path"] == JStr("/") then Some(op["value"])
      else None
    else None
  }

  /** Distinct values give distinct merge patches. */
  lemma MergeOpsInjective(a: Json, b: Json)
    requires MergeOps(a) == MergeOps(b)
    ensures a == b
  {
    assert MergedValue(MergeOps(a)) == Some(a);
  }

  /** The `auth` argument: a token string, a sequence of credential strings, or `None`. */
  datatype Auth = NoAuth | Token(token: PyStr) | Credentials(parts: seq<PyStr>)

  /** The default headers `Celly.__init__` builds: `Authorization` alone;
      `':'.join(None)` raises `TypeError`. */
  function AuthHeaders(auth: Auth): (r: Result<map<PyStr, PyStr>, Crash>)
    ensures r.Ok? <==> !auth.NoAuth?
    ensures r.Err? ==> r.error == TypeError(NotIterable)
    ensures r.Ok? ==> r.value.Keys == {"Authorization"}
  {
    match auth
    case Token(t) => Ok(map["Authorization" := "Token " + t])
    case Credentials(parts) => Ok(map["Authorization" := "Basic " + EncodeLines(Join(":", parts))])
    case NoAuth => Err(TypeError(NotIterable))
  }

  /** The token, or the colon-joined credentials, can be read back from the
      `Authorization` header. */
  lemma AuthHeaderReadable(auth: Auth)
    ensures auth.Token? ==> var h := AuthHeaders(auth).value["Authorization"];
      h[..6] == "Token " && h[6..] == auth.token
    ensures auth.Credentials? ==> var h := AuthHeaders(auth).value["Authorization"];
      h[..6] == "Basic " && DecodeLines(h[6..]) == Join(":", auth.parts)
  {
    if auth.Credentials? {
      var h := AuthHeaders(auth).value["Authorization"];
      assert h[6..] == EncodeLines(Join(":", auth.parts));
      EncodeLinesRoundTrip(Join(":", auth.parts));
    }
  }

  /** A user name and password give `Basic ` and the MIME base64 of
      `user:password`, ending in a newline. */
  lemma BasicHeader(user: PyStr, password: PyStr)
    ensures var h := AuthHeaders(Credentials([user, password])).value["Authorization"];
      && h == "Basic " + EncodeLines(user + ":" + password)
      && DecodeLines(h[6..]) == user + ":" + password
      && h[|h| - 1] == '\n'
  {
    var joined := user + ":" + password;
    assert Join(":", [user, password]) == joined by {
      assert [user, password][1..] == [password];
    }
    EncodeLinesRoundTrip(joined);
    var h := "Basic " + EncodeLines(joined);
    assert h[6..] == EncodeLines(joined);
  }

  /** A colon inside a credential is not escaped: different credentials can send the same header. */
  lemma CredentialsAmbiguous()
    ensures AuthHeaders(Credentials(["a:b", "c"])) == AuthHeaders(Credentials(["a", "b:c"]))
  {
    assert Join(":", ["a:b", "c"]) == "a:b:c" by {
      assert ["a:b", "c"][1..] == ["c"];
    }
    assert Join(":", ["a", "b:c"]) == "a:b:c" by {
      assert ["a", "b:c"][1..] == ["b:c"];
    }
  }

  /** A state of the entity read from a response: `.get(name)` on the body.
      It is read when the request succeeds with a dictionary, and is the entry
      under its name, `None` when absent; any other body raises
      `AttributeError`. */
  function StateField(outcome: Result<Json, Failure>, name: PyStr): (r: Result<Json, Failure>)
    ensures r.Ok? <==> outcome.Ok? && outcome.value.JObj?
    ensures outcome.Err? ==> r == outcome
    ensures outcome.Ok? && !outcome.value.JObj? ==> r == Err(Crashed(AttributeError("get")))
    ensures r.Ok? ==> r.value == (if name in outcome.value.fields then outcome.value.fields[name] else JNull)
  {
    match outcome
    case Err(f) => Err(f)
    case Ok(body) =>
      match Get(body, name)
      case Ok(v) => Ok(v)
      case Err(c) => Err(Crashed(c))
  }

  /** The client: `Celly`. */
  class Client {
    /** The base URI of the API. */
    const uri: PyStr
    /** The default headers sent with every request. */
    const headers: map<PyStr, PyStr>
    /** `_schema`, once it has been fetched. */
    var cache: Option<Json>
    /** The collection proxies set as attributes, by attribute name. */
    var attrs: map<PyStr, CollectionProxy>
    /** How many times the schema has been fetched. */
    ghost var fetches: nat
    /** Every request sent, oldest first. */
    ghost var log: seq<HttpCall>

    constructor (uri: PyStr, headers: map<PyStr, PyStr>)
      ensures this.uri == uri && this.headers == headers
      ensures cache == None && attrs == map[] && fetches == 0 && log == []
    {
      this.uri := uri;
      this.headers := headers;
      cache := None;
      attrs := map[];
      fetches := 0;
      log := [];
    }

    /** A client built by `Open`: the schema is cached and was fetched once. */
    ghost predicate Opened()
      reads this
    {
      cache.Some? && fetches == 1
    }

    /** `request(target, verb, body, perCall)`, the transport answering `reply`. */
    method Request(target: PyStr, verb: Method, body: Option<Json>, perCall: map<PyStr, PyStr>,
                   reply: Reply, loads: PyStr -> Option<Json>) returns (r: Result<Json, Failure>)
      modifies this`log
      ensures log == old(log) + [HttpCall(target, verb, body, MergeHeaders(headers, perCall))]
      ensures r == Outcome(reply, loads)
    {
      var sent := MergeHeaders(headers, perCall);
      log := log + [HttpCall(target, verb, body, sent)];
      var data := JStr(reply.raw);
      if IsJson(reply) {
        var decoded := loads(reply.raw);
        if decoded.None? {
          return Err(Crashed(ValueError));
        }
        data := decoded.value;
      }
      if reply.status == 200 {
        return Ok(data);
      }
      var e := FromResponse(reply.status, data);
      r := if e.Ok? then Err(Raised(e.value)) else Err(Crashed(e.error));
    }

    /** The `schema` property: fetched from `<uri>/schema` on first use and
        cached; later uses send nothing. */
    method GetSchema(reply: Reply, loads: PyStr -> Option<Json>) returns (r: Result<Json, Failure>)
      modifies this`cache, this`fetches, this`log
      ensures old(cache).Some? ==> r == Ok(old(cache).value) && unchanged(this)
      ensures old(cache).None? ==> fetches == old(fetches) + 1
      ensures old(cache).None? ==> log == old(log) + [HttpCall(uri + "/schema", GET, None, headers)]
      ensures old(cache).None? && Outcome(reply, loads).Ok? ==>
        r == Ok(Root(Outcome(reply, loads).value)) && cache == Some(r.value)
      ensures old(cache).None? && Outcome(reply, loads).Err? ==>
        r == Err(Outcome(reply, loads).error) && cache == None
    {
      if cache.None? {
        fetches := fetches + 1;
        var answer := Request(uri + "/schema", GET, None, map[], reply, loads);
        assert MergeHeaders(headers, map[]) == headers;
        if answer.Err? {
          return Err(answer.error);
        }
        cache := Some(Root(answer.value));
      }
      r := Ok(cache.value);
    }

    /** However many times the schema is used after opening, it is never fetched again. */
    method UseSchema(replies: seq<Reply>, loads: PyStr -> Option<Json>) returns (uses: seq<Result<Json, Failure>>)
      requires Opened()
      modifies this`cache, this`fetches, this`log
      ensures Opened() && unchanged(this)
      ensures |uses| == |replies|
      ensures forall i :: 0 <= i < |uses| ==> uses[i] == Ok(cache.value)
    {
      uses := [];
      for i := 0 to |replies|
        invariant Opened() && unchanged(this)
        invariant |uses| == i
        invariant forall j :: 0 <= j < i ==> uses[j] == Ok(cache.value)
      {
        var s := GetSchema(replies[i], loads);
        uses := uses + [s];
      }
    }
  }

  /** The `base_uri` `Celly` uses when none is given. */
  const DefaultBaseUri: PyStr := "http://127.0.0.1:9860/v1"

  /** The base URI a client is opened on: the one given, else the default. */
  function BaseUri(given: Option<PyStr>): PyStr {
    if given.Some? then given.value else DefaultBaseUri
  }

  /** `Celly(base_uri, auth)`: builds the `Authorization` header, fetches the
      schema (the transport answering `reply`) and sets one collection proxy
      per top-level child. `baseUri` is `None` when the caller leaves
      `base_uri` out. */
  method Open(baseUri: Option<PyStr>, auth: Auth, reply: Reply, loads: PyStr -> Option<Json>) returns (r: Result<Client, Failure>)
    ensures AuthHeaders(auth).Err? ==> r == Err(Crashed(AuthHeaders(auth).error))
    ensures AuthHeaders(auth).Ok? && Outcome(reply, loads).Err? ==> r == Err(Outcome(reply, loads).error)
    ensures AuthHeaders(auth).Ok? && Outcome(reply, loads).Ok? ==>
      (r.Ok? <==> Outcome(reply, loads).value.JObj?) &&
      (r.Err? ==> r == Err(Crashed(AttributeError("iteritems"))))
    ensures r.Ok? ==> fresh(r.value) && r.value.Opened()
    ensures r.Ok? && baseUri.None? ==> r.value.uri == "http://127.0.0.1:9860/v1"
    ensures r.Ok? ==> r.value.uri == BaseUri(baseUri) && r.value.headers == AuthHeaders(auth).value
    ensures r.Ok? ==> r.value.log == [HttpCall(BaseUri(baseUri) + "/schema", GET, None, r.value.headers)]
    ensures r.Ok? ==> r.value.cache == Some(Root(Outcome(reply, loads).value))
    ensures r.Ok? ==> AttachedFrom(r.value.attrs, BaseUri(baseUri), Outcome(reply, loads).value.fields)
  {
    var headers := AuthHeaders(auth);
    if headers.Err? {
      return Err(Crashed(headers.error));
    }
    var uri := BaseUri(baseUri);
    var c := new Client(uri, headers.value);
    var schema := c.GetSchema(reply, loads);
    if schema.Err? {
      return Err(schema.error);
    }
    RootChildren(Outcome(reply, loads).value);
    var children := ChildrenOf(schema.value);
    if children.Err? {
      return Err(Crashed(children.error));
    }
    c.attrs := AttachChildren(uri, children.value);
    r := Ok(c);
  }
}
