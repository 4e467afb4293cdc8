/**
 * How the client names remote resources. An entity's URI is its
 * collection's URI with the quoted key appended; a child collection's URI is
 * its parent's URI, a slash, the quoted child name and a trailing slash. A
 * child collection is reachable as an attribute named after the child with
 * every `-` turned into `_`.
 */
module Uris {
  import opened PyText
  import opened Quoting

  /** `'%s%s' % (collection_uri, quote(key, ''))`: the collection URI followed
      by one path segment, free of `/`, from which the key is read back. */
  function EntityUri(collectionUri: PyStr, key: PyStr): (r: PyStr)
    ensures collectionUri <= r
    ensures '/' !in r[|collectionUri|..]
    ensures Unquote(r[|collectionUri|..]) == key
  {
    var r := collectionUri + Quote(key);
    assert r[|collectionUri|..] == Quote(key);
    QuoteNoSlash(key);
    r
  }

  /** `'%s/%s/' % (parent_uri, quote(name, ''))`: the parent URI, then a
      segment free of `/` from which the child name is read back, enclosed in
      slashes. */
  function ChildUri(parentUri: PyStr, name: PyStr): (r: PyStr)
    ensures NamesChild(r, parentUri, name)
  {
    var r := parentUri + "/" + Quote(name) + "/";
    assert r[|parentUri| + 1..|r| - 1] == Quote(name);
    QuoteNoSlash(name);
    r
  }

  /** `uri` is `parentUri`, a slash, a segment free of `/` that unquotes to
      `name`, and a closing slash. */
  predicate NamesChild(uri: PyStr, parentUri: PyStr, name: PyStr) {
    && |uri| >= |parentUri| + 2
    && parentUri + "/" <= uri && uri[|uri| - 1] == '/'
    && '/' !in uri[|parentUri| + 1..|uri| - 1]
    && Unquote(uri[|parentUri| + 1..|uri| - 1]) == name
  }

  /** `name.replace('-', '_')`: the attribute a child collection is reached by.
      Every `-` becomes `_` and every other byte of the name is kept. */
  function AttributeName(name: PyStr): (r: PyStr)
    ensures |r| == |name| && '-' !in r
    ensures forall i :: 0 <= i < |name| && name[i] == '-' ==> r[i] == '_'
    ensures forall i :: 0 <= i < |name| && name[i] != '-' ==> r[i] == name[i]
  {
    Replace(name, '-', '_')
  }

  /** Distinct keys of one collection name distinct entities, and the key is
      always a single path segment after the collection URI. */
  lemma EntityUriInjective(collectionUri: PyStr, a: PyStr, b: PyStr)
    requires EntityUri(collectionUri, a) == EntityUri(collectionUri, b)
    ensures a == b
  {
    var n := |collectionUri|;
    assert Unquote(EntityUri(collectionUri, a)[n..]) == a;
  }

  /** Distinct child names under one parent name distinct collections. */
  lemma ChildUriInjective(parentUri: PyStr, a: PyStr, b: PyStr)
    requires ChildUri(parentUri, a) == ChildUri(parentUri, b)
    ensures a == b
  {
    var c := ChildUri(parentUri, a);
    assert Unquote(c[|parentUri| + 1..|c| - 1]) == a;
  }

  /** A child collection of one entity never shares its URI with a sibling
      entity of the same collection. */
  lemma EntityNotChildCollection(collectionUri: PyStr, key: PyStr, other: PyStr, name: PyStr)
    ensures EntityUri(collectionUri, key) != ChildUri(EntityUri(collectionUri, other), name)
  {
    var e := EntityUri(collectionUri, key);
    var c := ChildUri(EntityUri(collectionUri, other), name);
    var n := |collectionUri|;
    var slash := n + |Quote(other)|;
    assert c[slash] == '/';
  }

  /** The empty key names the collection itself. */
  lemma EmptyKeyIsCollection(collectionUri: PyStr)
    ensures EntityUri(collectionUri, "") == collectionUri
  {
    assert Quote("") == [];
  }

  /** The attribute name is the child's name exactly when that has no `-`. */
  lemma AttributeNameShape(name: PyStr)
    ensures AttributeName(name) == name <==> '-' !in name
  {
    if '-' in name {
      var i :| 0 <= i < |name| && name[i] == '-';
      assert AttributeName(name)[i] == '_';
    } else {
      assert forall i :: 0 <= i < |name| ==> AttributeName(name)[i] == name[i];
    }
  }

  /** Names without `_` keep distinct attributes. */
  lemma AttributeNameInjective(a: PyStr, b: PyStr)
    requires '_' !in a && '_' !in b
    requires AttributeName(a) == AttributeName(b)
    ensures a == b
  {
    assert |a| == |b|;
    forall i | 0 <= i < |a|
      ensures a[i] == b[i]
    {
      assert AttributeName(a)[i] == AttributeName(b)[i];
    }
  }

  /** `a-b` and `a_b` share the attribute `a_b`. */
  lemma AttributeNameCollision()
    ensures AttributeName("a-b") == AttributeName("a_b") == "a_b"
  {
    assert AttributeName("a-b")[1] == '_';
    assert AttributeName("a_b")[1] == '_';
  }
}
